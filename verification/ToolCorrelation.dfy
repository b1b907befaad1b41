/** The tool-event correlator of the analytics reducer: per-turn queues of tool
    events that wait until a later sampling response tells which response asked
    for them and which one followed. */
module ToolCorrelation {
  import opened Common
  import opened Events

  const MAX_TOOL_RESPONSE_ENTRIES: nat := 256

  type TurnKey = (ThreadId, TurnId)

  datatype ToolResponseState = ToolResponseState(
    responseIdsByCallId: map<CallId, ResponseId>,
    cellIdsByChildCallId: map<CallId, CellId>,
    pendingToolEvents: seq<ToolEvent>)

  datatype CodeModeCell = CodeModeCell(
    parentCallId: CallId,
    originatingResponseId: Option<ResponseId>,
    closedInTurnId: Option<TurnId>)

  type Cells = map<CellId, CodeModeCell>

  datatype Correlator = Correlator(
    states: map<TurnKey, ToolResponseState>,
    cells: map<ThreadId, Cells>)

  datatype Emission = ImmediateUnlessCorrelated | AwaitResponse

  /** The steps of the correlator. `order` is the order in which the program's
      hash map happens to yield the keys it walks over. */
  datatype Action =
    | CellStarted(thread: ThreadId, turn: TurnId, call: CallId, cell: CellId)
    | ChildStarted(thread: ThreadId, turn: TurnId, call: CallId, cell: CellId)
    | CellClosed(thread: ThreadId, turn: TurnId, cell: CellId)
    | Sampled(thread: ThreadId, turn: TurnId, response: ResponseId, calls: seq<CallId>)
    | Record(thread: ThreadId, turn: TurnId, root: Option<TurnId>, event: ToolEvent, emission: Emission)
    | TurnCompleted(thread: ThreadId, turn: TurnId)
    | ThreadClosed(thread: ThreadId, order: seq<TurnKey>)
    | Flush(order: seq<TurnKey>)

  datatype Outcome = Outcome(next: Correlator, out: seq<ToolEvent>)

  const EMPTY_RESPONSE_STATE := ToolResponseState(map[], map[], [])
  const EMPTY_CORRELATOR := Correlator(map[], map[])

  function StateAt(c: Correlator, k: TurnKey): ToolResponseState {
    if k in c.states then c.states[k] else EMPTY_RESPONSE_STATE
  }

  function CellsOf(c: Correlator, t: ThreadId): Cells {
    if t in c.cells then c.cells[t] else map[]
  }

  function Pending(c: Correlator, k: TurnKey): seq<ToolEvent> {
    StateAt(c, k).pendingToolEvents
  }

  // ---- Specification of the steps -------------------------------------------------

  /** Insertion into a map that never grows beyond the limit: known keys are
      overwritten, new keys are dropped once the map is full. */
  function Admit<K, V>(m: map<K, V>, k: K, v: V): map<K, V> {
    if k in m || |m| < MAX_TOOL_RESPONSE_ENTRIES then m[k := v] else m
  }

  function AdmitAll(m: map<CallId, ResponseId>, calls: seq<CallId>, r: ResponseId): map<CallId, ResponseId>
    decreases |calls|
  {
    if calls == [] then m else Admit(AdmitAll(m, calls[..|calls| - 1], r), calls[|calls| - 1], r)
  }

  function Backfill(cell: CodeModeCell, responses: map<CallId, ResponseId>): CodeModeCell {
    if cell.originatingResponseId.None? then
      cell.(originatingResponseId := Lookup(responses, cell.parentCallId))
    else
      cell
  }

  function BackfillAll(cells: Cells, responses: map<CallId, ResponseId>): Cells {
    map id | id in cells :: Backfill(cells[id], responses)
  }

  /** The live cell an event belongs to, if any. */
  function EventCell(e: ToolEvent, st: ToolResponseState, cells: Cells): Option<CellId> {
    var cellId := OrElse(e.cellId, Lookup(st.cellIdsByChildCallId, e.itemId));
    if cellId.Some? && cellId.value in cells then cellId else None
  }

  function Enrich(e: ToolEvent, st: ToolResponseState, cells: Cells): ToolEvent {
    var id := EventCell(e, st, cells);
    var direct := Lookup(st.responseIdsByCallId, e.itemId);
    if id.Some? then
      var cell := cells[id.value];
      e.(cellId := id,
         parentCallId := if cell.parentCallId != e.itemId then Some(cell.parentCallId) else None,
         originatingResponseId := OrElse(direct, cell.originatingResponseId))
    else
      e.(cellId := None, parentCallId := None, originatingResponseId := direct)
  }

  function EnrichAll(q: seq<ToolEvent>, st: ToolResponseState, cells: Cells): seq<ToolEvent> {
    if q == [] then [] else EnrichAll(q[..|q| - 1], st, cells) + [Enrich(q[|q| - 1], st, cells)]
  }

  /** `r` is a later response than the one that asked for the event. */
  predicate Follows(e: ToolEvent, r: ResponseId) {
    e.originatingResponseId.Some? && e.originatingResponseId.value != r
  }

  function Released(q: seq<ToolEvent>, r: ResponseId): seq<ToolEvent> {
    if q == [] then [] else
      var e := q[|q| - 1];
      Released(q[..|q| - 1], r) + if Follows(e, r) then [e.(subsequentResponseId := Some(r))] else []
  }

  function Retained(q: seq<ToolEvent>, r: ResponseId): seq<ToolEvent> {
    if q == [] then [] else
      var e := q[|q| - 1];
      Retained(q[..|q| - 1], r) + if Follows(e, r) then [] else [e]
  }

  /** What one sampling response turns a turn's state into, before its queue is split. */
  function Answered(st: ToolResponseState, calls: seq<CallId>, r: ResponseId): ToolResponseState {
    st.(responseIdsByCallId := AdmitAll(st.responseIdsByCallId, calls, r))
  }

  function OnCellStarted(c: Correlator, a: Action): Outcome
    requires a.CellStarted?
  {
    var origin := Lookup(StateAt(c, (a.thread, a.turn)).responseIdsByCallId, a.call);
    var cells := Admit(CellsOf(c, a.thread), a.cell, CodeModeCell(a.call, origin, None));
    Outcome(c.(cells := c.cells[a.thread := cells]), [])
  }

  function OnChildStarted(c: Correlator, a: Action): Outcome
    requires a.ChildStarted?
  {
    var k := (a.thread, a.turn);
    var st := StateAt(c, k);
    if a.cell in CellsOf(c, a.thread) then
      var st' := st.(cellIdsByChildCallId := Admit(st.cellIdsByChildCallId, a.call, a.cell));
      Outcome(c.(states := c.states[k := st']), [])
    else
      Outcome(c, [])
  }

  function OnCellClosed(c: Correlator, a: Action): Outcome
    requires a.CellClosed?
  {
    var cells := CellsOf(c, a.thread);
    if a.cell in cells then
      var cell := cells[a.cell].(closedInTurnId := Some(a.turn));
      Outcome(c.(cells := c.cells[a.thread := cells[a.cell := cell]]), [])
    else
      Outcome(c, [])
  }

  /** What a sampling response makes of its turn's state and its thread's cells. */
  datatype Sample = Sample(state: ToolResponseState, cells: Cells, out: seq<ToolEvent>)

  function SampleTurn(st: ToolResponseState, cells: Cells, calls: seq<CallId>, r: ResponseId): Sample {
    var st1 := Answered(st, calls, r);
    var cells1 := BackfillAll(cells, st1.responseIdsByCallId);
    var queue := EnrichAll(st1.pendingToolEvents, st1, cells1);
    Sample(st1.(pendingToolEvents := Retained(queue, r)), cells1, Released(queue, r))
  }

  function OnSampled(c: Correlator, a: Action): Outcome
    requires a.Sampled?
  {
    var k := (a.thread, a.turn);
    var s := SampleTurn(StateAt(c, k), CellsOf(c, a.thread), a.calls, a.response);
    Outcome(
      Correlator(
        c.states[k := s.state],
        if a.thread in c.cells then c.cells[a.thread := s.cells] else c.cells),
      s.out)
  }

  predicate Correlated(e: ToolEvent) {
    e.cellId.Some? || e.originatingResponseId.Some?
  }

  function OnRecord(c: Correlator, a: Action): Outcome
    requires a.Record?
  {
    var k := (a.thread, a.turn);
    var st := StateAt(c, k);
    var e := Enrich(a.event.(rootTurn := a.root), st, CellsOf(c, a.thread));
    var q := st.pendingToolEvents;
    if a.emission.ImmediateUnlessCorrelated? && !Correlated(e) then
      Outcome(c.(states := c.states[k := st]), [e])
    else if |q| == MAX_TOOL_RESPONSE_ENTRIES then
      Outcome(c.(states := c.states[k := st.(pendingToolEvents := q[1..] + [e])]), [q[0]])
    else
      Outcome(c.(states := c.states[k := st.(pendingToolEvents := q + [e])]), [])
  }

  function OpenCells(cells: Cells, turn: TurnId): Cells {
    map id | id in cells && cells[id].closedInTurnId != Some(turn) :: cells[id]
  }

  function OnTurnCompleted(c: Correlator, a: Action): Outcome
    requires a.TurnCompleted?
  {
    var k := (a.thread, a.turn);
    var open := OpenCells(CellsOf(c, a.thread), a.turn);
    Outcome(
      Correlator(
        c.states - {k},
        if open == map[] then c.cells - {a.thread} else c.cells[a.thread := open]),
      Pending(c, k))
  }

  /** The queues of the listed keys, one after the other. */
  function Drained(c: Correlator, order: seq<TurnKey>): seq<ToolEvent> {
    if order == [] then [] else Drained(c, order[..|order| - 1]) + Pending(c, order[|order| - 1])
  }

  function KeysOfThread(c: Correlator, t: ThreadId): set<TurnKey> {
    set k | k in c.states && k.0 == t
  }

  function OnThreadClosed(c: Correlator, a: Action): Outcome
    requires a.ThreadClosed?
  {
    Outcome(
      Correlator(c.states - KeysOfThread(c, a.thread), c.cells - {a.thread}),
      Drained(c, a.order))
  }

  function OnFlush(c: Correlator, a: Action): Outcome
    requires a.Flush?
  {
    Outcome(
      c.(states := map k | k in c.states :: c.states[k].(pendingToolEvents := [])),
      Drained(c, a.order))
  }

  function Apply(c: Correlator, a: Action): Outcome {
    match a
    case CellStarted(_, _, _, _) => OnCellStarted(c, a)
    case ChildStarted(_, _, _, _) => OnChildStarted(c, a)
    case CellClosed(_, _, _) => OnCellClosed(c, a)
    case Sampled(_, _, _, _) => OnSampled(c, a)
    case Record(_, _, _, _, _) => OnRecord(c, a)
    case TurnCompleted(_, _) => OnTurnCompleted(c, a)
    case ThreadClosed(_, _) => OnThreadClosed(c, a)
    case Flush(_) => OnFlush(c, a)
  }

  /** What the program guarantees about the steps it takes: an event is recorded
      under its own turn and has no subsequent response yet, and a walk over a
      hash map visits each of its keys once. */
  ghost predicate Enabled(c: Correlator, a: Action) {
    match a
    case Record(thread, turn, _, event, _) => KeyOf(event) == (thread, turn) && event.subsequentResponseId.None?
    case ThreadClosed(thread, order) => Enumerates(order, KeysOfThread(c, thread))
    case Flush(order) => Enumerates(order, c.states.Keys)
    case _ => true
  }

  // ---- Invariant of every reachable state -----------------------------------------

  ghost predicate GoodState(k: TurnKey, st: ToolResponseState) {
    && |st.responseIdsByCallId| <= MAX_TOOL_RESPONSE_ENTRIES
    && |st.cellIdsByChildCallId| <= MAX_TOOL_RESPONSE_ENTRIES
    && |st.pendingToolEvents| <= MAX_TOOL_RESPONSE_ENTRIES
    && GoodQueue(k, st.pendingToolEvents)
  }

  /** A waiting event waits under its own turn and has no subsequent response. */
  ghost predicate GoodQueue(k: TurnKey, q: seq<ToolEvent>) {
    forall e :: e in q ==> KeyOf(e) == k && e.subsequentResponseId.None?
  }

  ghost predicate Invariant(c: Correlator) {
    && (forall k :: k in c.states ==> GoodState(k, c.states[k]))
    && (forall t :: t in c.cells ==> 0 < |c.cells[t]| <= MAX_TOOL_RESPONSE_ENTRIES)
  }

  lemma {:induction false} AdmitAllBounded(m: map<CallId, ResponseId>, calls: seq<CallId>, r: ResponseId)
    requires |m| <= MAX_TOOL_RESPONSE_ENTRIES
    ensures |AdmitAll(m, calls, r)| <= MAX_TOOL_RESPONSE_ENTRIES
  {
    if calls != [] {
      AdmitAllBounded(m, calls[..|calls| - 1], r);
    }
  }

  /** Enriching touches only three of the correlation fields, position by position. */
  lemma {:induction false} EnrichAllAt(q: seq<ToolEvent>, st: ToolResponseState, cells: Cells)
    ensures |EnrichAll(q, st, cells)| == |q|
    ensures forall i :: 0 <= i < |q| ==> EnrichAll(q, st, cells)[i] == Enrich(q[i], st, cells)
  {
    if q != [] {
      EnrichAllAt(q[..|q| - 1], st, cells);
    }
  }

  lemma {:induction false} SplitSizes(q: seq<ToolEvent>, r: ResponseId)
    ensures |Retained(q, r)| + |Released(q, r)| == |q|
    ensures forall e :: e in Retained(q, r) ==> e in q && !Follows(e, r)
    ensures forall e :: e in Released(q, r) ==> Follows(e, r) && e.subsequentResponseId == Some(r)
  {
    if q != [] {
      SplitSizes(q[..|q| - 1], r);
    }
  }

  lemma EnrichAllGood(k: TurnKey, q: seq<ToolEvent>, st: ToolResponseState, cells: Cells)
    requires GoodQueue(k, q)
    ensures |EnrichAll(q, st, cells)| == |q| && GoodQueue(k, EnrichAll(q, st, cells))
  {
    EnrichAllAt(q, st, cells);
  }

  lemma SampledInvariant(c: Correlator, a: Action)
    requires a.Sampled? && Invariant(c)
    ensures Invariant(OnSampled(c, a).next)
  {
    var k := (a.thread, a.turn);
    var st := Answered(StateAt(c, k), a.calls, a.response);
    AdmitAllBounded(StateAt(c, k).responseIdsByCallId, a.calls, a.response);
    var cells := BackfillAll(CellsOf(c, a.thread), st.responseIdsByCallId);
    EnrichAllGood(k, st.pendingToolEvents, st, cells);
    SplitSizes(EnrichAll(st.pendingToolEvents, st, cells), a.response);
    assert cells.Keys == CellsOf(c, a.thread).Keys;
    assert |cells| == |CellsOf(c, a.thread)|;
  }

  /** A turn's state stays good when a good event joins its queue, the oldest leaving a full one. */
  lemma JoinedStateGood(k: TurnKey, st: ToolResponseState, e: ToolEvent)
    requires GoodState(k, st) && KeyOf(e) == k && e.subsequentResponseId.None?
    ensures
      var q := st.pendingToolEvents;
      GoodState(k, st.(pendingToolEvents := (if |q| == MAX_TOOL_RESPONSE_ENTRIES then q[1..] else q) + [e]))
  {
    var q := st.pendingToolEvents;
    assert |q| > 0 ==> forall d :: d in q[1..] ==> d in q;
  }

  lemma UpdatedInvariant(c: Correlator, k: TurnKey, st: ToolResponseState)
    requires Invariant(c) && GoodState(k, st)
    ensures Invariant(c.(states := c.states[k := st]))
  {
  }

  lemma RecordInvariant(c: Correlator, a: Action)
    requires a.Record? && Invariant(c) && Enabled(c, a)
    ensures Invariant(OnRecord(c, a).next)
  {
    var k := (a.thread, a.turn);
    var st := StateAt(c, k);
    var e := Enrich(a.event.(rootTurn := a.root), st, CellsOf(c, a.thread));
    assert GoodState(k, st);
    JoinedStateGood(k, st, e);
    UpdatedInvariant(c, k, st);
    var q := st.pendingToolEvents;
    UpdatedInvariant(c, k, st.(pendingToolEvents := (if |q| == MAX_TOOL_RESPONSE_ENTRIES then q[1..] else q) + [e]));
  }

  lemma TurnCompletedInvariant(c: Correlator, a: Action)
    requires a.TurnCompleted? && Invariant(c)
    ensures Invariant(OnTurnCompleted(c, a).next)
  {
    var cells := CellsOf(c, a.thread);
    var open := OpenCells(cells, a.turn);
    SubmapSmaller(open, cells);
  }

  lemma SubmapSmaller<K, V>(small: map<K, V>, big: map<K, V>)
    requires small.Keys <= big.Keys
    ensures |small| <= |big|
  {
    SubsetSmaller(small.Keys, big.Keys);
    assert |small| == |small.Keys| && |big| == |big.Keys|;
  }

  lemma ChildStartedInvariant(c: Correlator, a: Action)
    requires a.ChildStarted? && Invariant(c)
    ensures Invariant(OnChildStarted(c, a).next)
  {
    var k := (a.thread, a.turn);
    var st := StateAt(c, k);
    assert GoodState(k, st);
    UpdatedInvariant(c, k, st.(cellIdsByChildCallId := Admit(st.cellIdsByChildCallId, a.call, a.cell)));
  }

  /** Every step keeps all the bounds: each queue, response map, child map and cell map
      holds at most 256 entries, and no thread is left with an empty cell map. */
  lemma StepKeepsInvariant(c: Correlator, a: Action)
    requires Invariant(c) && Enabled(c, a)
    ensures Invariant(Apply(c, a).next)
  {
    match a
    case Sampled(_, _, _, _) => SampledInvariant(c, a);
    case Record(_, _, _, _, _) => RecordInvariant(c, a);
    case TurnCompleted(_, _) => TurnCompletedInvariant(c, a);
    case CellStarted(_, _, _, _) =>
    case ChildStarted(_, _, _, _) => ChildStartedInvariant(c, a);
    case CellClosed(_, _, _) =>
    case ThreadClosed(_, _) =>
    case Flush(_) =>
      assert forall k :: k in c.states ==> GoodState(k, c.states[k].(pendingToolEvents := []));
  }

  // ---- The loops of a sampling response -------------------------------------------

  /** Fill in the originating response of the cells that lack one. */
  method BackfillCells(cells: Cells, responses: map<CallId, ResponseId>) returns (filled: Cells)
    ensures filled == BackfillAll(cells, responses)
  {
    filled := cells;
    var rest: set<CellId> := cells.Keys;
    while exists id :: id in rest
      invariant rest <= cells.Keys && filled.Keys == cells.Keys
      invariant forall id :: id in cells && id in rest ==> filled[id] == cells[id]
      invariant forall id :: id in cells && id !in rest ==> filled[id] == Backfill(cells[id], responses)
      decreases rest
    {
      var id :| id in rest;
      var cell := filled[id];
      if cell.originatingResponseId.None? && cell.parentCallId in responses {
        filled := filled[id := cell.(originatingResponseId := Some(responses[cell.parentCallId]))];
      }
      rest := rest - {id};
    }
    forall id | id in cells ensures filled[id] == Backfill(cells[id], responses) {
      assert id !in rest;
    }
  }

  lemma SplitNext(queue: seq<ToolEvent>, i: nat, st: ToolResponseState, cells: Cells, r: ResponseId)
    requires i < |queue|
    ensures
      var before, after := EnrichAll(queue[..i], st, cells), EnrichAll(queue[..i + 1], st, cells);
      var e := Enrich(queue[i], st, cells);
      if Follows(e, r)
      then Released(after, r) == Released(before, r) + [e.(subsequentResponseId := Some(r))] && Retained(after, r) == Retained(before, r)
      else Released(after, r) == Released(before, r) && Retained(after, r) == Retained(before, r) + [e]
  {
    var before := EnrichAll(queue[..i], st, cells);
    var e := Enrich(queue[i], st, cells);
    assert queue[..i + 1][..i] == queue[..i];
    assert EnrichAll(queue[..i + 1], st, cells) == before + [e];
    assert (before + [e])[..|before|] == before;
  }

  /** Release the events of a queue that the response follows; keep the others. */
  method SplitQueue(state: ToolResponseState, cells: Cells, response: ResponseId)
    returns (released: seq<ToolEvent>, remaining: seq<ToolEvent>)
    ensures released == Released(EnrichAll(state.pendingToolEvents, state, cells), response)
    ensures remaining == Retained(EnrichAll(state.pendingToolEvents, state, cells), response)
  {
    var queue := state.pendingToolEvents;
    released, remaining := [], [];
    for i := 0 to |queue|
      invariant released == Released(EnrichAll(queue[..i], state, cells), response)
      invariant remaining == Retained(EnrichAll(queue[..i], state, cells), response)
    {
      SplitNext(queue, i, state, cells, response);
      var event := Enrich(queue[i], state, cells);
      if event.originatingResponseId.Some? && event.originatingResponseId.value != response {
        released := released + [event.(subsequentResponseId := Some(response))];
      } else {
        remaining := remaining + [event];
      }
    }
    assert queue[..|queue|] == queue;
  }

  // ---- The loop of a flush --------------------------------------------------------

  /** The first `i` queues of the order are empty; everything else is as in `c`. */
  ghost predicate EmptiedUpTo(c: Correlator, order: seq<TurnKey>, i: nat, states: map<TurnKey, ToolResponseState>) {
    && i <= |order| && states.Keys == c.states.Keys
    && forall k :: k in c.states ==>
         states[k] == (if k in order[..i] then c.states[k].(pendingToolEvents := []) else c.states[k])
  }

  lemma EmptyNext(c: Correlator, order: seq<TurnKey>, i: nat, states: map<TurnKey, ToolResponseState>)
    requires Enumerates(order, c.states.Keys) && i < |order| && EmptiedUpTo(c, order, i, states)
    ensures
      && order[i] in states && states[order[i]] == c.states[order[i]]
      && EmptiedUpTo(c, order, i + 1, states[order[i] := states[order[i]].(pendingToolEvents := [])])
      && Drained(c, order[..i + 1]) == Drained(c, order[..i]) + states[order[i]].pendingToolEvents
  {
    assert order[i] in order;
    assert order[..i + 1][..i] == order[..i];
    assert order[i] !in order[..i];
    assert forall k :: k in order[..i + 1] <==> k in order[..i] || k == order[i];
  }

  lemma EmptiedAll(c: Correlator, order: seq<TurnKey>, states: map<TurnKey, ToolResponseState>)
    requires Enumerates(order, c.states.Keys) && EmptiedUpTo(c, order, |order|, states)
    ensures states == OnFlush(c, Flush(order)).next.states && order[..|order|] == order
  {
    assert order[..|order|] == order;
  }
}
