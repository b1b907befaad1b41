/** The correlator step by step, against what its tables were given: which response and which cell an
    event is attributed to, when it leaves, and which cells live. */
module CorrelatorLaws {
  import opened Common
  import opened Events
  import opened ToolCorrelation
  import opened NamedCalls

  // ---- What the tables of a turn were given ---------------------------------------

  /** The turn's state begins anew. */
  predicate Resets(a: Action, k: TurnKey) {
    (a.TurnCompleted? && (a.thread, a.turn) == k) || (a.ThreadClosed? && a.thread == k.0)
  }

  /** The calls named in the turn so far, once the step is taken. */
  function NamingsAfter(p: seq<Pair>, a: Action, k: TurnKey): seq<Pair> {
    if Resets(a, k) then []
    else if a.Sampled? && (a.thread, a.turn) == k then p + Names(a.calls, a.response)
    else p
  }

  /** The calls started in live cells in the turn so far, once the step is taken. */
  function ChildrenAfter(c: Correlator, h: seq<Pair>, a: Action, k: TurnKey): seq<Pair> {
    if Resets(a, k) then []
    else if a.ChildStarted? && (a.thread, a.turn) == k && a.cell in CellsOf(c, a.thread) then h + [(a.call, a.cell)]
    else h
  }

  /** A waiting event whose call was named is tied to the last response that named it. */
  ghost predicate QueueNamed(q: seq<ToolEvent>, p: seq<Pair>) {
    forall e :: e in q && Named(p, e.itemId).Some? ==> e.originatingResponseId == Named(p, e.itemId)
  }

  ghost predicate TablesFit(st: ToolResponseState, p: seq<Pair>, h: seq<Pair>) {
    TableFits(st.responseIdsByCallId, p) && TableFits(st.cellIdsByChildCallId, h)
  }

  ghost predicate TurnFits(st: ToolResponseState, p: seq<Pair>, h: seq<Pair>) {
    TablesFit(st, p, h) && QueueNamed(st.pendingToolEvents, p)
  }

  // ---- Attribution of one event ---------------------------------------------------

  /** The live cell an event belongs to: the one it names, or the one its call was started in. */
  predicate InCell(e: ToolEvent, h: seq<Pair>, cells: Cells, id: CellId) {
    id in cells && if e.cellId.Some? then e.cellId.value == id else Named(h, e.itemId) == Some(id)
  }

  /** `d` is `e` with its cell, its parent call and its originating response: the response that named
      its call or else the one behind its cell. */
  ghost predicate Attributes(e: ToolEvent, d: ToolEvent, p: seq<Pair>, h: seq<Pair>, cells: Cells) {
    && Identity(d) == Identity(e) && d.subsequentResponseId == e.subsequentResponseId
    && (forall id :: InCell(e, h, cells, id) ==>
          && d.cellId == Some(id)
          && d.parentCallId == (if cells[id].parentCallId != e.itemId then Some(cells[id].parentCallId) else None)
          && d.originatingResponseId == OrElse(Named(p, e.itemId), cells[id].originatingResponseId))
    && ((forall id :: !InCell(e, h, cells, id)) ==>
          d.cellId.None? && d.parentCallId.None? && d.originatingResponseId == Named(p, e.itemId))
  }

  lemma EnrichAttributes(e: ToolEvent, st: ToolResponseState, cells: Cells, p: seq<Pair>, h: seq<Pair>)
    requires TablesFit(st, p, h)
    ensures Attributes(e, Enrich(e, st, cells), p, h, cells)
  {
    assert Lookup(st.responseIdsByCallId, e.itemId) == Named(p, e.itemId);
    assert Lookup(st.cellIdsByChildCallId, e.itemId) == Named(h, e.itemId);
    var id := EventCell(e, st, cells);
    if id.Some? {
      assert InCell(e, h, cells, id.value);
    }
  }

  lemma EnrichNamed(e: ToolEvent, st: ToolResponseState, cells: Cells, p: seq<Pair>)
    requires TableFits(st.responseIdsByCallId, p)
    ensures Enrich(e, st, cells).itemId == e.itemId
    ensures Named(p, e.itemId).Some? ==> Enrich(e, st, cells).originatingResponseId == Named(p, e.itemId)
  {
    assert Lookup(st.responseIdsByCallId, e.itemId) == Named(p, e.itemId);
  }

  lemma EnrichAllNamed(q: seq<ToolEvent>, st: ToolResponseState, cells: Cells, p: seq<Pair>)
    requires TableFits(st.responseIdsByCallId, p)
    ensures QueueNamed(EnrichAll(q, st, cells), p)
  {
    EnrichAllAt(q, st, cells);
    forall d | d in EnrichAll(q, st, cells) && Named(p, d.itemId).Some? ensures d.originatingResponseId == Named(p, d.itemId) {
      var i :| 0 <= i < |q| && EnrichAll(q, st, cells)[i] == d;
      EnrichNamed(q[i], st, cells, p);
    }
  }

  // ---- A sampling response --------------------------------------------------------

  lemma {:induction false} SplitHas(q: seq<ToolEvent>, r: ResponseId, d: ToolEvent)
    requires d in q
    ensures if d.originatingResponseId.Some? && d.originatingResponseId.value != r
            then d.(subsequentResponseId := Some(r)) in Released(q, r) else d in Retained(q, r)
  {
    if d in q[..|q| - 1] {
      SplitHas(q[..|q| - 1], r, d);
    }
  }

  lemma SampleFits(st: ToolResponseState, cells: Cells, calls: seq<CallId>, r: ResponseId, p: seq<Pair>, h: seq<Pair>)
    requires TablesFit(st, p, h)
    ensures TurnFits(SampleTurn(st, cells, calls, r).state, p + Names(calls, r), h)
  {
    AdmitAllFits(st.responseIdsByCallId, p, calls, r);
    var st1 := Answered(st, calls, r);
    var cells1 := BackfillAll(cells, st1.responseIdsByCallId);
    EnrichAllNamed(st1.pendingToolEvents, st1, cells1, p + Names(calls, r));
    SplitSizes(EnrichAll(st1.pendingToolEvents, st1, cells1), r);
  }

  /** What becomes of a waiting event when a response of its turn arrives: attributed by all that was
      named by then, it is let out with the response as its subsequent one exactly if it is tied to
      another response, and waits on otherwise. */
  lemma SampleFate(st: ToolResponseState, cells: Cells, calls: seq<CallId>, r: ResponseId, p: seq<Pair>, h: seq<Pair>, e: ToolEvent)
    returns (d: ToolEvent)
    requires TablesFit(st, p, h) && e in st.pendingToolEvents
    ensures
      var s := SampleTurn(st, cells, calls, r);
      && Attributes(e, d, p + Names(calls, r), h, s.cells)
      && if d.originatingResponseId.Some? && d.originatingResponseId.value != r
         then d.(subsequentResponseId := Some(r)) in s.out else d in s.state.pendingToolEvents
  {
    AdmitAllFits(st.responseIdsByCallId, p, calls, r);
    var st1 := Answered(st, calls, r);
    var cells1 := BackfillAll(cells, st1.responseIdsByCallId);
    d := Enrich(e, st1, cells1);
    EnrichAttributes(e, st1, cells1, p + Names(calls, r), h);
    EnrichAllAt(st1.pendingToolEvents, st1, cells1);
    var i :| 0 <= i < |st.pendingToolEvents| && st.pendingToolEvents[i] == e;
    assert EnrichAll(st1.pendingToolEvents, st1, cells1)[i] == d;
    SplitHas(EnrichAll(st1.pendingToolEvents, st1, cells1), r, d);
  }

  /** A response tells the cells of its thread that lack one which response is behind them. */
  lemma SampleCells(st: ToolResponseState, cells: Cells, calls: seq<CallId>, r: ResponseId, p: seq<Pair>)
    requires TableFits(st.responseIdsByCallId, p)
    ensures
      var s := SampleTurn(st, cells, calls, r);
      && s.cells.Keys == cells.Keys
      && forall id :: id in cells ==>
           s.cells[id] == cells[id].(originatingResponseId :=
                            OrElse(cells[id].originatingResponseId, Named(p + Names(calls, r), cells[id].parentCallId)))
  {
    AdmitAllFits(st.responseIdsByCallId, p, calls, r);
    var responses := Answered(st, calls, r).responseIdsByCallId;
    forall id | id in cells ensures Lookup(responses, cells[id].parentCallId) == Named(p + Names(calls, r), cells[id].parentCallId) {
    }
  }

  // ---- A recorded event -----------------------------------------------------------

  /** What becomes of a recorded event: attributed by all that was named so far, it is let out at once
      exactly if it need not wait and has neither cell nor response; otherwise it joins the queue,
      from which only the oldest event leaves, if it is full. */
  lemma RecordFate(c: Correlator, a: Action, p: seq<Pair>, h: seq<Pair>) returns (d: ToolEvent)
    requires a.Record? && TablesFit(StateAt(c, (a.thread, a.turn)), p, h)
    ensures Attributes(a.event.(rootTurn := a.root), d, p, h, CellsOf(c, a.thread))
    ensures
      var k := (a.thread, a.turn);
      var q, o := Pending(c, k), Apply(c, a);
      if a.emission.ImmediateUnlessCorrelated? && d.cellId.None? && d.originatingResponseId.None?
      then o.out == [d] && Pending(o.next, k) == q
      else if |q| == MAX_TOOL_RESPONSE_ENTRIES then o.out == [q[0]] && Pending(o.next, k) == q[1..] + [d]
      else o.out == [] && Pending(o.next, k) == q + [d]
  {
    var st := StateAt(c, (a.thread, a.turn));
    d := Enrich(a.event.(rootTurn := a.root), st, CellsOf(c, a.thread));
    EnrichAttributes(a.event.(rootTurn := a.root), st, CellsOf(c, a.thread), p, h);
  }

  lemma RecordFits(c: Correlator, a: Action, p: seq<Pair>, h: seq<Pair>)
    requires a.Record? && TurnFits(StateAt(c, (a.thread, a.turn)), p, h)
    ensures TurnFits(StateAt(OnRecord(c, a).next, (a.thread, a.turn)), p, h)
  {
    var st := StateAt(c, (a.thread, a.turn));
    var q := st.pendingToolEvents;
    EnrichNamed(a.event.(rootTurn := a.root), st, CellsOf(c, a.thread), p);
    assert |q| > 0 ==> forall e :: e in q[1..] ==> e in q;
  }

  // ---- Every step keeps the tables told -------------------------------------------

  lemma EmptyFits()
    ensures TurnFits(EMPTY_RESPONSE_STATE, [], [])
  {
  }

  lemma ChildFits(c: Correlator, a: Action, p: seq<Pair>, h: seq<Pair>)
    requires a.ChildStarted? && TurnFits(StateAt(c, (a.thread, a.turn)), p, h)
    ensures TurnFits(StateAt(OnChildStarted(c, a).next, (a.thread, a.turn)), p, ChildrenAfter(c, h, a, (a.thread, a.turn)))
  {
    AdmitFits(StateAt(c, (a.thread, a.turn)).cellIdsByChildCallId, h, (a.call, a.cell));
  }

  /** The step concerns the tables of turn `k`. */
  predicate Concerns(a: Action, k: TurnKey) {
    (a.Sampled? || a.Record? || a.ChildStarted?) && (a.thread, a.turn) == k
  }

  lemma OthersUntouched(c: Correlator, a: Action, k: TurnKey)
    requires !Concerns(a, k) && !Resets(a, k) && !a.Flush?
    ensures StateAt(Apply(c, a).next, k) == StateAt(c, k)
  {
  }

  lemma ResetEmpties(c: Correlator, a: Action, k: TurnKey)
    requires Resets(a, k)
    ensures StateAt(Apply(c, a).next, k) == EMPTY_RESPONSE_STATE
  {
  }

  lemma FlushEmpties(c: Correlator, a: Action, k: TurnKey)
    requires a.Flush?
    ensures StateAt(Apply(c, a).next, k) == StateAt(c, k).(pendingToolEvents := [])
  {
  }

  lemma ConcernedFits(c: Correlator, a: Action, k: TurnKey, p: seq<Pair>, h: seq<Pair>)
    requires Concerns(a, k) && TurnFits(StateAt(c, k), p, h)
    ensures TurnFits(StateAt(Apply(c, a).next, k), NamingsAfter(p, a, k), ChildrenAfter(c, h, a, k))
  {
    if a.Sampled? {
      SampleFits(StateAt(c, k), CellsOf(c, a.thread), a.calls, a.response, p, h);
    } else if a.Record? {
      RecordFits(c, a, p, h);
    } else {
      ChildFits(c, a, p, h);
    }
  }

  /** Every step keeps the tables and the queue of a turn as what they were given says. */
  lemma StepFits(c: Correlator, a: Action, k: TurnKey, p: seq<Pair>, h: seq<Pair>)
    requires TurnFits(StateAt(c, k), p, h)
    ensures TurnFits(StateAt(Apply(c, a).next, k), NamingsAfter(p, a, k), ChildrenAfter(c, h, a, k))
  {
    if Concerns(a, k) {
      ConcernedFits(c, a, k, p, h);
    } else if Resets(a, k) {
      ResetEmpties(c, a, k);
      EmptyFits();
    } else if a.Flush? {
      FlushEmpties(c, a, k);
    } else {
      OthersUntouched(c, a, k);
    }
  }

  // ---- Which cells live -----------------------------------------------------------

  /** What a step makes of the cells of a thread; `p` are the calls named so far in its turn. */
  ghost predicate CellStep(before: Cells, a: Action, thread: ThreadId, p: seq<Pair>, id: CellId, after: Option<CodeModeCell>) {
    var cell := Lookup(before, id);
    match a
    case CellStarted(t, turn, call, started) =>
      after == if t == thread && started == id && (id in before || |before| < MAX_TOOL_RESPONSE_ENTRIES)
               then Some(CodeModeCell(call, Named(p, call), None)) else cell
    case CellClosed(t, turn, closed) =>
      after == if t == thread && closed == id && cell.Some? then Some(cell.value.(closedInTurnId := Some(turn))) else cell
    case Sampled(t, turn, response, calls) =>
      after == if t == thread && cell.Some?
               then Some(cell.value.(originatingResponseId :=
                      OrElse(cell.value.originatingResponseId, Named(p + Names(calls, response), cell.value.parentCallId))))
               else cell
    case TurnCompleted(t, turn) =>
      after == if t == thread && cell.Some? && cell.value.closedInTurnId == Some(turn) then None else cell
    case ThreadClosed(t, _) => after == if t == thread then None else cell
    case _ => after == cell
  }

  lemma StartedCells(c: Correlator, a: Action, thread: ThreadId, p: seq<Pair>, id: CellId)
    requires a.CellStarted? && (a.thread == thread ==> TableFits(StateAt(c, (a.thread, a.turn)).responseIdsByCallId, p))
    ensures CellStep(CellsOf(c, thread), a, thread, p, id, Lookup(CellsOf(Apply(c, a).next, thread), id))
  {
  }

  lemma SampledCells(c: Correlator, a: Action, thread: ThreadId, p: seq<Pair>, id: CellId)
    requires a.Sampled? && (a.thread == thread ==> TableFits(StateAt(c, (a.thread, a.turn)).responseIdsByCallId, p))
    ensures CellStep(CellsOf(c, thread), a, thread, p, id, Lookup(CellsOf(Apply(c, a).next, thread), id))
  {
    if a.thread == thread {
      SampleCells(StateAt(c, (a.thread, a.turn)), CellsOf(c, a.thread), a.calls, a.response, p);
    }
  }

  lemma ClosedCells(c: Correlator, a: Action, thread: ThreadId, p: seq<Pair>, id: CellId)
    requires a.CellClosed?
    ensures CellStep(CellsOf(c, thread), a, thread, p, id, Lookup(CellsOf(Apply(c, a).next, thread), id))
  {
  }

  lemma ForgottenCells(c: Correlator, a: Action, thread: ThreadId, p: seq<Pair>, id: CellId)
    requires a.TurnCompleted? || a.ThreadClosed?
    ensures CellStep(CellsOf(c, thread), a, thread, p, id, Lookup(CellsOf(Apply(c, a).next, thread), id))
  {
  }

  lemma SameCells(c: Correlator, a: Action, thread: ThreadId, p: seq<Pair>, id: CellId)
    requires a.ChildStarted? || a.Record? || a.Flush?
    ensures CellStep(CellsOf(c, thread), a, thread, p, id, Lookup(CellsOf(Apply(c, a).next, thread), id))
  {
  }

  /** A step starts, closes, tells and forgets exactly the cells its kind says. */
  lemma StepCells(c: Correlator, a: Action, thread: ThreadId, p: seq<Pair>, id: CellId)
    requires (a.CellStarted? || a.Sampled?) && a.thread == thread ==> TableFits(StateAt(c, (a.thread, a.turn)).responseIdsByCallId, p)
    ensures CellStep(CellsOf(c, thread), a, thread, p, id, Lookup(CellsOf(Apply(c, a).next, thread), id))
  {
    match a
    case CellStarted(_, _, _, _) => StartedCells(c, a, thread, p, id);
    case Sampled(_, _, _, _) => SampledCells(c, a, thread, p, id);
    case CellClosed(_, _, _) => ClosedCells(c, a, thread, p, id);
    case TurnCompleted(_, _) => ForgottenCells(c, a, thread, p, id);
    case ThreadClosed(_, _) => ForgottenCells(c, a, thread, p, id);
    case _ => SameCells(c, a, thread, p, id);
  }
}
