/** Where the originating response of a tool event comes from: the lookup maps, the cells and the
    queues of the correlator never hold a response id that no sampling response supplied for the
    event's own call or for the call that started its cell. */
module CorrelatorAttribution {
  import opened Common
  import opened Events
  import opened ToolCorrelation

  /** In turn 1 of thread 0, response 2 named call 3. */
  type Naming = (ThreadId, TurnId, ResponseId, CallId)

  /** The namings a step brings in. */
  function NamedBy(a: Action): set<Naming> {
    if a.Sampled? then set call | call in a.calls :: (a.thread, a.turn, a.response, call) else {}
  }

  /** Response `r` named the call in some turn of the thread. */
  ghost predicate InThread(w: set<Naming>, thread: ThreadId, r: ResponseId, call: CallId) {
    exists turn :: (thread, turn, r, call) in w
  }

  /** The originating response of an event named its call or the call that started its cell. */
  ghost predicate Traced(e: ToolEvent, w: set<Naming>) {
    e.originatingResponseId.Some? ==>
      var r := e.originatingResponseId.value;
      || InThread(w, e.body.thread, r, e.itemId)
      || (e.parentCallId.Some? && InThread(w, e.body.thread, r, e.parentCallId.value))
  }

  ghost predicate ResponsesTraced(responses: map<CallId, ResponseId>, k: TurnKey, w: set<Naming>) {
    forall call :: call in responses ==> (k.0, k.1, responses[call], call) in w
  }

  ghost predicate CellTraced(cell: CodeModeCell, thread: ThreadId, w: set<Naming>) {
    cell.originatingResponseId.Some? ==> InThread(w, thread, cell.originatingResponseId.value, cell.parentCallId)
  }

  ghost predicate CellsTraced(cells: Cells, thread: ThreadId, w: set<Naming>) {
    forall id :: id in cells ==> CellTraced(cells[id], thread, w)
  }

  ghost predicate QueueTraced(q: seq<ToolEvent>, w: set<Naming>) {
    forall e :: e in q ==> Traced(e, w)
  }

  ghost predicate StateTraced(st: ToolResponseState, k: TurnKey, w: set<Naming>) {
    ResponsesTraced(st.responseIdsByCallId, k, w) && QueueTraced(st.pendingToolEvents, w)
  }

  /** Every response id the correlator holds was supplied by one of the namings `w`. */
  ghost predicate Attributed(c: Correlator, w: set<Naming>) {
    && (forall k :: k in c.states ==> StateTraced(c.states[k], k, w))
    && (forall t :: t in c.cells ==> CellsTraced(c.cells[t], t, w))
  }

  // ---- More namings keep everything traced ----------------------------------------

  lemma InThreadGrows(w: set<Naming>, more: set<Naming>, thread: ThreadId, r: ResponseId, call: CallId)
    requires InThread(w, thread, r, call)
    ensures InThread(w + more, thread, r, call)
  {
    var turn :| (thread, turn, r, call) in w;
    assert (thread, turn, r, call) in w + more;
  }

  lemma TracedGrows(e: ToolEvent, w: set<Naming>, more: set<Naming>)
    requires Traced(e, w)
    ensures Traced(e, w + more)
  {
    if e.originatingResponseId.Some? {
      var thread, r := e.body.thread, e.originatingResponseId.value;
      if InThread(w, thread, r, e.itemId) {
        InThreadGrows(w, more, thread, r, e.itemId);
      } else {
        InThreadGrows(w, more, thread, r, e.parentCallId.value);
      }
    }
  }

  lemma QueueGrows(q: seq<ToolEvent>, w: set<Naming>, more: set<Naming>)
    requires QueueTraced(q, w)
    ensures QueueTraced(q, w + more)
  {
    forall e | e in q ensures Traced(e, w + more) {
      TracedGrows(e, w, more);
    }
  }

  lemma CellsGrow(cells: Cells, thread: ThreadId, w: set<Naming>, more: set<Naming>)
    requires CellsTraced(cells, thread, w)
    ensures CellsTraced(cells, thread, w + more)
  {
    forall id | id in cells ensures CellTraced(cells[id], thread, w + more) {
      assert CellTraced(cells[id], thread, w);
      if cells[id].originatingResponseId.Some? {
        InThreadGrows(w, more, thread, cells[id].originatingResponseId.value, cells[id].parentCallId);
      }
    }
  }

  lemma AttributedGrows(c: Correlator, w: set<Naming>, more: set<Naming>)
    requires Attributed(c, w)
    ensures Attributed(c, w + more)
  {
    forall k | k in c.states ensures StateTraced(c.states[k], k, w + more) {
      assert StateTraced(c.states[k], k, w);
      QueueGrows(c.states[k].pendingToolEvents, w, more);
    }
    forall t | t in c.cells ensures CellsTraced(c.cells[t], t, w + more) {
      CellsGrow(c.cells[t], t, w, more);
    }
  }

  // ---- Enriching ------------------------------------------------------------------

  lemma EnrichTraced(e: ToolEvent, k: TurnKey, st: ToolResponseState, cells: Cells, w: set<Naming>)
    requires KeyOf(e) == k && ResponsesTraced(st.responseIdsByCallId, k, w) && CellsTraced(cells, e.body.thread, w)
    ensures Traced(Enrich(e, st, cells), w)
  {
    var id := EventCell(e, st, cells);
    if e.itemId in st.responseIdsByCallId {
      assert (e.body.thread, e.body.turn, st.responseIdsByCallId[e.itemId], e.itemId) in w;
    } else if id.Some? {
      var cellId: CellId := id.value;
      assert cellId in cells && CellTraced(cells[cellId], e.body.thread, w);
    }
  }

  lemma EnrichAllTraced(q: seq<ToolEvent>, k: TurnKey, st: ToolResponseState, cells: Cells, w: set<Naming>)
    requires GoodQueue(k, q) && ResponsesTraced(st.responseIdsByCallId, k, w) && CellsTraced(cells, k.0, w)
    ensures QueueTraced(EnrichAll(q, st, cells), w)
  {
    EnrichAllAt(q, st, cells);
    forall e | e in EnrichAll(q, st, cells) ensures Traced(e, w) {
      var i :| 0 <= i < |q| && EnrichAll(q, st, cells)[i] == e;
      assert q[i] in q;
      EnrichTraced(q[i], k, st, cells, w);
    }
  }

  /** A released event is one of the queue with its subsequent response written. */
  lemma {:induction false} ReleasedFrom(q: seq<ToolEvent>, r: ResponseId, e: ToolEvent)
    requires e in Released(q, r)
    ensures exists d :: d in q && e == d.(subsequentResponseId := Some(r))
  {
    var last, init := q[|q| - 1], q[..|q| - 1];
    if e in Released(init, r) {
      ReleasedFrom(init, r, e);
      var d :| d in init && e == d.(subsequentResponseId := Some(r));
      assert d in q;
    } else {
      assert e == last.(subsequentResponseId := Some(r)) && last in q;
    }
  }

  lemma SplitTraced(q: seq<ToolEvent>, r: ResponseId, w: set<Naming>)
    requires QueueTraced(q, w)
    ensures QueueTraced(Released(q, r), w) && QueueTraced(Retained(q, r), w)
  {
    SplitSizes(q, r);
    forall e | e in Released(q, r) ensures Traced(e, w) {
      ReleasedFrom(q, r, e);
      var d :| d in q && e == d.(subsequentResponseId := Some(r));
      assert Traced(d, w);
    }
  }

  // ---- The steps ------------------------------------------------------------------

  lemma {:induction false} AdmitAllTraced(m: map<CallId, ResponseId>, calls: seq<CallId>, r: ResponseId, k: TurnKey, w: set<Naming>)
    requires ResponsesTraced(m, k, w) && forall call :: call in calls ==> (k.0, k.1, r, call) in w
    ensures ResponsesTraced(AdmitAll(m, calls, r), k, w)
  {
    if calls != [] {
      AdmitAllTraced(m, calls[..|calls| - 1], r, k, w);
    }
  }

  lemma BackfillTraced(cells: Cells, responses: map<CallId, ResponseId>, thread: ThreadId, turn: TurnId, w: set<Naming>)
    requires CellsTraced(cells, thread, w) && ResponsesTraced(responses, (thread, turn), w)
    ensures CellsTraced(BackfillAll(cells, responses), thread, w)
  {
    var filled := BackfillAll(cells, responses);
    forall id | id in filled ensures CellTraced(filled[id], thread, w) {
      assert CellTraced(cells[id], thread, w);
      var call := cells[id].parentCallId;
      if call in responses {
        assert (thread, turn, responses[call], call) in w;
      }
    }
  }

  /** What one sampling response makes of its turn and thread is traced to it and to what was there. */
  lemma SampleTraced(k: TurnKey, st: ToolResponseState, cells: Cells, calls: seq<CallId>, r: ResponseId, w: set<Naming>)
    requires GoodQueue(k, st.pendingToolEvents) && StateTraced(st, k, w) && CellsTraced(cells, k.0, w)
    requires forall call :: call in calls ==> (k.0, k.1, r, call) in w
    ensures
      var s := SampleTurn(st, cells, calls, r);
      StateTraced(s.state, k, w) && CellsTraced(s.cells, k.0, w) && QueueTraced(s.out, w)
  {
    var st1 := Answered(st, calls, r);
    AdmitAllTraced(st.responseIdsByCallId, calls, r, k, w);
    var cells1 := BackfillAll(cells, st1.responseIdsByCallId);
    BackfillTraced(cells, st1.responseIdsByCallId, k.0, k.1, w);
    EnrichAllTraced(st1.pendingToolEvents, k, st1, cells1, w);
    SplitTraced(EnrichAll(st1.pendingToolEvents, st1, cells1), r, w);
  }

  lemma SampledTraced(c: Correlator, a: Action, w: set<Naming>)
    requires a.Sampled? && Invariant(c) && Attributed(c, w) && NamedBy(a) <= w
    ensures Attributed(OnSampled(c, a).next, w) && QueueTraced(OnSampled(c, a).out, w)
  {
    var k := (a.thread, a.turn);
    assert GoodState(k, StateAt(c, k)) && StateTraced(StateAt(c, k), k, w) && CellsTraced(CellsOf(c, a.thread), a.thread, w);
    forall call | call in a.calls ensures (a.thread, a.turn, a.response, call) in w {
      assert (a.thread, a.turn, a.response, call) in NamedBy(a);
    }
    SampleTraced(k, StateAt(c, k), CellsOf(c, a.thread), a.calls, a.response, w);
  }

  lemma RecordTraced(c: Correlator, a: Action, w: set<Naming>)
    requires a.Record? && Enabled(c, a) && Attributed(c, w)
    ensures Attributed(OnRecord(c, a).next, w) && QueueTraced(OnRecord(c, a).out, w)
  {
    var k := (a.thread, a.turn);
    var st := StateAt(c, k);
    assert StateTraced(st, k, w) && CellsTraced(CellsOf(c, a.thread), a.thread, w);
    var e := Enrich(a.event.(rootTurn := a.root), st, CellsOf(c, a.thread));
    EnrichTraced(a.event.(rootTurn := a.root), k, st, CellsOf(c, a.thread), w);
    var q := st.pendingToolEvents;
    assert |q| > 0 ==> q[0] in q && forall d :: d in q[1..] ==> d in q;
    var joined := (if |q| == MAX_TOOL_RESPONSE_ENTRIES then q[1..] else q) + [e];
    assert QueueTraced(joined, w);
  }

  lemma CellStartedTraced(c: Correlator, a: Action, w: set<Naming>)
    requires a.CellStarted? && Attributed(c, w)
    ensures Attributed(OnCellStarted(c, a).next, w)
  {
    var k := (a.thread, a.turn);
    var responses := StateAt(c, k).responseIdsByCallId;
    assert ResponsesTraced(responses, k, w) && CellsTraced(CellsOf(c, a.thread), a.thread, w);
    var cell := CodeModeCell(a.call, Lookup(responses, a.call), None);
    if a.call in responses {
      assert (a.thread, a.turn, responses[a.call], a.call) in w;
    }
    assert CellTraced(cell, a.thread, w);
    assert CellsTraced(Admit(CellsOf(c, a.thread), a.cell, cell), a.thread, w);
  }

  lemma {:induction false} DrainedTraced(c: Correlator, order: seq<TurnKey>, w: set<Naming>)
    requires Attributed(c, w)
    ensures QueueTraced(Drained(c, order), w)
  {
    if order != [] {
      DrainedTraced(c, order[..|order| - 1], w);
      var k := order[|order| - 1];
      assert StateTraced(StateAt(c, k), k, w);
    }
  }

  lemma TurnCompletedTraced(c: Correlator, a: Action, w: set<Naming>)
    requires a.TurnCompleted? && Attributed(c, w)
    ensures Attributed(OnTurnCompleted(c, a).next, w) && QueueTraced(OnTurnCompleted(c, a).out, w)
  {
    var k := (a.thread, a.turn);
    assert StateTraced(StateAt(c, k), k, w);
    var cells := CellsOf(c, a.thread);
    assert CellsTraced(cells, a.thread, w);
    assert CellsTraced(OpenCells(cells, a.turn), a.thread, w);
  }

  lemma ChildStartedTraced(c: Correlator, a: Action, w: set<Naming>)
    requires a.ChildStarted? && Attributed(c, w)
    ensures Attributed(OnChildStarted(c, a).next, w)
  {
    assert StateTraced(StateAt(c, (a.thread, a.turn)), (a.thread, a.turn), w);
  }

  lemma CellClosedTraced(c: Correlator, a: Action, w: set<Naming>)
    requires a.CellClosed? && Attributed(c, w)
    ensures Attributed(OnCellClosed(c, a).next, w)
  {
    var cells := CellsOf(c, a.thread);
    assert CellsTraced(cells, a.thread, w);
    if a.cell in cells {
      var cell := cells[a.cell].(closedInTurnId := Some(a.turn));
      assert CellTraced(cells[a.cell], a.thread, w) && CellTraced(cell, a.thread, w);
      assert CellsTraced(cells[a.cell := cell], a.thread, w);
    }
  }

  lemma FlushTraced(c: Correlator, a: Action, w: set<Naming>)
    requires a.Flush? && Attributed(c, w)
    ensures Attributed(OnFlush(c, a).next, w) && QueueTraced(OnFlush(c, a).out, w)
  {
    DrainedTraced(c, a.order, w);
    forall k | k in c.states ensures StateTraced(c.states[k].(pendingToolEvents := []), k, w) {
      assert StateTraced(c.states[k], k, w);
    }
  }

  /** Every step keeps the attribution, its own namings added, and lets out only traced events. */
  lemma StepTraced(c: Correlator, a: Action, w: set<Naming>)
    requires Invariant(c) && Enabled(c, a) && Attributed(c, w) && NamedBy(a) <= w
    ensures Attributed(Apply(c, a).next, w) && QueueTraced(Apply(c, a).out, w)
  {
    match a
    case CellStarted(_, _, _, _) => CellStartedTraced(c, a, w);
    case ChildStarted(_, _, _, _) => ChildStartedTraced(c, a, w);
    case CellClosed(_, _, _) => CellClosedTraced(c, a, w);
    case Sampled(_, _, _, _) => SampledTraced(c, a, w);
    case Record(_, _, _, _, _) => RecordTraced(c, a, w);
    case TurnCompleted(_, _) => TurnCompletedTraced(c, a, w);
    case ThreadClosed(_, order) => DrainedTraced(c, order, w);
    case Flush(_) => FlushTraced(c, a, w);
  }

  /** A sampling response lets out only events of its own turn. */
  lemma SampledOwnTurn(c: Correlator, a: Action, e: ToolEvent)
    requires a.Sampled? && Invariant(c) && e in Apply(c, a).out
    ensures KeyOf(e) == (a.thread, a.turn)
  {
    var k := (a.thread, a.turn);
    var st := StateAt(c, k);
    assert GoodState(k, st);
    var st1 := Answered(st, a.calls, a.response);
    var cells1 := BackfillAll(CellsOf(c, a.thread), st1.responseIdsByCallId);
    EnrichAllGood(k, st1.pendingToolEvents, st1, cells1);
    ReleasedFrom(EnrichAll(st1.pendingToolEvents, st1, cells1), a.response, e);
  }
}
