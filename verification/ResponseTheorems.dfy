/** Attribution the other way round, over whole runs: a tool event whose call was named by a response
    is tied to it, and the next response lets it out. */
module ResponseTheorems {
  import opened Common
  import opened Events
  import opened ThreadLineage
  import opened TurnAssembly
  import opened ReducerModel
  import opened ToolEventTheorems
  import opened NamedCalls
  import opened CorrelatorLaws
  import Corr = ToolCorrelation

  // ---- What a turn was given, told from the messages ------------------------------

  /** The turn is over, or its thread is. */
  predicate EndsTurn(m: Message, k: Corr.TurnKey) {
    (m.TurnCompleted? && (m.thread, m.turn) == k) || (m.ThreadClosed? && m.thread == k.0)
  }

  /** A response of the turn, its thread being in context. */
  predicate Responds(s: State, m: Message, k: Corr.TurnKey) {
    m.SamplingResponseCompleted? && (m.thread, m.turn) == k && HasContext(s.lineage, m.thread)
  }

  /** A call is started in a live cell. */
  predicate StartsInCell(s: State, m: Message, k: Corr.TurnKey) {
    && m.ChildStarted? && (m.thread, m.turn) == k && HasContext(s.lineage, m.thread)
    && m.cell in Corr.CellsOf(s.correlator, m.thread)
  }

  /** The calls named by the responses of the turn since it last ended, in order. */
  function Namings(ms: seq<Message>, k: Corr.TurnKey): seq<Pair> {
    if ms == [] then [] else
      var init, m := ms[..|ms| - 1], ms[|ms| - 1];
      if EndsTurn(m, k) then []
      else if Responds(Run(INITIAL, init).state, m, k) then Namings(init, k) + Names(m.calls, m.response)
      else Namings(init, k)
  }

  /** The calls started in live cells in the turn since it last ended, in order. */
  function Children(ms: seq<Message>, k: Corr.TurnKey): seq<Pair> {
    if ms == [] then [] else
      var init, m := ms[..|ms| - 1], ms[|ms| - 1];
      if EndsTurn(m, k) then []
      else if StartsInCell(Run(INITIAL, init).state, m, k) then Children(init, k) + [(m.call, m.cell)]
      else Children(init, k)
  }

  lemma ActionGives(s: State, m: Message, k: Corr.TurnKey, p: seq<Pair>, h: seq<Pair>)
    ensures
      var a := CorrelatorAction(s, m);
      && (if a.Some? then NamingsAfter(p, a.value, k) else p) ==
         (if EndsTurn(m, k) then [] else if Responds(s, m, k) then p + Names(m.calls, m.response) else p)
      && (if a.Some? then ChildrenAfter(s.correlator, h, a.value, k) else h) ==
         (if EndsTurn(m, k) then [] else if StartsInCell(s, m, k) then h + [(m.call, m.cell)] else h)
  {
  }

  lemma NextFits(s: State, m: Message, k: Corr.TurnKey, p: seq<Pair>, h: seq<Pair>)
    requires TurnFits(Corr.StateAt(s.correlator, k), p, h)
    ensures
      var a := CorrelatorAction(s, m);
      TurnFits(Corr.StateAt(CorrelatorNext(s, m).next, k), if a.Some? then NamingsAfter(p, a.value, k) else p,
               if a.Some? then ChildrenAfter(s.correlator, h, a.value, k) else h)
  {
    var a := CorrelatorAction(s, m);
    if a.Some? {
      StepFits(s.correlator, a.value, k, p, h);
    }
  }

  /** In every reachable state the tables of a turn answer what its messages since it last ended say,
      and every waiting event whose call was named is tied to the last response that named it. */
  lemma {:induction false} TablesTellHistory(ms: seq<Message>, k: Corr.TurnKey)
    ensures TurnFits(Corr.StateAt(Run(INITIAL, ms).state.correlator, k), Namings(ms, k), Children(ms, k))
  {
    if ms == [] {
      EmptyFits();
    } else {
      var init, m := ms[..|ms| - 1], ms[|ms| - 1];
      TablesTellHistory(init, k);
      NextFits(Run(INITIAL, init).state, m, k, Namings(init, k), Children(init, k));
      ActionGives(Run(INITIAL, init).state, m, k, Namings(init, k), Children(init, k));
    }
  }

  /** A waiting event whose call is among the calls of any response of its turn since the turn last
      ended is tied to the last such response, as long as those name at most 256 different calls. */
  lemma NamedCallIsTied(ms: seq<Message>, k: Corr.TurnKey, e: ToolEvent)
    requires e in Corr.Pending(Run(INITIAL, ms).state.correlator, k)
    requires |CallsIn(Namings(ms, k))| <= Corr.MAX_TOOL_RESPONSE_ENTRIES && e.itemId in CallsIn(Namings(ms, k))
    ensures e.originatingResponseId == LastFor(Namings(ms, k), e.itemId)
  {
    TablesTellHistory(ms, k);
    FewAreAllEarly(Namings(ms, k), e.itemId);
  }

  // ---- The next response ----------------------------------------------------------

  lemma RespondsIs(s: State, m: Message, k: Corr.TurnKey)
    requires Responds(s, m, k)
    ensures CorrelatorNext(s, m) == Corr.Apply(s.correlator, Corr.Sampled(m.thread, m.turn, m.response, m.calls))
  {
  }

  lemma SampledIs(c: Corr.Correlator, a: Corr.Action)
    requires a.Sampled?
    ensures
      var k := (a.thread, a.turn);
      var x, o := Corr.SampleTurn(Corr.StateAt(c, k), Corr.CellsOf(c, a.thread), a.calls, a.response), Corr.Apply(c, a);
      o.out == x.out && Corr.Pending(o.next, k) == x.state.pendingToolEvents && Corr.CellsOf(o.next, a.thread) == x.cells
  {
  }

  /** What becomes of an event waiting in a turn when the next response of the turn arrives: attributed
      by everything named up to and including this response, it is emitted with this response as its
      subsequent one exactly if it is tied to another response, and waits on otherwise. */
  lemma ResponseDecides(ms: seq<Message>, m: Message, k: Corr.TurnKey, e: ToolEvent) returns (d: ToolEvent)
    requires Responds(Run(INITIAL, ms).state, m, k) && e in Corr.Pending(Run(INITIAL, ms).state.correlator, k)
    ensures
      var o := CorrelatorNext(Run(INITIAL, ms).state, m);
      && Attributes(e, d, Namings(ms, k) + Names(m.calls, m.response), Children(ms, k), Corr.CellsOf(o.next, k.0))
      && if d.originatingResponseId.Some? && d.originatingResponseId.value != m.response
         then d.(subsequentResponseId := Some(m.response)) in o.out else d in Corr.Pending(o.next, k)
  {
    var c := Run(INITIAL, ms).state.correlator;
    TablesTellHistory(ms, k);
    RespondsIs(Run(INITIAL, ms).state, m, k);
    SampledIs(c, Corr.Sampled(m.thread, m.turn, m.response, m.calls));
    d := SampleFate(Corr.StateAt(c, k), Corr.CellsOf(c, m.thread), m.calls, m.response, Namings(ms, k), Children(ms, k), e);
  }

  /** A waiting event whose call was last named by another response is emitted by the next one, tied to
      the response that named it and with the next one as its subsequent response. */
  lemma NamedCallIsReleased(ms: seq<Message>, m: Message, k: Corr.TurnKey, e: ToolEvent, r: ResponseId) returns (d: ToolEvent)
    requires Responds(Run(INITIAL, ms).state, m, k) && e in Corr.Pending(Run(INITIAL, ms).state.correlator, k)
    requires Named(Namings(ms, k) + Names(m.calls, m.response), e.itemId) == Some(r) && r != m.response
    ensures d in CorrelatorNext(Run(INITIAL, ms).state, m).out && Identity(d) == Identity(e)
    ensures d.originatingResponseId == Some(r) && d.subsequentResponseId == Some(m.response)
  {
    var w := ResponseDecides(ms, m, k, e);
    AttributedToNamed(e, w, Namings(ms, k) + Names(m.calls, m.response), Children(ms, k),
                      Corr.CellsOf(CorrelatorNext(Run(INITIAL, ms).state, m).next, k.0));
    d := w.(subsequentResponseId := Some(m.response));
  }

  lemma AttributedToNamed(e: ToolEvent, d: ToolEvent, p: seq<Pair>, h: seq<Pair>, cells: Corr.Cells)
    requires Attributes(e, d, p, h, cells) && Named(p, e.itemId).Some?
    ensures d.originatingResponseId == Named(p, e.itemId)
  {
    if id: CellId :| InCell(e, h, cells, id) {
    }
  }

  /** The cell-parent case: an event whose own call was not named, but which belongs to a live cell
      whose parent call was named by another response, is emitted tied to that response. */
  lemma ParentIsReleased(ms: seq<Message>, m: Message, k: Corr.TurnKey, e: ToolEvent, id: CellId, r: ResponseId) returns (d: ToolEvent)
    requires Responds(Run(INITIAL, ms).state, m, k) && e in Corr.Pending(Run(INITIAL, ms).state.correlator, k)
    requires
      var cells := Corr.CellsOf(Run(INITIAL, ms).state.correlator, k.0);
      var p := Namings(ms, k) + Names(m.calls, m.response);
      && InCell(e, Children(ms, k), cells, id) && Named(p, e.itemId).None?
      && OrElse(cells[id].originatingResponseId, Named(p, cells[id].parentCallId)) == Some(r) && r != m.response
    ensures d in CorrelatorNext(Run(INITIAL, ms).state, m).out && Identity(d) == Identity(e) && d.cellId == Some(id)
    ensures d.originatingResponseId == Some(r) && d.subsequentResponseId == Some(m.response)
    ensures
      var parent := Corr.CellsOf(Run(INITIAL, ms).state.correlator, k.0)[id].parentCallId;
      d.parentCallId == if parent != e.itemId then Some(parent) else None
  {
    var c := Run(INITIAL, ms).state.correlator;
    TablesTellHistory(ms, k);
    RespondsIs(Run(INITIAL, ms).state, m, k);
    SampledIs(c, Corr.Sampled(m.thread, m.turn, m.response, m.calls));
    SampleCells(Corr.StateAt(c, k), Corr.CellsOf(c, m.thread), m.calls, m.response, Namings(ms, k));
    var w := ResponseDecides(ms, m, k, e);
    var after := Corr.CellsOf(CorrelatorNext(Run(INITIAL, ms).state, m).next, k.0);
    assert InCell(e, Children(ms, k), after, id);
    d := w.(subsequentResponseId := Some(m.response));
  }

  // ---- A recorded event -----------------------------------------------------------

  /** The events that wait for a response even if nothing is known of theirs yet. */
  predicate Waits(m: Message) {
    m.CodeModeCompleted? || m.ControlToolCalled? || (m.ItemCompleted? && m.item.kind.CollabItem?)
  }

  lemma RecordingIs(s: State, m: Message)
    requires RecordedBy(s, m) != []
    ensures
      var a := CorrelatorAction(s, m);
      && a.Some? && a.value.Record? && (a.value.thread, a.value.turn) == KeyOf(RecordedBy(s, m)[0])
      && RecordedBy(s, m) == [a.value.event.(rootTurn := a.value.root)]
      && (a.value.emission.ImmediateUnlessCorrelated? <==> !Waits(m))
      && CorrelatorNext(s, m) == Corr.Apply(s.correlator, a.value)
  {
  }

  /** What becomes of a recorded event: attributed by everything named so far, it is emitted at once
      exactly if its kind need not wait and it has neither cell nor response; otherwise it joins the
      queue of its turn, from which only the oldest event is emitted, if it is full. */
  lemma RecordingDecides(ms: seq<Message>, m: Message) returns (d: ToolEvent)
    requires RecordedBy(Run(INITIAL, ms).state, m) != []
    ensures
      var s := Run(INITIAL, ms).state;
      var e := RecordedBy(s, m)[0];
      var k, o := KeyOf(e), CorrelatorNext(s, m);
      var q := Corr.Pending(s.correlator, k);
      && Attributes(e, d, Namings(ms, k), Children(ms, k), Corr.CellsOf(s.correlator, k.0))
      && if !Waits(m) && d.cellId.None? && d.originatingResponseId.None? then o.out == [d] && Corr.Pending(o.next, k) == q
         else if |q| == Corr.MAX_TOOL_RESPONSE_ENTRIES then o.out == [q[0]] && Corr.Pending(o.next, k) == q[1..] + [d]
         else o.out == [] && Corr.Pending(o.next, k) == q + [d]
  {
    var s := Run(INITIAL, ms).state;
    RecordingIs(s, m);
    var k := KeyOf(RecordedBy(s, m)[0]);
    TablesTellHistory(ms, k);
    d := RecordFate(s.correlator, CorrelatorAction(s, m).value, Namings(ms, k), Children(ms, k));
  }

  // ---- Which cells live -----------------------------------------------------------

  /** What message `m` makes of cell `id` of a thread: a start in context admits it while fewer than
      256 live, with the response that named its call; a close in context marks it with the turn; a
      response in context tells it the response behind it if it has none; the end of a turn forgets
      the cells closed in it; the end of the thread forgets all. */
  ghost predicate CellTold(ms: seq<Message>, m: Message, thread: ThreadId, id: CellId, after: Option<Corr.CodeModeCell>) {
    var s := Run(INITIAL, ms).state;
    var before := Corr.CellsOf(s.correlator, thread);
    var cell := Lookup(before, id);
    match m
    case CellStarted(t, turn, call, started) =>
      after == if && t == thread && started == id && HasContext(s.lineage, t)
                  && (id in before || |before| < Corr.MAX_TOOL_RESPONSE_ENTRIES)
               then Some(Corr.CodeModeCell(call, Named(Namings(ms, (t, turn)), call), None)) else cell
    case CellClosed(t, turn, closed) =>
      after == if t == thread && closed == id && HasContext(s.lineage, t) && cell.Some?
               then Some(cell.value.(closedInTurnId := Some(turn))) else cell
    case SamplingResponseCompleted(t, turn, response, calls) =>
      after == if t == thread && HasContext(s.lineage, t) && cell.Some?
               then Some(cell.value.(originatingResponseId :=
                      OrElse(cell.value.originatingResponseId,
                             Named(Namings(ms, (t, turn)) + Names(calls, response), cell.value.parentCallId))))
               else cell
    case TurnCompleted(t, turn, _) =>
      after == if t == thread && cell.Some? && cell.value.closedInTurnId == Some(turn) then None else cell
    case ThreadClosed(t, _) => after == if t == thread then None else cell
    case _ => after == cell
  }

  lemma ActionTellsCells(ms: seq<Message>, s: State, m: Message, thread: ThreadId, p: seq<Pair>, id: CellId, after: Option<Corr.CodeModeCell>)
    requires s == Run(INITIAL, ms).state
    requires m.CellStarted? || m.SamplingResponseCompleted? ==> p == Namings(ms, (m.thread, m.turn))
    requires
      var a := CorrelatorAction(s, m);
      if a.Some? then CellStep(Corr.CellsOf(s.correlator, thread), a.value, thread, p, id, after)
      else after == Lookup(Corr.CellsOf(s.correlator, thread), id)
    ensures CellTold(ms, m, thread, id, after)
  {
  }

  /** In every run each message changes the cells of a thread exactly as told. */
  lemma CellsTellHistory(ms: seq<Message>, m: Message, thread: ThreadId, id: CellId)
    ensures CellTold(ms, m, thread, id, Lookup(Corr.CellsOf(CorrelatorNext(Run(INITIAL, ms).state, m).next, thread), id))
  {
    var s := Run(INITIAL, ms).state;
    var a := CorrelatorAction(s, m);
    var p := if m.CellStarted? || m.SamplingResponseCompleted? then Namings(ms, (m.thread, m.turn)) else [];
    if m.CellStarted? || m.SamplingResponseCompleted? {
      TablesTellHistory(ms, (m.thread, m.turn));
    }
    if a.Some? {
      ActionKey(s, m);
      StepCells(s.correlator, a.value, thread, p, id);
    }
    ActionTellsCells(ms, s, m, thread, p, id, Lookup(Corr.CellsOf(CorrelatorNext(s, m).next, thread), id));
  }

  lemma ActionKey(s: State, m: Message)
    requires CorrelatorAction(s, m).Some?
    ensures
      var a := CorrelatorAction(s, m).value;
      a.CellStarted? || a.Sampled? ==>
        (m.CellStarted? || m.SamplingResponseCompleted?) && (a.thread, a.turn) == (m.thread, m.turn)
  {
  }

  // ---- Queues that are handed over ------------------------------------------------

  function Queues(c: Corr.Correlator, order: seq<Corr.TurnKey>): seq<seq<ToolEvent>> {
    seq(|order|, i requires 0 <= i < |order| => Corr.Pending(c, order[i]))
  }

  lemma {:induction false} DrainedIsFlat(c: Corr.Correlator, order: seq<Corr.TurnKey>)
    ensures Corr.Drained(c, order) == Flatten(Queues(c, order))
  {
    if order != [] {
      DrainedIsFlat(c, order[..|order| - 1]);
      assert Queues(c, order)[..|order| - 1] == Queues(c, order[..|order| - 1]);
    }
  }

  lemma ClosingDrains(s: State, m: Message)
    requires m.ThreadClosed? || m.Flush?
    ensures CorrelatorNext(s, m).out == Corr.Drained(s.correlator, m.order)
  {
  }

  lemma EndingDrains(s: State, m: Message)
    requires m.TurnCompleted?
    ensures CorrelatorNext(s, m).out == Corr.Pending(s.correlator, (m.thread, m.turn))
  {
  }

  /** The end of a turn hands over its queue as it is; the end of a thread and a flush hand over whole
      queues one after the other. */
  lemma HandedOverInOrder(s: State, m: Message)
    requires m.TurnCompleted? || m.ThreadClosed? || m.Flush?
    ensures m.TurnCompleted? ==> CorrelatorNext(s, m).out == Corr.Pending(s.correlator, (m.thread, m.turn))
    ensures !m.TurnCompleted? ==> CorrelatorNext(s, m).out == Flatten(Queues(s.correlator, m.order))
  {
    if m.TurnCompleted? {
      EndingDrains(s, m);
    } else {
      ClosingDrains(s, m);
      DrainedIsFlat(s.correlator, m.order);
    }
  }
}
