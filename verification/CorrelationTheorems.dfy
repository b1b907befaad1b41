/** What the correlator guarantees: no tool event is lost or duplicated, the
    response ids it attaches are sound, a sampling response splits a queue as a
    stable partition, and a completion commutes with the response that names it. */
module CorrelationTheorems {
  import opened Common
  import opened Events
  import opened ToolCorrelation

  // ---- Conservation ---------------------------------------------------------------

  /** How many events of `q` are `x` up to their correlation fields. */
  function Count(q: seq<ToolEvent>, x: ToolEvent): nat {
    if q == [] then 0 else Count(q[..|q| - 1], x) + if Identity(q[|q| - 1]) == x then 1 else 0
  }

  lemma {:induction false} CountConcat(a: seq<ToolEvent>, b: seq<ToolEvent>, x: ToolEvent)
    ensures Count(a + b, x) == Count(a, x) + Count(b, x)
  {
    if b == [] {
      assert a + b == a;
    } else {
      assert (a + b)[..|a + b| - 1] == a + b[..|b| - 1];
      CountConcat(a, b[..|b| - 1], x);
    }
  }

  lemma CountSnoc(q: seq<ToolEvent>, e: ToolEvent, x: ToolEvent)
    ensures Count(q + [e], x) == Count(q, x) + Count([e], x)
    ensures Count([e], x) == if Identity(e) == x then 1 else 0
  {
    assert (q + [e])[..|q|] == q;
    assert [e][..0] == [];
  }

  /** A queue whose events all belong to another turn holds no copy of `x`. */
  lemma {:induction false} CountForeign(k: TurnKey, q: seq<ToolEvent>, x: ToolEvent)
    requires GoodQueue(k, q) && KeyOf(x) != k
    ensures Count(q, x) == 0
  {
    if q != [] {
      assert q[|q| - 1] in q;
      assert forall e :: e in q[..|q| - 1] ==> e in q;
      CountForeign(k, q[..|q| - 1], x);
    }
  }

  lemma {:induction false} CountEnrichAll(q: seq<ToolEvent>, st: ToolResponseState, cells: Cells, x: ToolEvent)
    ensures Count(EnrichAll(q, st, cells), x) == Count(q, x)
  {
    if q != [] {
      var init := EnrichAll(q[..|q| - 1], st, cells);
      var last := Enrich(q[|q| - 1], st, cells);
      CountEnrichAll(q[..|q| - 1], st, cells, x);
      CountSnoc(init, last, x);
      assert Identity(last) == Identity(q[|q| - 1]);
    }
  }

  lemma {:induction false} CountSplit(q: seq<ToolEvent>, r: ResponseId, x: ToolEvent)
    ensures Count(Released(q, r), x) + Count(Retained(q, r), x) == Count(q, x)
  {
    if q != [] {
      var e, init := q[|q| - 1], q[..|q| - 1];
      CountSplit(init, r, x);
      if Follows(e, r) {
        CountSnoc(Released(init, r), e.(subsequentResponseId := Some(r)), x);
        assert Retained(q, r) == Retained(init, r);
      } else {
        CountSnoc(Retained(init, r), e, x);
        assert Released(q, r) == Released(init, r);
      }
    }
  }

  /** Draining distinct keys yields the copies of `x` in its own queue, if that key is drained. */
  lemma {:induction false} CountDrained(c: Correlator, order: seq<TurnKey>, x: ToolEvent)
    requires Invariant(c)
    requires forall i :: 0 <= i < |order| ==> order[i] in c.states
    requires forall i, j :: 0 <= i < j < |order| ==> order[i] != order[j]
    ensures Count(Drained(c, order), x) == if KeyOf(x) in order then Count(Pending(c, KeyOf(x)), x) else 0
  {
    if order != [] {
      var init, last := order[..|order| - 1], order[|order| - 1];
      assert order == init + [last];
      CountDrained(c, init, x);
      CountConcat(Drained(c, init), Pending(c, last), x);
      assert GoodState(last, c.states[last]);
      if last != KeyOf(x) {
        CountForeign(last, Pending(c, last), x);
      }
    }
  }

  /** The event a step hands over to the correlator. */
  function Given(a: Action): seq<ToolEvent> {
    if a.Record? then [a.event.(rootTurn := a.root)] else []
  }

  ghost predicate Conserves(c: Correlator, a: Action, x: ToolEvent) {
    var o := Apply(c, a);
    Count(Given(a), x) + Count(Pending(c, KeyOf(x)), x) == Count(o.out, x) + Count(Pending(o.next, KeyOf(x)), x)
  }

  lemma SampledConserves(c: Correlator, a: Action, x: ToolEvent)
    requires a.Sampled? && Invariant(c)
    ensures Conserves(c, a, x)
  {
    var k := (a.thread, a.turn);
    var st := Answered(StateAt(c, k), a.calls, a.response);
    var cells := BackfillAll(CellsOf(c, a.thread), st.responseIdsByCallId);
    var queue := EnrichAll(st.pendingToolEvents, st, cells);
    CountEnrichAll(st.pendingToolEvents, st, cells, x);
    CountSplit(queue, a.response, x);
    if KeyOf(x) != k {
      assert GoodState(k, StateAt(c, k));
      CountForeign(k, st.pendingToolEvents, x);
    }
  }

  /** The three ways a recorded event can go: straight out, in after the oldest, or in. */
  predicate Moves(q: seq<ToolEvent>, e: ToolEvent, out: seq<ToolEvent>, q': seq<ToolEvent>) {
    || (out == [e] && q' == q)
    || (q != [] && out == [q[0]] && q' == q[1..] + [e])
    || (out == [] && q' == q + [e])
  }

  lemma CountMoves(q: seq<ToolEvent>, e: ToolEvent, out: seq<ToolEvent>, q': seq<ToolEvent>, x: ToolEvent)
    requires Moves(q, e, out, q')
    ensures Count([e], x) + Count(q, x) == Count(out, x) + Count(q', x)
  {
    CountSnoc(q, e, x);
    if q != [] && q' == q[1..] + [e] {
      assert q == [q[0]] + q[1..];
      CountConcat([q[0]], q[1..], x);
      CountSnoc(q[1..], e, x);
    }
  }

  lemma RecordMoves(c: Correlator, a: Action)
    requires a.Record? && Enabled(c, a)
    ensures
      var k := (a.thread, a.turn);
      var e := Enrich(Given(a)[0], StateAt(c, k), CellsOf(c, a.thread));
      var o := Apply(c, a);
      && Identity(e) == Identity(Given(a)[0]) && KeyOf(e) == k
      && Moves(Pending(c, k), e, o.out, Pending(o.next, k))
      && forall k' :: k' != k ==> Pending(o.next, k') == Pending(c, k')
  {
  }

  lemma RecordConserves(c: Correlator, a: Action, x: ToolEvent)
    requires a.Record? && Invariant(c) && Enabled(c, a)
    ensures Conserves(c, a, x)
  {
    var k := (a.thread, a.turn);
    var e := Enrich(Given(a)[0], StateAt(c, k), CellsOf(c, a.thread));
    var o := Apply(c, a);
    RecordMoves(c, a);
    CountSnoc([], e, x);
    CountSnoc([], Given(a)[0], x);
    CountMoves(Pending(c, k), e, o.out, Pending(o.next, k), x);
    if KeyOf(x) != k {
      assert GoodState(k, StateAt(c, k));
      RecordInvariant(c, a);
      assert GoodState(k, StateAt(o.next, k));
      CountForeign(k, Pending(c, k), x);
      CountForeign(k, Pending(o.next, k), x);
    }
  }

  lemma ThreadClosedConserves(c: Correlator, a: Action, x: ToolEvent)
    requires a.ThreadClosed? && Invariant(c) && Enabled(c, a)
    ensures Conserves(c, a, x)
  {
    forall i | 0 <= i < |a.order| ensures a.order[i] in c.states {
      assert a.order[i] in a.order;
    }
    CountDrained(c, a.order, x);
  }

  lemma FlushConserves(c: Correlator, a: Action, x: ToolEvent)
    requires a.Flush? && Invariant(c) && Enabled(c, a)
    ensures Conserves(c, a, x)
  {
    forall i | 0 <= i < |a.order| ensures a.order[i] in c.states {
      assert a.order[i] in a.order;
    }
    CountDrained(c, a.order, x);
  }

  lemma TurnCompletedConserves(c: Correlator, a: Action, x: ToolEvent)
    requires a.TurnCompleted? && Invariant(c)
    ensures Conserves(c, a, x)
  {
    var k := (a.thread, a.turn);
    assert GoodState(k, StateAt(c, k));
    if KeyOf(x) != k {
      CountForeign(k, Pending(c, k), x);
    }
  }

  /** No step loses, duplicates or alters a tool event: for every event `x`, what comes in
      plus what was waiting is what goes out plus what still waits. */
  lemma StepConserves(c: Correlator, a: Action, x: ToolEvent)
    requires Invariant(c) && Enabled(c, a)
    ensures Conserves(c, a, x)
  {
    match a
    case Sampled(_, _, _, _) => SampledConserves(c, a, x);
    case Record(_, _, _, _, _) => RecordConserves(c, a, x);
    case ThreadClosed(_, _) => ThreadClosedConserves(c, a, x);
    case Flush(_) => FlushConserves(c, a, x);
    case TurnCompleted(_, _) => TurnCompletedConserves(c, a, x);
    case CellStarted(_, _, _, _) =>
    case ChildStarted(_, _, _, _) =>
    case CellClosed(_, _, _) =>
  }

  // ---- Soundness of the attached response ids -------------------------------------

  /** A subsequent response is only ever attached next to a different originating one. */
  predicate Sound(e: ToolEvent) {
    e.subsequentResponseId.Some? ==>
      e.originatingResponseId.Some? && e.originatingResponseId != e.subsequentResponseId
  }

  lemma {:induction false} DrainedUntagged(c: Correlator, order: seq<TurnKey>)
    requires Invariant(c)
    ensures forall e :: e in Drained(c, order) ==> e.subsequentResponseId.None?
  {
    if order != [] {
      DrainedUntagged(c, order[..|order| - 1]);
      var k := order[|order| - 1];
      assert GoodState(k, StateAt(c, k));
    }
  }

  /** Only a sampling response attaches a subsequent response, its own, and only to events it
      follows; evicted, flushed and immediate events carry none. */
  lemma StepSound(c: Correlator, a: Action)
    requires Invariant(c) && Enabled(c, a)
    ensures forall e :: e in Apply(c, a).out ==>
              Sound(e) && e.subsequentResponseId == if a.Sampled? then Some(a.response) else None
  {
    match a
    case Sampled(thread, turn, response, calls) =>
      var k := (thread, turn);
      var st := Answered(StateAt(c, k), calls, response);
      SplitSizes(EnrichAll(st.pendingToolEvents, st, BackfillAll(CellsOf(c, thread), st.responseIdsByCallId)), response);
    case Record(thread, turn, _, _, _) =>
      assert GoodState((thread, turn), StateAt(c, (thread, turn)));
    case TurnCompleted(thread, turn) =>
      assert GoodState((thread, turn), StateAt(c, (thread, turn)));
    case ThreadClosed(_, order) => DrainedUntagged(c, order);
    case Flush(order) => DrainedUntagged(c, order);
    case CellStarted(_, _, _, _) =>
    case ChildStarted(_, _, _, _) =>
    case CellClosed(_, _, _) =>
  }

  /** After a sampling response, an event still queued for that turn either is not tied to any
      response or is tied to this very one. */
  lemma SampledLeavesOwn(c: Correlator, a: Action, e: ToolEvent)
    requires a.Sampled?
    requires e in Pending(Apply(c, a).next, (a.thread, a.turn))
    ensures e.originatingResponseId == None || e.originatingResponseId == Some(a.response)
  {
    var st := Answered(StateAt(c, (a.thread, a.turn)), a.calls, a.response);
    SplitSizes(EnrichAll(st.pendingToolEvents, st, BackfillAll(CellsOf(c, a.thread), st.responseIdsByCallId)), a.response);
  }

  // ---- A sampling response is a stable partition ----------------------------------

  /** `q` is an interleaving of `a` and `b`: each keeps its own order. */
  ghost predicate Interleaves(a: seq<ToolEvent>, b: seq<ToolEvent>, q: seq<ToolEvent>)
    decreases |q|
  {
    if q == [] then a == [] && b == [] else
      || (a != [] && a[|a| - 1] == q[|q| - 1] && Interleaves(a[..|a| - 1], b, q[..|q| - 1]))
      || (b != [] && b[|b| - 1] == q[|q| - 1] && Interleaves(a, b[..|b| - 1], q[..|q| - 1]))
  }

  /** The released events as they stood in the queue, before the response was attached. */
  function Untagged(q: seq<ToolEvent>): seq<ToolEvent> {
    if q == [] then [] else Untagged(q[..|q| - 1]) + [q[|q| - 1].(subsequentResponseId := None)]
  }

  lemma {:induction false} SplitIsStable(k: TurnKey, q: seq<ToolEvent>, r: ResponseId)
    requires GoodQueue(k, q)
    ensures Interleaves(Untagged(Released(q, r)), Retained(q, r), q)
  {
    if q != [] {
      var e, init := q[|q| - 1], q[..|q| - 1];
      assert e in q && forall d :: d in init ==> d in q;
      SplitIsStable(k, init, r);
      if Follows(e, r) {
        var a := Released(init, r);
        var tagged := e.(subsequentResponseId := Some(r));
        assert (a + [tagged])[..|a + [tagged]| - 1] == a;
        assert Untagged(a + [tagged]) == Untagged(a) + [e];
        assert (Untagged(a) + [e])[..|Untagged(a) + [e]| - 1] == Untagged(a);
        assert Retained(init, r) + [] == Retained(init, r);
      } else {
        var b := Retained(init, r);
        assert (b + [e])[..|b + [e]| - 1] == b;
        assert Released(init, r) + [] == Released(init, r);
      }
    }
  }

  /** `released` and `kept` are what `q` holds, each in queue order, told apart by whether the
      response follows the one the event is tied to. */
  ghost predicate StablePartition(released: seq<ToolEvent>, kept: seq<ToolEvent>, q: seq<ToolEvent>, r: ResponseId) {
    && Interleaves(Untagged(released), kept, q)
    && (forall e :: e in released ==> Follows(e, r) && e.subsequentResponseId == Some(r))
    && (forall e :: e in kept ==> !Follows(e, r))
  }

  lemma SplitIsPartition(k: TurnKey, q: seq<ToolEvent>, r: ResponseId)
    requires GoodQueue(k, q)
    ensures StablePartition(Released(q, r), Retained(q, r), q, r)
  {
    SplitIsStable(k, q, r);
    SplitSizes(q, r);
  }

  lemma TurnIsPartition(k: TurnKey, st: ToolResponseState, cells: Cells, calls: seq<CallId>, r: ResponseId)
    requires GoodQueue(k, st.pendingToolEvents)
    ensures
      var s := SampleTurn(st, cells, calls, r);
      StablePartition(s.out, s.state.pendingToolEvents, EnrichAll(st.pendingToolEvents, Answered(st, calls, r), s.cells), r)
  {
    var st1 := Answered(st, calls, r);
    var cells1 := BackfillAll(cells, st1.responseIdsByCallId);
    EnrichAllGood(k, st1.pendingToolEvents, st1, cells1);
    SplitIsPartition(k, EnrichAll(st1.pendingToolEvents, st1, cells1), r);
  }

  /** One sampling response splits the turn's queue, enriched event by event, into the events it
      releases, all tied to an earlier response, and the rest, both in queue order. */
  lemma SampledIsStablePartition(c: Correlator, a: Action)
    requires a.Sampled? && Invariant(c)
    ensures
      var k := (a.thread, a.turn);
      var o := Apply(c, a);
      var st := Answered(StateAt(c, k), a.calls, a.response);
      var enriched := EnrichAll(Pending(c, k), st, CellsOf(o.next, a.thread));
      && StablePartition(o.out, Pending(o.next, k), enriched, a.response)
      && |enriched| == |Pending(c, k)|
      && (forall i :: 0 <= i < |enriched| ==> enriched[i] == Enrich(Pending(c, k)[i], st, CellsOf(o.next, a.thread)))
  {
    var k := (a.thread, a.turn);
    var st := StateAt(c, k);
    assert GoodState(k, st);
    TurnIsPartition(k, st, CellsOf(c, a.thread), a.calls, a.response);
    var s := SampleTurn(st, CellsOf(c, a.thread), a.calls, a.response);
    EnrichAllAt(st.pendingToolEvents, Answered(st, a.calls, a.response), s.cells);
    assert CellsOf(Apply(c, a).next, a.thread) == s.cells;
  }

  /** Recording: an event that need not wait leaves at once and the queue stays as it is; any other
      joins the end of its turn's queue, enriched, and a full queue gives up its oldest event for it
      and nothing else. */
  lemma RecordEvictsOldest(c: Correlator, a: Action)
    requires a.Record? && Invariant(c)
    ensures
      var k := (a.thread, a.turn);
      var before, o := Pending(c, k), Apply(c, a);
      var after := Pending(o.next, k);
      var e := Enrich(a.event.(rootTurn := a.root), StateAt(c, k), CellsOf(c, a.thread));
      if a.emission.ImmediateUnlessCorrelated? && e.cellId.None? && e.originatingResponseId.None?
      then o.out == [e] && after == before
      else
        && |after| > 0 && after[|after| - 1] == e
        && o.out + after[..|after| - 1] == before
        && |o.out| == if |before| == MAX_TOOL_RESPONSE_ENTRIES then 1 else 0
  {
    var q := Pending(c, (a.thread, a.turn));
    if |q| == MAX_TOOL_RESPONSE_ENTRIES {
      assert [q[0]] + q[1..] == q;
    } else {
      assert [] + q == q;
    }
  }

  // ---- A completion races the response that names it ------------------------------

  /** The cell named by the event is unknown only if no live cell would be found for its call
      instead: a caller can tell before either of the two facts is ingested. */
  predicate Settled(e: ToolEvent, st: ToolResponseState, cells: Cells) {
    || e.cellId.None?
    || e.cellId.value in cells
    || e.itemId !in st.cellIdsByChildCallId
    || st.cellIdsByChildCallId[e.itemId] !in cells
  }

  /** Enriching early and again after the response equals enriching once after it, exactly for
      settled events. */
  lemma EnrichTwice(e: ToolEvent, st: ToolResponseState, cells: Cells, st1: ToolResponseState, cells1: Cells)
    requires st1.cellIdsByChildCallId == st.cellIdsByChildCallId && cells1.Keys == cells.Keys
    ensures Enrich(Enrich(e, st, cells), st1, cells1) == Enrich(e, st1, cells1) <==> Settled(e, st, cells)
  {
    var early := Enrich(e, st, cells);
    if Settled(e, st, cells) {
      assert EventCell(early, st1, cells1) == EventCell(e, st1, cells1);
    } else {
      assert EventCell(early, st1, cells1).Some? && EventCell(e, st1, cells1).None?;
    }
  }

  /** The response names the event's call and the call is admitted to the response map. */
  predicate Named(st: ToolResponseState, s: Action, e: ToolEvent)
    requires s.Sampled?
  {
    && e.itemId in s.calls
    && Lookup(AdmitAll(st.responseIdsByCallId, s.calls, s.response), e.itemId) == Some(s.response)
  }

  /** Enriching reads only the two lookup maps of a turn's state. */
  lemma {:induction false} EnrichAllIgnoresQueue(q: seq<ToolEvent>, a: ToolResponseState, b: ToolResponseState, cells: Cells)
    requires a.responseIdsByCallId == b.responseIdsByCallId && a.cellIdsByChildCallId == b.cellIdsByChildCallId
    ensures EnrichAll(q, a, cells) == EnrichAll(q, b, cells)
  {
    if q != [] {
      EnrichAllIgnoresQueue(q[..|q| - 1], a, b, cells);
    }
  }

  lemma EnrichAllSnoc(q: seq<ToolEvent>, e: ToolEvent, st: ToolResponseState, cells: Cells)
    ensures EnrichAll(q + [e], st, cells) == EnrichAll(q, st, cells) + [Enrich(e, st, cells)]
  {
    assert (q + [e])[..|q|] == q;
  }

  lemma SplitSnoc(q: seq<ToolEvent>, e: ToolEvent, r: ResponseId)
    requires !Follows(e, r)
    ensures Released(q + [e], r) == Released(q, r) && Retained(q + [e], r) == Retained(q, r) + [e]
  {
    assert (q + [e])[..|q|] == q;
  }

  /** An awaited event joins a queue that has room. */
  lemma RecordJoins(c: Correlator, rec: Action)
    requires rec.Record? && rec.emission.AwaitResponse?
    requires |Pending(c, (rec.thread, rec.turn))| < MAX_TOOL_RESPONSE_ENTRIES
    ensures
      var k := (rec.thread, rec.turn);
      var e := Enrich(Given(rec)[0], StateAt(c, k), CellsOf(c, rec.thread));
      Apply(c, rec) == Outcome(c.(states := c.states[k := Joined(StateAt(c, k), e)]), [])
  {
  }

  /** A turn's state with one more event at the end of its queue. */
  function Joined(st: ToolResponseState, e: ToolEvent): ToolResponseState {
    st.(pendingToolEvents := st.pendingToolEvents + [e])
  }

  /** A response leaves an event at the end of the queue that it does not follow there, enriched,
      and treats the rest of the queue as if the event were not there. */
  lemma SampleJoined(st: ToolResponseState, cells: Cells, calls: seq<CallId>, r: ResponseId, e: ToolEvent, late: ToolEvent)
    requires
      var st1 := Answered(st, calls, r);
      late == Enrich(e, st1, BackfillAll(cells, st1.responseIdsByCallId)) && !Follows(late, r)
    ensures
      var x, y := SampleTurn(st, cells, calls, r), SampleTurn(Joined(st, e), cells, calls, r);
      y == Sample(Joined(x.state, late), x.cells, x.out)
  {
    var st1 := Answered(st, calls, r);
    var cells1 := BackfillAll(cells, st1.responseIdsByCallId);
    var q := st.pendingToolEvents;
    EnrichAllIgnoresQueue(q + [e], st1, Answered(Joined(st, e), calls, r), cells1);
    EnrichAllSnoc(q, e, st1, cells1);
    SplitSnoc(EnrichAll(q, st1, cells1), late, r);
  }

  /** The queue does not grow by a response. */
  lemma SampleShrinks(st: ToolResponseState, cells: Cells, calls: seq<CallId>, r: ResponseId)
    ensures |SampleTurn(st, cells, calls, r).state.pendingToolEvents| <= |st.pendingToolEvents|
  {
    var st1 := Answered(st, calls, r);
    var cells1 := BackfillAll(cells, st1.responseIdsByCallId);
    EnrichAllAt(st1.pendingToolEvents, st1, cells1);
    SplitSizes(EnrichAll(st1.pendingToolEvents, st1, cells1), r);
  }

  /** The correlator after a response, with `extra` at the end of the turn's queue. */
  function After(c: Correlator, s: Action, extra: ToolEvent): Correlator
    requires s.Sampled?
  {
    var x := SampleTurn(StateAt(c, (s.thread, s.turn)), CellsOf(c, s.thread), s.calls, s.response);
    Correlator(c.states[(s.thread, s.turn) := Joined(x.state, extra)],
               if s.thread in c.cells then c.cells[s.thread := x.cells] else c.cells)
  }

  lemma CompletionFirst(c: Correlator, rec: Action, s: Action, late: ToolEvent)
    requires rec.Record? && rec.emission.AwaitResponse? && s.Sampled?
    requires (s.thread, s.turn) == (rec.thread, rec.turn)
    requires |Pending(c, (s.thread, s.turn))| < MAX_TOOL_RESPONSE_ENTRIES
    requires Named(StateAt(c, (s.thread, s.turn)), s, rec.event)
    requires
      var k := (s.thread, s.turn);
      var st1 := Answered(StateAt(c, k), s.calls, s.response);
      late == Enrich(Enrich(Given(rec)[0], StateAt(c, k), CellsOf(c, s.thread)),
                     st1, BackfillAll(CellsOf(c, s.thread), st1.responseIdsByCallId))
    ensures Apply(c, rec).out == []
    ensures Apply(Apply(c, rec).next, s) == Outcome(After(c, s, late), Apply(c, s).out)
  {
    RecordJoins(c, rec);
    var k := (s.thread, s.turn);
    var st, cells := StateAt(c, k), CellsOf(c, s.thread);
    var e := Enrich(Given(rec)[0], st, cells);
    assert late.originatingResponseId == Some(s.response);
    SampleJoined(st, cells, s.calls, s.response, e, late);
    var mid := Apply(c, rec).next;
    assert StateAt(mid, k) == Joined(st, e);
    var x := SampleTurn(st, cells, s.calls, s.response);
    assert c.states[k := Joined(st, e)][k := Joined(x.state, late)] == c.states[k := Joined(x.state, late)];
  }

  lemma CompletionSecond(c: Correlator, rec: Action, s: Action, once: ToolEvent)
    requires rec.Record? && rec.emission.AwaitResponse? && s.Sampled?
    requires (s.thread, s.turn) == (rec.thread, rec.turn)
    requires |Pending(c, (s.thread, s.turn))| < MAX_TOOL_RESPONSE_ENTRIES
    requires
      var st1 := Answered(StateAt(c, (s.thread, s.turn)), s.calls, s.response);
      once == Enrich(Given(rec)[0], st1, BackfillAll(CellsOf(c, s.thread), st1.responseIdsByCallId))
    ensures Apply(Apply(c, s).next, rec) == Outcome(After(c, s, once), [])
  {
    var k := (s.thread, s.turn);
    var x := SampleTurn(StateAt(c, k), CellsOf(c, s.thread), s.calls, s.response);
    SampleShrinks(StateAt(c, k), CellsOf(c, s.thread), s.calls, s.response);
    var mid := Apply(c, s).next;
    assert StateAt(mid, k) == x.state && CellsOf(mid, s.thread) == x.cells;
    RecordJoins(mid, rec);
    assert Enrich(Given(rec)[0], x.state, x.cells) == once;
    assert c.states[k := x.state][k := Joined(x.state, once)] == c.states[k := Joined(x.state, once)];
  }

  /** Race independence, with its exact condition. While the queue has room and the response
      admits the call, ingesting an awaited completion just before or just after the response
      that names it gives the same events and the same state if and only if the event is settled. */
  lemma RaceIndependence(c: Correlator, rec: Action, s: Action)
    requires rec.Record? && rec.emission.AwaitResponse? && s.Sampled?
    requires (s.thread, s.turn) == (rec.thread, rec.turn)
    requires |Pending(c, (s.thread, s.turn))| < MAX_TOOL_RESPONSE_ENTRIES
    requires Named(StateAt(c, (s.thread, s.turn)), s, rec.event)
    ensures
      var a1 := Apply(c, rec);
      var a2 := Apply(a1.next, s);
      var b1 := Apply(c, s);
      var b2 := Apply(b1.next, rec);
      && a1.out + a2.out == b1.out + b2.out
      && (a2.next == b2.next <==> Settled(rec.event, StateAt(c, (s.thread, s.turn)), CellsOf(c, s.thread)))
  {
    var k := (s.thread, s.turn);
    var st, cells := StateAt(c, k), CellsOf(c, s.thread);
    var st1 := Answered(st, s.calls, s.response);
    var cells1 := BackfillAll(cells, st1.responseIdsByCallId);
    var late := Enrich(Enrich(Given(rec)[0], st, cells), st1, cells1);
    var once := Enrich(Given(rec)[0], st1, cells1);
    CompletionFirst(c, rec, s, late);
    CompletionSecond(c, rec, s, once);
    EnrichTwice(Given(rec)[0], st, cells, st1, cells1);
    var a2 := Apply(Apply(c, rec).next, s).next;
    var b2 := Apply(Apply(c, s).next, rec).next;
    var x := SampleTurn(st, cells, s.calls, s.response);
    assert StateAt(a2, k) == Joined(x.state, late) && StateAt(b2, k) == Joined(x.state, once);
    var n := |x.state.pendingToolEvents|;
    assert Pending(a2, k)[n] == late && Pending(b2, k)[n] == once;
    assert a2 == After(c, s, late) && b2 == After(c, s, once);
  }
}
