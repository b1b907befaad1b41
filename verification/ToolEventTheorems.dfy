/** Tool events over whole runs of the reducer: conservation, soundness of the
    attached response ids, bounds, and independence of the race between a
    completion and the response that names it. */
module ToolEventTheorems {
  import opened Common
  import opened Events
  import opened ThreadLineage
  import opened ReviewLedger
  import opened TurnAssembly
  import opened ReducerModel
  import Corr = ToolCorrelation
  import opened CorrelationTheorems

  /** The tool events among emitted events, in order. */
  function ToolsOf(out: seq<Event>): seq<ToolEvent> {
    if out == [] then [] else
      var e := out[|out| - 1];
      ToolsOf(out[..|out| - 1]) + if e.ToolItem? then [e.tool] else []
  }

  lemma {:induction false} ToolsConcat(a: seq<Event>, b: seq<Event>)
    ensures ToolsOf(a + b) == ToolsOf(a) + ToolsOf(b)
  {
    if b == [] {
      assert a + b == a;
    } else {
      assert (a + b)[..|a + b| - 1] == a + b[..|b| - 1];
      ToolsConcat(a, b[..|b| - 1]);
    }
  }

  lemma {:induction false} ToolsOfToolItems(q: seq<ToolEvent>)
    ensures ToolsOf(ToolItems(q)) == q
  {
    if q != [] {
      assert ToolItems(q)[..|q| - 1] == ToolItems(q[..|q| - 1]);
      ToolsOfToolItems(q[..|q| - 1]);
    }
  }

  lemma {:induction false} NoTools(out: seq<Event>)
    requires forall i :: 0 <= i < |out| ==> !out[i].ToolItem?
    ensures ToolsOf(out) == []
  {
    if out != [] {
      NoTools(out[..|out| - 1]);
    }
  }

  lemma ToolsInFront(q: seq<ToolEvent>, turns: seq<Event>, others: seq<Event>)
    requires forall i :: 0 <= i < |turns| ==> !turns[i].ToolItem?
    requires forall i :: 0 <= i < |others| ==> !others[i].ToolItem?
    ensures ToolsOf(ToolItems(q) + turns + others) == q
  {
    ToolsConcat(ToolItems(q) + turns, others);
    ToolsConcat(ToolItems(q), turns);
    ToolsOfToolItems(q);
    NoTools(turns);
    NoTools(others);
  }

  lemma TurnsAfterNoTools(s: State, m: Message, u: Option<(TurnId, TurnState)>)
    ensures forall i :: 0 <= i < |TurnsAfter(s, m, u).out| ==> !TurnsAfter(s, m, u).out[i].ToolItem?
  {
  }

  lemma OthersNoTools(s: State, m: Message)
    ensures forall i :: 0 <= i < |OtherEvents(s, m)| ==> !OtherEvents(s, m)[i].ToolItem?
  {
  }

  /** A step's tool events are exactly what the correlator lets out. */
  lemma StepTools(s: State, m: Message)
    ensures ToolsOf(Step(s, m).out) == CorrelatorNext(s, m).out
  {
    TurnsAfterNoTools(s, m, TurnUpdate(s, m));
    OthersNoTools(s, m);
    ToolsInFront(CorrelatorNext(s, m).out, TurnsNext(s, m).out, OtherEvents(s, m));
  }

  /** The tool events of a run are those of its beginning and those its last message lets out. */
  lemma RunToolsLast(ms: seq<Message>)
    requires ms != []
    ensures ToolsOf(Run(INITIAL, ms).out) ==
            ToolsOf(Run(INITIAL, ms[..|ms| - 1]).out) + CorrelatorNext(Run(INITIAL, ms[..|ms| - 1]).state, ms[|ms| - 1]).out
  {
    var s := Run(INITIAL, ms[..|ms| - 1]);
    ToolsConcat(s.out, Step(s.state, ms[|ms| - 1]).out);
    StepTools(s.state, ms[|ms| - 1]);
  }

  // ---- The correlator's invariant over runs ---------------------------------------

  lemma NextKeepsInvariant(s: State, m: Message)
    requires Corr.Invariant(s.correlator) && Enabled(s, m)
    ensures Corr.Invariant(CorrelatorNext(s, m).next)
  {
    var a := CorrelatorAction(s, m);
    if a.Some? {
      Corr.StepKeepsInvariant(s.correlator, a.value);
    }
  }

  /** In every reachable state: every queue, response map and child map of a turn and every cell
      map of a thread has at most 256 entries, no thread has an empty cell map, and every waiting
      event waits under its own turn and has no subsequent response yet. */
  lemma {:induction false} ReachableInvariant(ms: seq<Message>)
    requires EnabledRun(INITIAL, ms)
    ensures Corr.Invariant(Run(INITIAL, ms).state.correlator)
  {
    if ms != [] {
      var init, m := ms[..|ms| - 1], ms[|ms| - 1];
      ReachableInvariant(init);
      NextKeepsInvariant(Run(INITIAL, init).state, m);
    }
  }

  // ---- Conservation ---------------------------------------------------------------

  /** The tool event a message hands to the correlator, if any. */
  function RecordedBy(s: State, m: Message): seq<ToolEvent> {
    var a := CorrelatorAction(s, m);
    if a.Some? then Given(a.value) else []
  }

  /** All tool events handed over in a run. */
  function Recorded(ms: seq<Message>): seq<ToolEvent> {
    if ms == [] then [] else
      var init := ms[..|ms| - 1];
      Recorded(init) + RecordedBy(Run(INITIAL, init).state, ms[|ms| - 1])
  }

  lemma NextConserves(s: State, m: Message, x: ToolEvent)
    requires Corr.Invariant(s.correlator) && Enabled(s, m)
    ensures Count(RecordedBy(s, m), x) + Count(Corr.Pending(s.correlator, KeyOf(x)), x) ==
            Count(CorrelatorNext(s, m).out, x) + Count(Corr.Pending(CorrelatorNext(s, m).next, KeyOf(x)), x)
  {
    var a := CorrelatorAction(s, m);
    if a.Some? {
      StepConserves(s.correlator, a.value, x);
    }
  }

  /** Conservation over every run: for every tool event, up to the four correlation fields, the
      copies recorded are the copies emitted plus the copies still queued under its turn. */
  lemma {:induction false} ToolEventsConserved(ms: seq<Message>, x: ToolEvent)
    requires EnabledRun(INITIAL, ms)
    ensures Count(Recorded(ms), x) ==
            Count(ToolsOf(Run(INITIAL, ms).out), x) + Count(Corr.Pending(Run(INITIAL, ms).state.correlator, KeyOf(x)), x)
  {
    if ms != [] {
      var init, m := ms[..|ms| - 1], ms[|ms| - 1];
      var s := Run(INITIAL, init).state;
      ToolEventsConserved(init, x);
      ReachableInvariant(init);
      NextConserves(s, m, x);
      RunToolsLast(ms);
      CountConcat(Recorded(init), RecordedBy(s, m), x);
      CountConcat(ToolsOf(Run(INITIAL, init).out), CorrelatorNext(s, m).out, x);
    }
  }

  function Identities(q: seq<ToolEvent>): seq<ToolEvent> {
    if q == [] then [] else Identities(q[..|q| - 1]) + [Identity(q[|q| - 1])]
  }

  lemma {:induction false} CountIsMultiplicity(q: seq<ToolEvent>, x: ToolEvent)
    ensures Count(q, x) == multiset(Identities(q))[x]
  {
    if q != [] {
      CountIsMultiplicity(q[..|q| - 1], x);
    }
  }

  lemma FlushEmptiesQueues(s: State, order: seq<Corr.TurnKey>, k: Corr.TurnKey)
    ensures Corr.Pending(CorrelatorNext(s, Flush(order)).next, k) == []
    ensures RecordedBy(s, Flush(order)) == []
  {
  }

  lemma {:induction false} SameCountsSameBag(a: seq<ToolEvent>, b: seq<ToolEvent>)
    requires forall x :: Count(a, x) == Count(b, x)
    ensures multiset(Identities(a)) == multiset(Identities(b))
  {
    forall x ensures multiset(Identities(a))[x] == multiset(Identities(b))[x] {
      CountIsMultiplicity(a, x);
      CountIsMultiplicity(b, x);
      assert Count(a, x) == Count(b, x);
    }
  }

  /** No queue of the correlator holds an event. */
  ghost predicate NothingWaits(c: Corr.Correlator) {
    forall k :: Corr.Pending(c, k) == []
  }

  lemma FlushLeavesNothing(ms: seq<Message>)
    requires ms != [] && ms[|ms| - 1].Flush?
    ensures NothingWaits(Run(INITIAL, ms).state.correlator)
  {
    var init, m := ms[..|ms| - 1], ms[|ms| - 1];
    forall k ensures Corr.Pending(Run(INITIAL, ms).state.correlator, k) == [] {
      FlushEmptiesQueues(Run(INITIAL, init).state, m.order, k);
    }
  }

  lemma EmptyQueuesMeanAllOut(ms: seq<Message>)
    requires EnabledRun(INITIAL, ms) && NothingWaits(Run(INITIAL, ms).state.correlator)
    ensures multiset(Identities(ToolsOf(Run(INITIAL, ms).out))) == multiset(Identities(Recorded(ms)))
  {
    forall x ensures Count(ToolsOf(Run(INITIAL, ms).out), x) == Count(Recorded(ms), x) {
      ToolEventsConserved(ms, x);
      assert Corr.Pending(Run(INITIAL, ms).state.correlator, KeyOf(x)) == [];
    }
    SameCountsSameBag(ToolsOf(Run(INITIAL, ms).out), Recorded(ms));
  }

  /** After a run that ends with a flush nothing is waiting, and the run has emitted exactly the
      tool events it recorded, each as often as it was recorded. */
  lemma FlushEmitsEverything(ms: seq<Message>)
    requires ms != [] && ms[|ms| - 1].Flush?
    ensures NothingWaits(Run(INITIAL, ms).state.correlator)
    ensures EnabledRun(INITIAL, ms) ==>
              multiset(Identities(ToolsOf(Run(INITIAL, ms).out))) == multiset(Identities(Recorded(ms)))
  {
    FlushLeavesNothing(ms);
    if EnabledRun(INITIAL, ms) {
      EmptyQueuesMeanAllOut(ms);
    }
  }

  // ---- Soundness ------------------------------------------------------------------

  lemma NextSound(s: State, m: Message)
    requires Corr.Invariant(s.correlator) && Enabled(s, m)
    ensures forall e :: e in CorrelatorNext(s, m).out ==> Sound(e)
  {
    var a := CorrelatorAction(s, m);
    if a.Some? {
      StepSound(s.correlator, a.value);
    }
  }

  /** Every tool event emitted in any run that names a subsequent response names an originating
      one too, and a different one. */
  lemma {:induction false} EmittedToolsSound(ms: seq<Message>)
    requires EnabledRun(INITIAL, ms)
    ensures forall e :: e in ToolsOf(Run(INITIAL, ms).out) ==> Sound(e)
  {
    if ms != [] {
      var init, m := ms[..|ms| - 1], ms[|ms| - 1];
      EmittedToolsSound(init);
      ReachableInvariant(init);
      NextSound(Run(INITIAL, init).state, m);
      RunToolsLast(ms);
    }
  }

  // ---- A completion races the response that names it ------------------------------

  /** The message records a tool event that waits for its response: a code-mode or control tool
      call, or a completed collaborator item. */
  predicate Awaits(s: State, done: Message) {
    var a := CorrelatorAction(s, done);
    a.Some? && a.value.Record? && a.value.emission.AwaitResponse?
  }

  /** The completion and the response concern the same turn of a thread in context, the turn's
      queue has room, and the response admits the completed call. */
  predicate Races(s: State, done: Message, response: Message) {
    && Awaits(s, done)
    && response.SamplingResponseCompleted? && HasContext(s.lineage, response.thread)
    && var rec, sam := CorrelatorAction(s, done).value, CorrelatorAction(s, response).value;
    && (rec.thread, rec.turn) == (sam.thread, sam.turn)
    && |Corr.Pending(s.correlator, (sam.thread, sam.turn))| < Corr.MAX_TOOL_RESPONSE_ENTRIES
    && Named(Corr.StateAt(s.correlator, (sam.thread, sam.turn)), sam, rec.event)
  }

  /** A sampling response touches only the correlator. */
  lemma StepOfResponse(s: State, m: Message)
    requires m.SamplingResponseCompleted?
    ensures Step(s, m).out == ToolItems(CorrelatorNext(s, m).out)
    ensures Step(s, m).state == s.(correlator := CorrelatorNext(s, m).next)
  {
  }

  lemma ResponseNext(s: State, m: Message)
    requires m.SamplingResponseCompleted? && HasContext(s.lineage, m.thread)
    ensures CorrelatorAction(s, m) == Some(Corr.Sampled(m.thread, m.turn, m.response, m.calls))
    ensures CorrelatorNext(s, m) == Corr.Apply(s.correlator, Corr.Sampled(m.thread, m.turn, m.response, m.calls))
  {
  }

  lemma AwaitedKinds(s: State, m: Message)
    requires Awaits(s, m)
    ensures m.CodeModeCompleted? || m.ControlToolCalled? || m.ItemCompleted?
  {
  }

  /** A completion emits nothing besides tool events and leaves the lineage alone. */
  lemma StepOfCompletion(s: State, m: Message)
    requires m.CodeModeCompleted? || m.ControlToolCalled? || m.ItemCompleted?
    ensures Step(s, m).out == ToolItems(CorrelatorNext(s, m).out)
    ensures Step(s, m).state.lineage == s.lineage
  {
  }

  lemma ActionIsolated(s: State, m: Message, c: Corr.Correlator)
    ensures CorrelatorAction(s.(correlator := c), m) == CorrelatorAction(s, m)
  {
  }

  lemma TurnUpdateIsolated(s: State, m: Message, c: Corr.Correlator)
    ensures TurnUpdate(s.(correlator := c), m) == TurnUpdate(s, m)
  {
  }

  lemma TurnsAfterIsolated(s: State, m: Message, u: Option<(TurnId, TurnState)>, c: Corr.Correlator)
    ensures TurnsAfter(s.(correlator := c), m, u) == TurnsAfter(s, m, u)
  {
  }

  lemma LedgerIsolated(s: State, m: Message, c: Corr.Correlator)
    ensures LedgerNext(s.(correlator := c), m) == LedgerNext(s, m)
  {
  }

  lemma OthersIsolated(s: State, m: Message, c: Corr.Correlator)
    ensures OtherEvents(s.(correlator := c), m) == OtherEvents(s, m)
  {
  }

  /** What a message does outside the correlator, events included, and what it asks of the
      correlator do not depend on the correlator. */
  lemma StepIsolated(s: State, m: Message, c: Corr.Correlator)
    ensures var other := s.(correlator := c);
            && Step(other, m).state == Step(s, m).state.(correlator := CorrelatorNext(other, m).next)
            && CorrelatorAction(other, m) == CorrelatorAction(s, m)
            && Step(s, m).out == ToolItems(CorrelatorNext(s, m).out) + TurnsNext(s, m).out + OtherEvents(s, m)
            && Step(other, m).out == ToolItems(CorrelatorNext(other, m).out) + TurnsNext(s, m).out + OtherEvents(s, m)
  {
    OthersIsolated(s, m, c);
    ActionIsolated(s, m, c);
    TurnUpdateIsolated(s, m, c);
    TurnsAfterIsolated(s, m, TurnUpdate(s, m), c);
    LedgerIsolated(s, m, c);
  }

  /** The completion first: both steps concern the correlator in turn, the rest is the completion's. */
  lemma DoneThenResponse(s: State, done: Message, response: Message)
    requires Races(s, done, response)
    ensures
      var rec, sam := CorrelatorAction(s, done).value, CorrelatorAction(s, response).value;
      var first := Corr.Apply(s.correlator, rec);
      var second := Corr.Apply(first.next, sam);
      Run(s, [done, response]) == StepResult(Step(s, done).state.(correlator := second.next), ToolItems(first.out + second.out))
  {
    var s1 := Step(s, done).state;
    AwaitedKinds(s, done);
    StepOfCompletion(s, done);
    StepOfResponse(s1, response);
    ResponseNext(s, response);
    ResponseNext(s1, response);
    RunOfTwo(s, done, response);
    ToolItemsConcat(CorrelatorNext(s, done).out, CorrelatorNext(s1, response).out);
  }

  lemma ResponseThenDone(s: State, done: Message, response: Message)
    requires Races(s, done, response)
    ensures
      var rec, sam := CorrelatorAction(s, done).value, CorrelatorAction(s, response).value;
      var first := Corr.Apply(s.correlator, sam);
      var second := Corr.Apply(first.next, rec);
      Run(s, [response, done]) == StepResult(Step(s, done).state.(correlator := second.next), ToolItems(first.out + second.out))
  {
    StepOfResponse(s, response);
    ResponseNext(s, response);
    var s1 := Step(s, response).state;
    AwaitedKinds(s, done);
    StepIsolated(s, done, s1.correlator);
    StepOfCompletion(s1, done);
    RunOfTwo(s, response, done);
    ToolItemsConcat(CorrelatorNext(s, response).out, CorrelatorNext(s1, done).out);
  }

  /** Race independence of the reducer: an awaited completion and the sampling response that names
      its call give the same events in either order, and the same state if and only if the
      completion does not name an unknown cell while its call was started in a live one. */
  lemma ReducerRaceIndependence(s: State, done: Message, response: Message)
    requires Races(s, done, response)
    ensures
      var rec := CorrelatorAction(s, done).value;
      var a, b := Run(s, [done, response]), Run(s, [response, done]);
      && a.out == b.out
      && (a.state == b.state <==>
          Settled(rec.event, Corr.StateAt(s.correlator, (rec.thread, rec.turn)), Corr.CellsOf(s.correlator, rec.thread)))
  {
    RaceIndependence(s.correlator, CorrelatorAction(s, done).value, CorrelatorAction(s, response).value);
    DoneThenResponse(s, done, response);
    ResponseThenDone(s, done, response);
  }

  lemma ToolItemsConcat(a: seq<ToolEvent>, b: seq<ToolEvent>)
    ensures ToolItems(a + b) == ToolItems(a) + ToolItems(b)
  {
  }

  lemma RunOfOne(s: State, m: Message)
    ensures Run(s, [m]) == Step(s, m)
  {
    assert [m][..0] == [];
    assert [] + Step(s, m).out == Step(s, m).out;
  }

  lemma RunOfTwo(s: State, m: Message, n: Message)
    ensures
      var first := Step(s, m);
      var second := Step(first.state, n);
      Run(s, [m, n]) == StepResult(second.state, first.out + second.out)
  {
    RunOfOne(s, m);
    assert [m, n][..1] == [m];
  }

  // ---- A run in which the two orders differ ---------------------------------------

  lemma RunSnoc(s: State, ms: seq<Message>, m: Message)
    ensures Run(s, ms + [m]).state == Step(Run(s, ms).state, m).state
  {
    assert (ms + [m])[..|ms|] == ms;
  }

  /** Call 7 of turn 1 runs in the live cell 2 of thread 1, which call 9 started; nothing waits. */
  predicate CallInCell(s: State) {
    && HasContext(s.lineage, 1)
    && Corr.StateAt(s.correlator, (1, 1)) == Corr.ToolResponseState(map[], map[7 := 2], [])
    && Corr.CellsOf(s.correlator, 1) == map[2 := Corr.CodeModeCell(9, None, None)]
  }

  predicate ThreadOpen(s: State) {
    HasContext(s.lineage, 1) && s.correlator == Corr.EMPTY_CORRELATOR
  }

  predicate CellOpen(s: State) {
    HasContext(s.lineage, 1) && s.correlator == Corr.Correlator(map[], map[1 := map[2 := Corr.CodeModeCell(9, None, None)]])
  }

  lemma Initializes()
    ensures
      var s := Step(INITIAL, Initialize(1)).state;
      s.lineage == Lineage(map[], {1}) && s.correlator == Corr.EMPTY_CORRELATOR
  {
  }

  lemma Opens(s: State)
    requires s.lineage == Lineage(map[], {1}) && s.correlator == Corr.EMPTY_CORRELATOR
    ensures ThreadOpen(Step(s, ThreadOpened(1, 1, ThreadMetadata(0, None), None)).state)
  {
  }

  lemma ThreadOpens(a: Message, b: Message)
    requires a == Initialize(1) && b == ThreadOpened(1, 1, ThreadMetadata(0, None), None)
    ensures ThreadOpen(Run(INITIAL, [a, b]).state)
  {
    Initializes();
    Opens(Step(INITIAL, a).state);
    RunOfTwo(INITIAL, a, b);
  }

  lemma CellStarts(s: State)
    requires ThreadOpen(s)
    ensures CellOpen(Step(s, CellStarted(1, 1, 9, 2)).state)
  {
  }

  lemma ChildStarts(s: State)
    requires CellOpen(s)
    ensures CallInCell(Step(s, ChildStarted(1, 1, 7, 2)).state)
  {
  }

  lemma CallStarts(ms: seq<Message>)
    requires ThreadOpen(Run(INITIAL, ms).state)
    ensures CallInCell(Run(INITIAL, ms + [CellStarted(1, 1, 9, 2)] + [ChildStarted(1, 1, 7, 2)]).state)
  {
    var more := ms + [CellStarted(1, 1, 9, 2)];
    CellStarts(Run(INITIAL, ms).state);
    RunSnoc(INITIAL, ms, CellStarted(1, 1, 9, 2));
    ChildStarts(Run(INITIAL, more).state);
    RunSnoc(INITIAL, more, ChildStarted(1, 1, 7, 2));
  }

  /** Where a call completes naming another cell than the live one it runs in, the order in which
      its completion and the response naming it arrive shows in the state. */
  lemma UnsettledFrom(s: State, done: Message, response: Message)
    requires CallInCell(s)
    requires done == CodeModeCompleted(1, 1, None, 7, Some(1), 0, 0)
    requires response == SamplingResponseCompleted(1, 1, 3, [7])
    ensures Run(s, [done, response]).state != Run(s, [response, done]).state
  {
    RacesFrom(s, done, response);
    ReducerRaceIndependence(s, done, response);
  }

  lemma RacesFrom(s: State, done: Message, response: Message)
    requires CallInCell(s)
    requires done == CodeModeCompleted(1, 1, None, 7, Some(1), 0, 0)
    requires response == SamplingResponseCompleted(1, 1, 3, [7])
    ensures Races(s, done, response)
  {
    ResponseNext(s, response);
    assert [7][..0] == [];
    assert Corr.AdmitAll(map[], [7], 3) == map[7 := 3];
  }

  lemma RunSplit(s: State, ms: seq<Message>, a: Message, b: Message)
    ensures Run(s, ms + [a, b]).state == Run(Run(s, ms).state, [a, b]).state
  {
    assert ms + [a, b] == ms + [a] + [b];
    RunSnoc(s, ms, a);
    RunSnoc(s, ms + [a], b);
    RunOfTwo(Run(s, ms).state, a, b);
  }

  /** The exception is reachable: two runs from the initial state that differ only in the order of
      the completion of call 7, which names the unknown cell 1 while it runs in cell 2, and of the
      response that names the call, end in different states. */
  lemma UnsettledRaceDiffers(setup: seq<Message>, done: Message, response: Message)
    requires setup == [Initialize(1), ThreadOpened(1, 1, ThreadMetadata(0, None), None), CellStarted(1, 1, 9, 2), ChildStarted(1, 1, 7, 2)]
    requires done == CodeModeCompleted(1, 1, None, 7, Some(1), 0, 0)
    requires response == SamplingResponseCompleted(1, 1, 3, [7])
    ensures Run(INITIAL, setup + [done, response]).state != Run(INITIAL, setup + [response, done]).state
  {
    var start := [setup[0], setup[1]];
    ThreadOpens(setup[0], setup[1]);
    CallStarts(start);
    assert setup == start + [setup[2]] + [setup[3]];
    UnsettledFrom(Run(INITIAL, setup).state, done, response);
    RunSplit(INITIAL, setup, done, response);
    RunSplit(INITIAL, setup, response, done);
  }
}
