/** Attribution over whole runs: every response id on an emitted tool event is that of a sampling
    response of the run that concerns the event. */
module AttributionTheorems {
  import opened Common
  import opened Events
  import opened TurnAssembly
  import opened ReducerModel
  import opened ToolEventTheorems
  import opened CorrelatorAttribution
  import CorrelationTheorems
  import ReviewTheorems
  import Corr = ToolCorrelation

  /** The namings a message brings in. */
  function NamedByMessage(m: Message): set<Naming> {
    if m.SamplingResponseCompleted? then set call | call in m.calls :: (m.thread, m.turn, m.response, call) else {}
  }

  function NamedIn(ms: seq<Message>): set<Naming> {
    if ms == [] then {} else NamedIn(ms[..|ms| - 1]) + NamedByMessage(ms[|ms| - 1])
  }

  /** The sampling response behind a naming of the run. */
  lemma {:induction false} NamedAt(ms: seq<Message>, n: Naming) returns (j: nat)
    requires n in NamedIn(ms)
    ensures j < |ms| && n in NamedByMessage(ms[j])
  {
    if n in NamedByMessage(ms[|ms| - 1]) {
      j := |ms| - 1;
    } else {
      j := NamedAt(ms[..|ms| - 1], n);
    }
  }

  lemma ActionNames(s: State, m: Message)
    ensures CorrelatorAction(s, m).Some? ==> NamedBy(CorrelatorAction(s, m).value) <= NamedByMessage(m)
  {
  }

  lemma NextTraced(s: State, m: Message, w: set<Naming>)
    requires Corr.Invariant(s.correlator) && Enabled(s, m) && Attributed(s.correlator, w) && NamedByMessage(m) <= w
    ensures Attributed(CorrelatorNext(s, m).next, w) && QueueTraced(CorrelatorNext(s, m).out, w)
  {
    ActionNames(s, m);
    var a := CorrelatorAction(s, m);
    if a.Some? {
      StepTraced(s.correlator, a.value, w);
    }
  }

  /** In every reachable state every response id the correlator holds was named for its call by a
      sampling response of the run. */
  lemma {:induction false} RunAttributed(ms: seq<Message>)
    requires EnabledRun(INITIAL, ms)
    ensures Attributed(Run(INITIAL, ms).state.correlator, NamedIn(ms))
  {
    if ms != [] {
      var init, m := ms[..|ms| - 1], ms[|ms| - 1];
      var s := Run(INITIAL, init).state;
      RunAttributed(init);
      AttributedGrows(s.correlator, NamedIn(init), NamedByMessage(m));
      ReachableInvariant(init);
      NextTraced(s, m, NamedIn(init) + NamedByMessage(m));
    }
  }

  // ---- Which message lets an event out ----------------------------------------------------

  /** The tool events each message lets out. */
  function LetOut(ms: seq<Message>): seq<seq<ToolEvent>> {
    if ms == [] then [] else
      LetOut(ms[..|ms| - 1]) + [CorrelatorNext(Run(INITIAL, ms[..|ms| - 1]).state, ms[|ms| - 1]).out]
  }

  predicate EmitsLetOut(ms: seq<Message>) {
    Flatten(LetOut(ms)) == ToolsOf(Run(INITIAL, ms).out)
  }

  lemma LetOutNext(ms: seq<Message>)
    requires ms != [] && EmitsLetOut(ms[..|ms| - 1])
    ensures EmitsLetOut(ms)
  {
    var init, m := ms[..|ms| - 1], ms[|ms| - 1];
    var more := CorrelatorNext(Run(INITIAL, init).state, m).out;
    FlattenSnoc(LetOut(init), more);
    ToolsConcat(Run(INITIAL, init).out, Step(Run(INITIAL, init).state, m).out);
    StepTools(Run(INITIAL, init).state, m);
  }

  lemma {:induction false} LetOutIsEmitted(ms: seq<Message>)
    ensures EmitsLetOut(ms)
  {
    if ms != [] {
      LetOutIsEmitted(ms[..|ms| - 1]);
      LetOutNext(ms);
    }
  }

  lemma {:induction false} LetOutLength(ms: seq<Message>)
    ensures |LetOut(ms)| == |ms|
  {
    if ms != [] {
      LetOutLength(ms[..|ms| - 1]);
    }
  }

  lemma {:induction false} LetOutAt(ms: seq<Message>, j: nat)
    requires j < |ms|
    ensures |LetOut(ms)| == |ms| && LetOut(ms)[j] == CorrelatorNext(Run(INITIAL, ms[..j]).state, ms[j]).out
    decreases |ms|
  {
    LetOutLength(ms);
    LetOutLength(ms[..|ms| - 1]);
    if j < |ms| - 1 {
      assert ms[..|ms| - 1][..j] == ms[..j];
      LetOutAt(ms[..|ms| - 1], j);
    }
  }

  /** The message of a run that lets an event out. */
  lemma FindLetOut(ms: seq<Message>, e: ToolEvent) returns (j: nat)
    requires e in ToolsOf(Run(INITIAL, ms).out)
    ensures j < |ms| && e in CorrelatorNext(Run(INITIAL, ms[..j]).state, ms[j]).out
  {
    LetOutIsEmitted(ms);
    LetOutLength(ms);
    j := FlattenHolds(LetOut(ms), e);
    LetOutAt(ms, j);
  }

  // ---- The originating response ---------------------------------------------------

  /** The originating response of an event let out by `m` is known by then. */
  lemma LetOutTraced(before: seq<Message>, m: Message, e: ToolEvent)
    requires EnabledRun(INITIAL, before) && Enabled(Run(INITIAL, before).state, m)
    requires e in CorrelatorNext(Run(INITIAL, before).state, m).out
    ensures Traced(e, NamedIn(before) + NamedByMessage(m))
  {
    var s := Run(INITIAL, before).state;
    RunAttributed(before);
    AttributedGrows(s.correlator, NamedIn(before), NamedByMessage(m));
    ReachableInvariant(before);
    NextTraced(s, m, NamedIn(before) + NamedByMessage(m));
  }

  /** A traced event has a sampling response of its thread behind it. */
  lemma TracedTo(before: seq<Message>, m: Message, e: ToolEvent) returns (j: nat)
    requires Traced(e, NamedIn(before) + NamedByMessage(m)) && e.originatingResponseId.Some?
    ensures j <= |before|
    ensures
      var response := if j < |before| then before[j] else m;
      && response.SamplingResponseCompleted?
      && response.thread == e.body.thread && response.response == e.originatingResponseId.value
      && (e.itemId in response.calls || (e.parentCallId.Some? && e.parentCallId.value in response.calls))
  {
    var w, thread, r := NamedIn(before) + NamedByMessage(m), e.body.thread, e.originatingResponseId.value;
    var call := if InThread(w, thread, r, e.itemId) then e.itemId else e.parentCallId.value;
    var turn :| (thread, turn, r, call) in w;
    if (thread, turn, r, call) in NamedByMessage(m) {
      j := |before|;
    } else {
      j := NamedAt(before, (thread, turn, r, call));
    }
  }

  /** Whenever an emitted tool event names an originating response, a sampling response with that id,
      of the event's own thread and received no later than the message `n` that let the event out,
      named the event's call or the call that started its cell. */
  lemma OriginNamesCall(ms: seq<Message>, e: ToolEvent) returns (j: nat, n: nat)
    requires EnabledRun(INITIAL, ms) && e in ToolsOf(Run(INITIAL, ms).out) && e.originatingResponseId.Some?
    ensures j <= n < |ms| && e in CorrelatorNext(Run(INITIAL, ms[..n]).state, ms[n]).out
    ensures ms[j].SamplingResponseCompleted?
    ensures ms[j].thread == e.body.thread && ms[j].response == e.originatingResponseId.value
    ensures e.itemId in ms[j].calls || (e.parentCallId.Some? && e.parentCallId.value in ms[j].calls)
  {
    n := FindLetOut(ms, e);
    EnabledPrefix(INITIAL, ms, n);
    EnabledAt(INITIAL, ms, n);
    LetOutTraced(ms[..n], ms[n], e);
    j := TracedTo(ms[..n], ms[n], e);
  }

  // ---- The subsequent response ----------------------------------------------------

  lemma LetOutWasWaiting(c: Corr.Correlator, a: Corr.Action, e: ToolEvent)
    requires Corr.Invariant(c) && Corr.Enabled(c, a) && a.Sampled?
    requires e in Corr.Apply(c, a).out
    ensures CorrelationTheorems.Count(Corr.Pending(c, (a.thread, a.turn)), Identity(e)) > 0
  {
    SampledOwnTurn(c, a, e);
    ReviewTheorems.CountPositive(Corr.Apply(c, a).out, e);
    CorrelationTheorems.StepConserves(c, a, Identity(e));
  }

  /** Only a sampling response makes the correlator take one. */
  lemma SampledByResponse(s: State, m: Message, a: Corr.Action)
    requires CorrelatorAction(s, m) == Some(a) && a.Sampled?
    ensures m.SamplingResponseCompleted? && m.thread == a.thread && m.turn == a.turn && m.response == a.response
  {
  }

  /** An event with a subsequent response leaves only by a sampling response of its own turn with
      that id, and it was waiting. */
  lemma SubsequentByOwnTurn(s: State, m: Message, e: ToolEvent)
    requires Corr.Invariant(s.correlator) && Enabled(s, m)
    requires e in CorrelatorNext(s, m).out && e.subsequentResponseId.Some?
    ensures m.SamplingResponseCompleted? && (m.thread, m.turn) == KeyOf(e) && m.response == e.subsequentResponseId.value
    ensures CorrelationTheorems.Count(Corr.Pending(s.correlator, KeyOf(e)), Identity(e)) > 0
  {
    var a := CorrelatorAction(s, m).value;
    CorrelationTheorems.StepSound(s.correlator, a);
    SampledByResponse(s, m, a);
    SampledOwnTurn(s.correlator, a, e);
    LetOutWasWaiting(s.correlator, a, e);
  }

  /** An event with a subsequent response was recorded before the message that lets it out. */
  lemma LetOutAfterRecording(before: seq<Message>, m: Message, e: ToolEvent) returns (i: nat)
    requires EnabledRun(INITIAL, before) && Enabled(Run(INITIAL, before).state, m)
    requires e in CorrelatorNext(Run(INITIAL, before).state, m).out && e.subsequentResponseId.Some?
    ensures m.SamplingResponseCompleted? && (m.thread, m.turn) == KeyOf(e) && m.response == e.subsequentResponseId.value
    ensures i < |before| && Identities(RecordedBy(Run(INITIAL, before[..i]).state, before[i])) == [Identity(e)]
  {
    ReachableInvariant(before);
    SubsequentByOwnTurn(Run(INITIAL, before).state, m, e);
    ToolEventsConserved(before, Identity(e));
    i := ReviewTheorems.RecordedAt(before, Identity(e));
    ReviewTheorems.RecordedReview(Run(INITIAL, before[..i]).state, before[i], Identity(e));
  }

  /** Whenever an emitted tool event names a subsequent response, a sampling response with that id,
      of the event's own turn, was received after the message that recorded the event. */
  lemma SubsequentComesLater(ms: seq<Message>, e: ToolEvent) returns (i: nat, j: nat)
    requires EnabledRun(INITIAL, ms) && e in ToolsOf(Run(INITIAL, ms).out) && e.subsequentResponseId.Some?
    ensures i < j < |ms| && ms[j].SamplingResponseCompleted?
    ensures (ms[j].thread, ms[j].turn) == KeyOf(e) && ms[j].response == e.subsequentResponseId.value
    ensures Identities(RecordedBy(Run(INITIAL, ms[..i]).state, ms[i])) == [Identity(e)]
  {
    j := FindLetOut(ms, e);
    EnabledPrefix(INITIAL, ms, j);
    EnabledAt(INITIAL, ms, j);
    i := LetOutAfterRecording(ms[..j], ms[j], e);
    assert ms[..j][..i] == ms[..i];
  }
}
