/** Turn events over whole runs: never more of them than complete sets of
    prerequisites, and exactly one, at the last prerequisite, when each arrives once. */
module TurnTheorems {
  import opened Common
  import opened Events
  import opened ThreadLineage
  import opened TurnAssembly
  import opened ReducerModel

  /** How many turn events for turn `t` are in `out`. */
  function TurnEvents(out: seq<Event>, t: TurnId): nat {
    if out == [] then 0 else
      var e := out[|out| - 1];
      TurnEvents(out[..|out| - 1], t) + if e.TurnEnded? && e.turn == t then 1 else 0
  }

  lemma {:induction false} TurnEventsConcat(a: seq<Event>, b: seq<Event>, t: TurnId)
    ensures TurnEvents(a + b, t) == TurnEvents(a, t) + TurnEvents(b, t)
  {
    if b == [] {
      assert a + b == a;
    } else {
      assert (a + b)[..|a + b| - 1] == a + b[..|b| - 1];
      TurnEventsConcat(a, b[..|b| - 1], t);
    }
  }

  lemma {:induction false} NoTurnEvents(out: seq<Event>, t: TurnId)
    requires forall i :: 0 <= i < |out| ==> !out[i].TurnEnded?
    ensures TurnEvents(out, t) == 0
  {
    if out != [] {
      NoTurnEvents(out[..|out| - 1], t);
    }
  }

  /** The three facts a turn event waits for. */
  datatype Prerequisite = Config | Profile | Completion

  predicate Supplies(m: Message, p: Prerequisite, t: TurnId) {
    match p
    case Config => m.TurnConfigResolved? && m.turn == t
    case Profile => m.TurnProfiled? && m.turn == t
    case Completion => m.TurnCompleted? && m.turn == t
  }

  predicate Holds(s: TurnState, p: Prerequisite) {
    match p
    case Config => s.config.Some?
    case Profile => s.profile.Some?
    case Completion => s.completed.Some?
  }

  function Supplied(ms: seq<Message>, p: Prerequisite, t: TurnId): nat {
    if ms == [] then 0 else
      Supplied(ms[..|ms| - 1], p, t) + if Supplies(ms[|ms| - 1], p, t) then 1 else 0
  }

  /** The prerequisite is stored for a turn whose event is not out yet. */
  predicate Stored(s: State, p: Prerequisite, t: TurnId) {
    t in s.turns && !s.turns[t].emitted && Holds(s.turns[t], p)
  }

  function StoredOne(s: State, p: Prerequisite, t: TurnId): nat {
    if Stored(s, p, t) then 1 else 0
  }

  // ---- One step -------------------------------------------------------------------

  /** A message writes a prerequisite only by supplying it, never drops one, and leaves the
      emitted mark alone. */
  lemma UpdateWrites(s: State, m: Message, p: Prerequisite)
    requires TurnUpdate(s, m).Some?
    ensures
      var (t, after) := TurnUpdate(s, m).value;
      var before := TurnAt(s.turns, t);
      && (Holds(after, p) <==> Holds(before, p) || Supplies(m, p, t))
      && after.emitted == before.emitted
  {
  }

  lemma OthersNoTurnEvents(s: State, m: Message)
    ensures forall i :: 0 <= i < |OtherEvents(s, m)| ==> !OtherEvents(s, m)[i].TurnEnded?
  {
  }

  lemma MiddleTurnEvents(tools: seq<ToolEvent>, turns: seq<Event>, others: seq<Event>, t: TurnId)
    requires forall i :: 0 <= i < |others| ==> !others[i].TurnEnded?
    ensures TurnEvents(ToolItems(tools) + turns + others, t) == TurnEvents(turns, t)
  {
    TurnEventsConcat(ToolItems(tools) + turns, others, t);
    TurnEventsConcat(ToolItems(tools), turns, t);
    NoTurnEvents(ToolItems(tools), t);
    NoTurnEvents(others, t);
  }

  /** A step's turn events are those of its turn component. */
  lemma StepTurnEvents(s: State, m: Message, t: TurnId)
    ensures TurnEvents(Step(s, m).out, t) == TurnEvents(TurnsNext(s, m).out, t)
  {
    OthersNoTurnEvents(s, m);
    MiddleTurnEvents(CorrelatorNext(s, m).out, TurnsNext(s, m).out, OtherEvents(s, m), t);
  }

  lemma MaybeEmitCounts(turns: Turns, turn: TurnId, l: Lineage, started: Started, t: TurnId)
    ensures TurnEvents(MaybeEmit(turns, turn, l, started).out, t) ==
            if t == turn && turn in turns && Ready(l, turns[turn]) then 1 else 0
  {
    if turn in turns && Ready(l, turns[turn]) {
      var ended := TurnEnded(turn, TurnConnection(l, turns[turn]).value, turns[turn]);
      TurnEventsConcat([ended], LineEvents(turn, turns[turn]), t);
      NoTurnEvents(LineEvents(turn, turns[turn]), t);
      assert [ended][..0] == [];
    }
  }

  /** All that writing the update `u` can do to the state of turn `t`. */
  ghost predicate Shape(s: State, m: Message, u: Option<(TurnId, TurnState)>, n: Turns, events: nat, t: TurnId) {
    if u.None? || u.value.0 != t then Lookup(n, t) == Lookup(s.turns, t) && events == 0
    else if TriesToEmit(m) && Ready(s.lineage, u.value.1) then events == 1 && (t in n ==> n[t] == u.value.1.(emitted := true))
    else events == 0 && (Lookup(n, t) == Some(u.value.1) || (u.value.1.emitted && t !in n))
  }

  lemma MaybeEmitShape(turns: Turns, turn: TurnId, l: Lineage, started: Started, t: TurnId)
    requires turn in turns
    ensures
      var n := MaybeEmit(turns, turn, l, started).turns;
      if t == turn && Ready(l, turns[turn]) then t in n ==> n[t] == turns[t].(emitted := true)
      else Lookup(n, t) == Lookup(turns, t)
  {
  }

  lemma TurnsAfterShape(s: State, m: Message, u: Option<(TurnId, TurnState)>, t: TurnId)
    requires u.Some? ==> u.value.1.emitted == TurnAt(s.turns, u.value.0).emitted
    requires u.Some? && m.ItemCompleted? ==> u.value.0 == m.turn
    ensures Shape(s, m, u, TurnsAfter(s, m, u).turns, TurnEvents(TurnsAfter(s, m, u).out, t), t)
  {
    if u.Some? {
      MaybeEmitCounts(s.turns[u.value.0 := u.value.1], u.value.0, s.lineage, s.started, t);
      MaybeEmitShape(s.turns[u.value.0 := u.value.1], u.value.0, s.lineage, s.started, t);
    }
  }

  lemma TurnShape(s: State, m: Message, t: TurnId)
    ensures Shape(s, m, TurnUpdate(s, m), Step(s, m).state.turns, TurnEvents(Step(s, m).out, t), t)
  {
    StepTurnEvents(s, m, t);
    if TurnUpdate(s, m).Some? {
      UpdateWrites(s, m, Config);
    }
    TurnsAfterShape(s, m, TurnUpdate(s, m), t);
  }

  /** An event uses up the stored prerequisite; storing one takes a fact that supplies it. */
  lemma StepSpends(s: State, m: Message, p: Prerequisite, t: TurnId)
    ensures TurnEvents(Step(s, m).out, t) + StoredOne(Step(s, m).state, p, t)
         <= StoredOne(s, p, t) + if Supplies(m, p, t) then 1 else 0
  {
    TurnShape(s, m, t);
    if TurnUpdate(s, m).Some? {
      UpdateWrites(s, m, p);
    }
  }

  // ---- Whole runs: at most one event per complete set -----------------------------

  lemma {:induction false} RunSpends(s: State, ms: seq<Message>, p: Prerequisite, t: TurnId)
    ensures TurnEvents(Run(s, ms).out, t) + StoredOne(Run(s, ms).state, p, t)
         <= StoredOne(s, p, t) + Supplied(ms, p, t)
  {
    if ms != [] {
      var init, m := ms[..|ms| - 1], ms[|ms| - 1];
      RunSpends(s, init, p, t);
      StepSpends(Run(s, init).state, m, p, t);
      TurnEventsConcat(Run(s, init).out, Step(Run(s, init).state, m).out, t);
    }
  }

  /** In every run, a turn has at most as many turn events as it has configuration facts, as it
      has profile facts and as it has completions, although its state is deleted after an event
      and may be created again by late facts. */
  lemma TurnEventsBounded(ms: seq<Message>, t: TurnId)
    ensures TurnEvents(Run(INITIAL, ms).out, t) <= Supplied(ms, Config, t)
    ensures TurnEvents(Run(INITIAL, ms).out, t) <= Supplied(ms, Profile, t)
    ensures TurnEvents(Run(INITIAL, ms).out, t) <= Supplied(ms, Completion, t)
  {
    RunSpends(INITIAL, ms, Config, t);
    RunSpends(INITIAL, ms, Profile, t);
    RunSpends(INITIAL, ms, Completion, t);
  }

  // ---- Whole runs: exactly one event, at the last prerequisite --------------------

  /** A turn that has its configuration knows its thread and its input images. */
  ghost predicate ConfiguredTurns(turns: Turns) {
    forall t :: t in turns && turns[t].config.Some? ==> turns[t].thread.Some? && turns[t].numInputImages.Some?
  }

  lemma UpdateConfigured(s: State, m: Message)
    requires TurnUpdate(s, m).Some? && ConfiguredTurns(s.turns)
    ensures
      var after := TurnUpdate(s, m).value.1;
      after.config.Some? ==> after.thread.Some? && after.numInputImages.Some?
  {
    var (t, after) := TurnUpdate(s, m).value;
    assert TurnAt(s.turns, t).config.Some? ==> TurnAt(s.turns, t).thread.Some? && TurnAt(s.turns, t).numInputImages.Some?;
  }

  lemma StepConfigured(s: State, m: Message)
    requires ConfiguredTurns(s.turns)
    ensures ConfiguredTurns(Step(s, m).state.turns)
  {
    var n := Step(s, m).state.turns;
    forall t | t in n && n[t].config.Some? ensures n[t].thread.Some? && n[t].numInputImages.Some? {
      TurnShape(s, m, t);
      if TurnUpdate(s, m).Some? {
        UpdateConfigured(s, m);
      }
    }
  }

  lemma {:induction false} RunConfigured(s: State, ms: seq<Message>)
    requires ConfiguredTurns(s.turns)
    ensures ConfiguredTurns(Run(s, ms).state.turns)
  {
    if ms != [] {
      RunConfigured(s, ms[..|ms| - 1]);
      StepConfigured(Run(s, ms[..|ms| - 1]).state, ms[|ms| - 1]);
    }
  }

  predicate NotOut(s: State, t: TurnId) {
    t in s.turns ==> !s.turns[t].emitted
  }

  /** While no event for the turn is emitted, its state stays and keeps every prerequisite. */
  lemma QuietStepStores(s: State, m: Message, p: Prerequisite, t: TurnId)
    requires NotOut(s, t) && TurnEvents(Step(s, m).out, t) == 0
    ensures NotOut(Step(s, m).state, t)
    ensures Stored(s, p, t) || Supplies(m, p, t) ==> Stored(Step(s, m).state, p, t)
  {
    TurnShape(s, m, t);
    if TurnUpdate(s, m).Some? {
      UpdateWrites(s, m, p);
    }
    if Supplies(m, p, t) {
      LastAttribution(s, m, t, p);
    }
    QuietShapeStores(s, m, TurnUpdate(s, m), Step(s, m).state.turns, p, t);
  }

  lemma QuietShapeStores(s: State, m: Message, u: Option<(TurnId, TurnState)>, n: Turns, p: Prerequisite, t: TurnId)
    requires Shape(s, m, u, n, 0, t) && NotOut(s, t)
    requires u.Some? ==> u.value.1.emitted == TurnAt(s.turns, u.value.0).emitted
    requires u.Some? && u.value.0 == t ==> (Holds(u.value.1, p) <==> Holds(TurnAt(s.turns, t), p) || Supplies(m, p, t))
    requires Supplies(m, p, t) ==> u.Some? && u.value.0 == t
    ensures t in n ==> !n[t].emitted
    ensures Stored(s, p, t) || Supplies(m, p, t) ==> t in n && Holds(n[t], p)
  {
  }

  lemma {:induction false} QuietRunStores(s: State, ms: seq<Message>, p: Prerequisite, t: TurnId)
    requires NotOut(s, t) && TurnEvents(Run(s, ms).out, t) == 0
    ensures NotOut(Run(s, ms).state, t)
    ensures Supplied(ms, p, t) > 0 ==> Stored(Run(s, ms).state, p, t)
  {
    if ms != [] {
      var init, m := ms[..|ms| - 1], ms[|ms| - 1];
      var mid := Run(s, init);
      TurnEventsConcat(mid.out, Step(mid.state, m).out, t);
      QuietRunStores(s, init, p, t);
      QuietStepStores(mid.state, m, p, t);
    }
  }

  /** The thread a turn is attributed to once message `m` is in. */
  function ThreadOf(s: State, m: Message, t: TurnId): Option<ThreadId> {
    if Supplies(m, Config, t) then Some(m.config.thread) else TurnAt(s.turns, t).thread
  }

  /** The turn can be attributed: its thread has metadata, and the turn's own connection or else
      the one its thread resolves to is initialized. */
  predicate ContextKnown(s: State, m: Message, t: TurnId) {
    var thread := ThreadOf(s, m, t);
    && thread.Some?
    && thread.value in s.lineage.threads && s.lineage.threads[thread.value].metadata.Some?
    && var connection := OrElse(TurnAt(s.turns, t).connection, ConnectionOf(s.lineage.threads, thread.value));
    && connection.Some? && connection.value in s.lineage.connections
  }

  /** Supplying a prerequisite changes nothing about a turn's attribution but the thread. */
  lemma LastAttribution(s: State, m: Message, t: TurnId, last: Prerequisite)
    requires Supplies(m, last, t)
    ensures
      && TurnUpdate(s, m).Some? && TurnUpdate(s, m).value.0 == t && TriesToEmit(m)
      && TurnUpdate(s, m).value.1.thread == ThreadOf(s, m, t)
      && TurnUpdate(s, m).value.1.connection == TurnAt(s.turns, t).connection
  {
  }

  /** The step that brings the last prerequisite emits the event if and only if the turn can be
      attributed. */
  lemma LastPrerequisiteEmits(s: State, m: Message, t: TurnId, last: Prerequisite)
    requires ConfiguredTurns(s.turns) && NotOut(s, t)
    requires Supplies(m, last, t)
    requires forall p :: p != last ==> Stored(s, p, t)
    ensures TurnEvents(Step(s, m).out, t) == if ContextKnown(s, m, t) then 1 else 0
  {
    LastAttribution(s, m, t, last);
    TurnShape(s, m, t);
    UpdateConfigured(s, m);
    var after := TurnUpdate(s, m).value.1;
    forall p: Prerequisite ensures Holds(after, p) {
      UpdateWrites(s, m, p);
      assert p != last ==> Stored(s, p, t);
    }
    UpdateWrites(s, m, Config);
    assert Holds(after, Config) && Holds(after, Profile) && Holds(after, Completion);
    assert Prepared(after) && !after.emitted;
    assert Ready(s.lineage, after) <==> ContextKnown(s, m, t);
  }

  lemma {:induction false} RunSplit(s: State, ms: seq<Message>, i: nat, t: TurnId)
    requires i <= |ms|
    ensures TurnEvents(Run(s, ms[..i]).out, t) <= TurnEvents(Run(s, ms).out, t)
    decreases |ms|
  {
    if i == |ms| {
      assert ms[..i] == ms;
    } else {
      var init, m := ms[..|ms| - 1], ms[|ms| - 1];
      assert init[..i] == ms[..i];
      RunSplit(s, init, i, t);
      TurnEventsConcat(Run(s, init).out, Step(Run(s, init).state, m).out, t);
    }
  }

  lemma {:induction false} SuppliedSplit(ms: seq<Message>, i: nat, p: Prerequisite, t: TurnId)
    requires i < |ms|
    ensures Supplied(ms[..i], p, t) + (if Supplies(ms[i], p, t) then 1 else 0) <= Supplied(ms, p, t)
    decreases |ms|
  {
    var init := ms[..|ms| - 1];
    if i < |init| {
      assert init[..i] == ms[..i];
      SuppliedSplit(init, i, p, t);
    }
  }

  /** A message supplies at most what is still missing up to position `i`. */
  lemma QuietUntilLast(s: State, ms: seq<Message>, t: TurnId, i: nat, last: Prerequisite, j: nat)
    requires t !in s.turns
    requires Supplied(ms, last, t) == 1
    requires j <= i < |ms| && Supplies(ms[i], last, t)
    ensures TurnEvents(Run(s, ms[..j]).out, t) == 0
  {
    SuppliedSplit(ms, i, last, t);
    RunSpends(s, ms[..i], last, t);
    assert ms[..i][..j] == ms[..j];
    RunSplit(s, ms[..i], j, t);
  }

  lemma RunNext(s: State, ms: seq<Message>, i: nat, t: TurnId)
    requires i < |ms|
    ensures TurnEvents(Run(s, ms[..i + 1]).out, t) ==
            TurnEvents(Run(s, ms[..i]).out, t) + TurnEvents(Step(Run(s, ms[..i]).state, ms[i]).out, t)
  {
    assert ms[..i + 1][..i] == ms[..i];
    TurnEventsConcat(Run(s, ms[..i]).out, Step(Run(s, ms[..i]).state, ms[i]).out, t);
  }

  lemma EmittedAtLast(s: State, ms: seq<Message>, t: TurnId, i: nat, last: Prerequisite)
    requires ConfiguredTurns(s.turns) && t !in s.turns
    requires i < |ms| && Supplies(ms[i], last, t)
    requires forall p :: p != last ==> Supplied(ms[..i], p, t) >= 1
    requires TurnEvents(Run(s, ms[..i]).out, t) == 0
    ensures TurnEvents(Run(s, ms[..i + 1]).out, t) == if ContextKnown(Run(s, ms[..i]).state, ms[i], t) then 1 else 0
  {
    var mid := Run(s, ms[..i]);
    RunConfigured(s, ms[..i]);
    forall p | p != last ensures Stored(mid.state, p, t) {
      QuietRunStores(s, ms[..i], p, t);
    }
    QuietRunStores(s, ms[..i], last, t);
    LastPrerequisiteEmits(mid.state, ms[i], t, last);
    RunNext(s, ms, i, t);
  }

  lemma OnceFromLast(s: State, ms: seq<Message>, t: TurnId, i: nat, last: Prerequisite, j: nat)
    requires t !in s.turns && i < j <= |ms|
    requires Supplied(ms, last, t) == 1
    requires TurnEvents(Run(s, ms[..i + 1]).out, t) == 1
    ensures TurnEvents(Run(s, ms[..j]).out, t) == 1
  {
    assert ms[..j][..i + 1] == ms[..i + 1];
    RunSplit(s, ms[..j], i + 1, t);
    RunSplit(s, ms, j, t);
    RunSpends(s, ms, last, t);
  }

  /** For a turn not yet seen: let the prerequisite `last` arrive exactly once, at position `i`,
      after at least one of each of the other two, in any order and between any other messages.
      There is no turn event before; the step at `i` emits one if and only if the turn can then be
      attributed; and in that case it stays the only one, whatever else arrives. */
  lemma ExactlyOneTurnEvent(s: State, ms: seq<Message>, t: TurnId, i: nat, last: Prerequisite, j: nat)
    requires ConfiguredTurns(s.turns) && t !in s.turns
    requires Supplied(ms, last, t) == 1
    requires i < |ms| && Supplies(ms[i], last, t)
    requires forall p :: p != last ==> Supplied(ms[..i], p, t) >= 1
    requires j <= |ms|
    ensures j <= i ==> TurnEvents(Run(s, ms[..j]).out, t) == 0
    ensures j == i + 1 ==>
              TurnEvents(Run(s, ms[..j]).out, t) == if ContextKnown(Run(s, ms[..i]).state, ms[i], t) then 1 else 0
    ensures j > i && ContextKnown(Run(s, ms[..i]).state, ms[i], t) ==> TurnEvents(Run(s, ms[..j]).out, t) == 1
  {
    if j <= i {
      QuietUntilLast(s, ms, t, i, last, j);
    } else {
      QuietUntilLast(s, ms, t, i, last, i);
      EmittedAtLast(s, ms, t, i, last);
      if ContextKnown(Run(s, ms[..i]).state, ms[i], t) {
        OnceFromLast(s, ms, t, i, last, j);
      }
    }
  }
}
