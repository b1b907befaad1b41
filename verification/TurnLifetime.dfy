/** The life of a turn over a run: when the reducer learns of it, when its event is due and what the
    event says, and how long it is kept. */
module TurnLifetime {
  import opened Common
  import opened Events
  import opened ThreadLineage
  import opened ReviewLedger
  import opened AcceptedLines
  import opened TurnAssembly
  import opened ReducerModel
  import opened TurnTheorems
  import opened RunHistory
  import opened TurnHistory

  /** The turn events that the last message of a run emits for `t`. */
  function EventsAtEnd(ms: seq<Message>, t: TurnId): nat
    requires ms != []
  {
    TurnEvents(Step(Run(INITIAL, ms[..|ms| - 1]).state, ms[|ms| - 1]).out, t)
  }

  // ---- The emitted mark -----------------------------------------------------------

  /** The event of the turn is out since its present state began. */
  predicate Announced(ms: seq<Message>, t: TurnId) {
    ms != [] && Known(ms, t) && (EventsAtEnd(ms, t) > 0 || Announced(ms[..|ms| - 1], t))
  }

  lemma ShapeMarks(s: State, m: Message, u: Option<(TurnId, TurnState)>, n: Turns, events: nat, t: TurnId)
    requires Shape(s, m, u, n, events, t) && t in n
    requires u.Some? && u.value.0 == t ==> u.value.1.emitted == TurnAt(s.turns, t).emitted
    ensures n[t].emitted <==> events > 0 || TurnAt(s.turns, t).emitted
  {
  }

  lemma StepMarks(s: State, m: Message, t: TurnId)
    requires t in Step(s, m).state.turns
    ensures Step(s, m).state.turns[t].emitted <==> TurnEvents(Step(s, m).out, t) > 0 || TurnAt(s.turns, t).emitted
  {
    TurnShape(s, m, t);
    if TurnUpdate(s, m).Some? {
      UpdateWrites(s, m, Config);
    }
    ShapeMarks(s, m, TurnUpdate(s, m), Step(s, m).state.turns, TurnEvents(Step(s, m).out, t), t);
  }

  /** In every reachable state a turn is marked exactly if its event is out since its state began. */
  lemma {:induction false} MarkTellsHistory(ms: seq<Message>, t: TurnId)
    ensures TurnAt(Run(INITIAL, ms).state.turns, t).emitted <==> Announced(ms, t)
  {
    if ms != [] && Known(ms, t) {
      MarkTellsHistory(ms[..|ms| - 1], t);
      StepMarks(Run(INITIAL, ms[..|ms| - 1]).state, ms[|ms| - 1], t);
    }
  }

  // ---- When the turn event is due -------------------------------------------------

  /** The message is one after which the event of turn `t` may be due. */
  predicate Prompts(ms: seq<Message>, m: Message, t: TurnId) {
    || ((m.TurnConfigResolved? || m.TurnTokensUsed? || m.TurnProfiled? || m.TurnCompleted?) && m.turn == t)
    || StartOf(ms, m, t).Some?
    || (m.InterruptAnswered? && RequestOf(ms, m).Some? && RequestOf(ms, m).value.InterruptRequested? && RequestOf(ms, m).value.turn == t)
  }

  /** The reducer writes to turn `t` and then tries to emit its event. */
  predicate Tries(s: State, m: Message, t: TurnId) {
    TriesToEmit(m) && TurnUpdate(s, m).Some? && TurnUpdate(s, m).value.0 == t
  }

  lemma StartPrompts(ms: seq<Message>, m: Message, t: TurnId)
    requires m.TurnStartAnswered?
    ensures Prompts(ms, m, t) <==> Tries(Run(INITIAL, ms).state, m, t)
  {
    StartOfIs(ms, m, m.turn);
  }

  lemma InterruptPrompts(ms: seq<Message>, m: Message, t: TurnId)
    requires m.InterruptAnswered?
    ensures Prompts(ms, m, t) <==> Tries(Run(INITIAL, ms).state, m, t)
  {
    RequestOfIs(ms, m);
  }

  lemma FactPrompts(ms: seq<Message>, s: State, m: Message, t: TurnId)
    requires !m.TurnStartAnswered? && !m.InterruptAnswered?
    ensures Prompts(ms, m, t) <==> Tries(s, m, t)
  {
  }

  lemma PromptsIff(ms: seq<Message>, m: Message, t: TurnId)
    ensures Prompts(ms, m, t) <==> Tries(Run(INITIAL, ms).state, m, t)
  {
    if m.TurnStartAnswered? {
      StartPrompts(ms, m, t);
    } else if m.InterruptAnswered? {
      InterruptPrompts(ms, m, t);
    } else {
      FactPrompts(ms, Run(INITIAL, ms).state, m, t);
    }
  }

  /** All that the event waits for is there once the last message is in. */
  predicate AllGiven(ms: seq<Message>, t: TurnId)
    requires ms != []
  {
    && LastWith(ms, t, ConfigFact).Some? && LastWith(ms, t, ProfileFact).Some? && LastWith(ms, t, CompletionFact).Some?
    && ThreadWith(ms, t).Some? && ImagesWith(ms, t).Some?
  }

  /** The connection a turn is reported on: its own, or else the one its thread resolves to. */
  function ReportedOn(l: Lineage, ms: seq<Message>, t: TurnId): Option<ConnectionId>
    requires ms != [] && ThreadWith(ms, t).Some?
  {
    var j := LastWith(ms, t, ConnectionFact);
    if j.Some? then Some(ms[j.value].connection) else ConnectionOf(l.threads, ThreadWith(ms, t).value)
  }

  predicate Attributable(l: Lineage, ms: seq<Message>, t: TurnId)
    requires ms != [] && ThreadWith(ms, t).Some?
  {
    var thread, connection := ThreadWith(ms, t).value, ReportedOn(l, ms, t);
    && thread in l.threads && l.threads[thread].metadata.Some?
    && connection.Some? && connection.value in l.connections
  }

  predicate Due(ms: seq<Message>, t: TurnId)
    requires ms != []
  {
    var init, m := ms[..|ms| - 1], ms[|ms| - 1];
    Prompts(init, m, t) && !Announced(init, t) && AllGiven(ms, t) && Attributable(Run(INITIAL, init).state.lineage, ms, t)
  }

  /** What the last message writes to the turn is what the messages say. */
  ghost predicate Told(ms: seq<Message>, t: TurnId, s: TurnState)
    requires ms != []
  {
    && (forall f :: Holding(s, f, Said(ms, LastWith(ms, t, f))))
    && s.thread == ThreadWith(ms, t) && s.numInputImages == ImagesWith(ms, t) && Fits(s, TallyWith(ms, t))
  }

  lemma WrittenIsTold(ms: seq<Message>, t: TurnId)
    requires ms != []
    ensures Told(ms, t, WrittenTo(Run(INITIAL, ms[..|ms| - 1]).state, ms[|ms| - 1], t))
  {
    var init, m := ms[..|ms| - 1], ms[|ms| - 1];
    forall f: Fact ensures Holding(WrittenTo(Run(INITIAL, init).state, m, t), f, Said(ms, LastWith(ms, t, f))) {
      FactsTellHistory(init, t, f);
      FactsNext(ms, t, f);
    }
    AttributionTellsHistory(init, t);
    AttributionNext(ms, t);
    TallyTellsHistory(init, t);
    TallyNext(Run(INITIAL, init).state, m, t, TallySince(init, t));
    SeenIs(init, m, t, TallySince(init, t));
  }

  lemma ToldReady(l: Lineage, ms: seq<Message>, t: TurnId, s: TurnState)
    requires ms != [] && Told(ms, t, s)
    ensures Prepared(s) <==> AllGiven(ms, t)
    ensures Prepared(s) ==> TurnConnection(l, s) == ReportedOn(l, ms, t)
    ensures Ready(l, s) <==> !s.emitted && AllGiven(ms, t) && Attributable(l, ms, t)
  {
    assert Holding(s, ConfigFact, Said(ms, LastWith(ms, t, ConfigFact)));
    assert Holding(s, ProfileFact, Said(ms, LastWith(ms, t, ProfileFact)));
    assert Holding(s, CompletionFact, Said(ms, LastWith(ms, t, CompletionFact)));
    assert Holding(s, ConnectionFact, Said(ms, LastWith(ms, t, ConnectionFact)));
  }

  lemma EventWhenReady(s: State, m: Message, t: TurnId)
    ensures TurnEvents(Step(s, m).out, t) == if Tries(s, m, t) && Ready(s.lineage, WrittenTo(s, m, t)) then 1 else 0
  {
    TurnShape(s, m, t);
  }

  lemma WrittenMark(s: State, m: Message, t: TurnId)
    ensures WrittenTo(s, m, t).emitted == TurnAt(s.turns, t).emitted
  {
    if TurnUpdate(s, m).Some? {
      UpdateWrites(s, m, Config);
    }
  }

  /** In every run, the last message emits the event of a turn exactly if it is due: the message may
      complete it, it is not out yet, all it waits for was given since the turn's state began, and the
      turn can be attributed. */
  lemma EventIffDue(ms: seq<Message>, t: TurnId)
    requires ms != []
    ensures EventsAtEnd(ms, t) == if Due(ms, t) then 1 else 0
  {
    var init, m := ms[..|ms| - 1], ms[|ms| - 1];
    var s := Run(INITIAL, init).state;
    EventWhenReady(s, m, t);
    PromptsIff(init, m, t);
    WrittenIsTold(ms, t);
    ToldReady(s.lineage, ms, t, WrittenTo(s, m, t));
    WrittenMark(s, m, t);
    MarkTellsHistory(init, t);
  }

  // ---- What the turn event says ---------------------------------------------------

  lemma TurnEventIs(s: State, m: Message, e: Event)
    requires e in TurnsNext(s, m).out && e.TurnEnded?
    ensures Tries(s, m, e.turn) && Ready(s.lineage, WrittenTo(s, m, e.turn))
    ensures e.snapshot == WrittenTo(s, m, e.turn) && Some(e.connection) == TurnConnection(s.lineage, e.snapshot)
  {
  }

  lemma LinesAre(s: State, m: Message, e: Event)
    requires e in TurnsNext(s, m).out && e.LinesAccepted?
    ensures Tries(s, m, e.turn) && Ready(s.lineage, WrittenTo(s, m, e.turn))
    ensures
      var t := WrittenTo(s, m, e.turn);
      t.latestDiff.Some? && t.thread == Some(e.thread) && e.counts == CountsOf(t.latestDiff.value) && e.counts != Counts(0, 0)
  {
  }

  lemma LinesFollow(s: State, m: Message, t: TurnId)
    requires Tries(s, m, t) && Ready(s.lineage, WrittenTo(s, m, t))
    ensures
      var w := WrittenTo(s, m, t);
      w.latestDiff.Some? && CountsOf(w.latestDiff.value) != Counts(0, 0) ==>
        LinesAccepted(t, w.thread.value, CountsOf(w.latestDiff.value)) in TurnsNext(s, m).out
  {
  }

  lemma TurnOutIs(s: State, m: Message, e: Event)
    requires e.TurnEnded? || e.LinesAccepted?
    ensures e in Step(s, m).out <==> e in TurnsNext(s, m).out
  {
    var tools, turns, others := ToolItems(CorrelatorNext(s, m).out), TurnsNext(s, m).out, OtherEvents(s, m);
    OthersAreOther(s, m);
    assert Step(s, m).out == tools + turns + others;
    assert e in tools + turns + others <==> e in tools || e in turns || e in others;
  }

  lemma OthersAreOther(s: State, m: Message)
    ensures forall e :: e in OtherEvents(s, m) ==> !e.TurnEnded? && !e.LinesAccepted?
  {
  }

  /** Every turn event of a run is emitted by a message at which it is due, on the connection it is
      attributed to, and its snapshot is what the messages said of the turn since its state began. */
  lemma SnapshotTells(ms: seq<Message>, e: Event)
    requires ms != [] && e.TurnEnded? && e in Step(Run(INITIAL, ms[..|ms| - 1]).state, ms[|ms| - 1]).out
    ensures Due(ms, e.turn) && Told(ms, e.turn, e.snapshot)
    ensures Some(e.connection) == ReportedOn(Run(INITIAL, ms[..|ms| - 1]).state.lineage, ms, e.turn)
  {
    var init, m := ms[..|ms| - 1], ms[|ms| - 1];
    var s := Run(INITIAL, init).state;
    TurnOutIs(s, m, e);
    TurnEventIs(s, m, e);
    WrittenIsTold(ms, e.turn);
    ToldReady(s.lineage, ms, e.turn, e.snapshot);
    PromptsIff(init, m, e.turn);
    WrittenMark(s, m, e.turn);
    MarkTellsHistory(init, e.turn);
  }

  /** The last diff given for the turn. */
  function LastDiff(ms: seq<Message>, t: TurnId): Option<string>
    requires ms != []
  {
    var j := LastWith(ms, t, DiffFact);
    if j.Some? then Some(ms[j.value].diff) else None
  }

  /** The accepted lines of a turn are reported exactly with its event, if the last diff given for it
      has any, with the counts of that diff. */
  lemma LinesTell(ms: seq<Message>, t: TurnId, thread: ThreadId, counts: Counts)
    requires ms != []
    ensures LinesAccepted(t, thread, counts) in Step(Run(INITIAL, ms[..|ms| - 1]).state, ms[|ms| - 1]).out <==>
            && Due(ms, t) && ThreadWith(ms, t) == Some(thread)
            && LastDiff(ms, t).Some? && counts == CountsOf(LastDiff(ms, t).value) && counts != Counts(0, 0)
  {
    var init, m := ms[..|ms| - 1], ms[|ms| - 1];
    var s := Run(INITIAL, init).state;
    var w, e := WrittenTo(s, m, t), LinesAccepted(t, thread, counts);
    TurnOutIs(s, m, e);
    PromptsIff(init, m, t);
    WrittenIsTold(ms, t);
    ToldReady(s.lineage, ms, t, w);
    WrittenMark(s, m, t);
    MarkTellsHistory(init, t);
    assert Holding(w, DiffFact, Said(ms, LastWith(ms, t, DiffFact)));
    if e in TurnsNext(s, m).out {
      LinesAre(s, m, e);
    }
    if Tries(s, m, t) && Ready(s.lineage, w) {
      LinesFollow(s, m, t);
    }
  }

  // ---- How long a turn is kept ----------------------------------------------------

  /** Some tool item of the turn was started and has not completed since. */
  ghost predicate AnyRunning(ms: seq<Message>, t: TurnId) {
    exists k: ItemKey :: RunningSince(ms, k).Some? && k.turn == t
  }

  lemma RunningIff(ms: seq<Message>, t: TurnId)
    ensures (exists k :: k in Run(INITIAL, ms).state.started && k.turn == t) <==> AnyRunning(ms, t)
  {
    var started := Run(INITIAL, ms).state.started;
    if k :| k in started && k.turn == t {
      ItemsTellHistory(ms, k);
      assert RunningSince(ms, k).Some?;
    }
    if k: ItemKey :| RunningSince(ms, k).Some? && k.turn == t {
      ItemsTellHistory(ms, k);
      assert k in started;
    }
  }

  /** The message makes the reducer learn of a turn it did not know, without its event being due. */
  predicate Mentions(l: Lineage, m: Message, t: TurnId) {
    || ((m.TurnStarted? || m.TurnDiffUpdated? || m.TurnErrored? || m.ImagePrepared?) && m.turn == t)
    || (m.SkillsInvoked? && m.turn == t && m.implicitResources != [])
    || ((m.CodeModeCompleted? || m.ControlToolCalled?) && m.turn == t && HasContext(l, m.thread))
  }

  predicate Introduces(ms: seq<Message>, m: Message, t: TurnId) {
    Prompts(ms, m, t) || Mentions(Run(INITIAL, ms).state.lineage, m, t)
  }

  /** The reducer writes to a turn, known or not. */
  predicate WritesTurn(s: State, m: Message, t: TurnId) {
    TurnUpdate(s, m).Some? && TurnUpdate(s, m).value.0 == t
  }

  lemma TryingMentions(s: State, m: Message, t: TurnId)
    requires TriesToEmit(m)
    ensures !Mentions(s.lineage, m, t) && (Tries(s, m, t) <==> WritesTurn(s, m, t))
  {
  }

  lemma QuietlyMentions(s: State, m: Message, t: TurnId)
    requires t !in s.turns && !TriesToEmit(m)
    ensures Mentions(s.lineage, m, t) <==> WritesTurn(s, m, t)
  {
  }

  lemma MentionsIff(s: State, m: Message, t: TurnId)
    requires t !in s.turns
    ensures Tries(s, m, t) || Mentions(s.lineage, m, t) <==> WritesTurn(s, m, t)
  {
    if TriesToEmit(m) {
      TryingMentions(s, m, t);
    } else {
      QuietlyMentions(s, m, t);
    }
  }

  lemma IntroducesIff(ms: seq<Message>, m: Message, t: TurnId)
    requires !Known(ms, t)
    ensures Introduces(ms, m, t) <==> WritesTurn(Run(INITIAL, ms).state, m, t)
  {
    PromptsIff(ms, m, t);
    MentionsIff(Run(INITIAL, ms).state, m, t);
  }

  /** The message reports an item of the turn. */
  predicate ReportsItemOf(ms: seq<Message>, m: Message, t: TurnId) {
    m.ItemCompleted? && m.turn == t && Reports(ms, m, ItemKey(m.thread, m.turn, m.item.id))
  }

  predicate SettlesItemOf(s: State, m: Message, t: TurnId) {
    m.ItemCompleted? && m.turn == t && Settles(s, m)
  }

  /** Whether turn `t` is kept by a step, in terms of the running items. */
  ghost predicate KeptBy(s: State, m: Message, t: TurnId, n: Turns, events: nat, started: Started) {
    t in n <==>
      if events > 0 then exists k :: k in s.started && k.turn == t
      else if t in s.turns
      then !(s.turns[t].emitted && SettlesItemOf(s, m, t) && !exists k :: k in started && k.turn == t)
      else WritesTurn(s, m, t)
  }

  lemma EmitKeeps(turns: Turns, turn: TurnId, l: Lineage, started: Started, t: TurnId)
    requires turn in turns
    ensures t in MaybeEmit(turns, turn, l, started).turns <==>
            t in turns && (t == turn && Ready(l, turns[turn]) ==> exists k :: k in started && k.turn == t)
  {
  }

  lemma AfterKeeps(s: State, m: Message, u: Option<(TurnId, TurnState)>, t: TurnId)
    requires u == TurnUpdate(s, m)
    ensures KeptBy(s, m, t, TurnsAfter(s, m, u).turns, if Tries(s, m, t) && Ready(s.lineage, WrittenTo(s, m, t)) then 1 else 0,
                   StartedNext(s, m))
  {
    if u.Some? && TriesToEmit(m) {
      EmitKeeps(s.turns[u.value.0 := u.value.1], u.value.0, s.lineage, s.started, t);
    }
  }

  lemma StepKeeps(s: State, m: Message, t: TurnId)
    ensures KeptBy(s, m, t, Step(s, m).state.turns, TurnEvents(Step(s, m).out, t), Step(s, m).state.started)
  {
    EventWhenReady(s, m, t);
    AfterKeeps(s, m, TurnUpdate(s, m), t);
  }

  /** The reducer knows a turn after a run exactly if: its event was emitted just now and some of its
      items is still running; or it knew the turn before, unless its event was out and the last of
      its items was just reported; or the last message introduced it. */
  lemma KnownIff(ms: seq<Message>, t: TurnId)
    requires ms != []
    ensures
      var init, m := ms[..|ms| - 1], ms[|ms| - 1];
      Known(ms, t) <==>
        if EventsAtEnd(ms, t) > 0 then AnyRunning(init, t)
        else if Known(init, t) then !(Announced(init, t) && ReportsItemOf(init, m, t) && !AnyRunning(ms, t))
        else Introduces(init, m, t)
  {
    var init, m := ms[..|ms| - 1], ms[|ms| - 1];
    var s := Run(INITIAL, init).state;
    StepKeeps(s, m, t);
    RunningIff(init, t);
    RunningIff(ms, t);
    MarkTellsHistory(init, t);
    if m.ItemCompleted? && m.turn == t {
      ReportsIff(init, m, ItemKey(m.thread, m.turn, m.item.id));
    }
    if !Known(init, t) {
      IntroducesIff(init, m, t);
    }
  }

  /** Right after its event a turn is kept exactly if one of its tool items is still running. */
  lemma TurnKeptIff(ms: seq<Message>, t: TurnId)
    requires ms != [] && EventsAtEnd(ms, t) > 0
    ensures Known(ms, t) <==> AnyRunning(ms[..|ms| - 1], t)
  {
    KnownIff(ms, t);
  }
}
