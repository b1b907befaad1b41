/** The events of a run that are neither tool events nor turn events, told from its messages. */
module OtherEventTheorems {
  import opened Common
  import opened ThreadLineage
  import opened ReviewLedger
  import opened TurnAssembly
  import opened ReducerModel
  import opened RunHistory

  /** The events that message `m` adds to a run. */
  function Adds(ms: seq<Message>, m: Message): seq<Event> {
    Step(Run(INITIAL, ms).state, m).out
  }

  lemma OutsideTurns(s: State, m: Message, e: Event)
    requires e.Reviewed? || e.TurnSteered? || e.ThreadInitialized?
    ensures e in Step(s, m).out <==> e in OtherEvents(s, m)
  {
    TurnsHaveNone(s, m);
    OnlyAmong(ToolItems(CorrelatorNext(s, m).out), TurnsNext(s, m).out, OtherEvents(s, m), e);
  }

  lemma OnlyAmong(tools: seq<Event>, turns: seq<Event>, others: seq<Event>, e: Event)
    requires e !in tools && e !in turns
    ensures e in tools + turns + others <==> e in others
  {
  }

  lemma TurnsHaveNone(s: State, m: Message)
    ensures forall e :: e in TurnsNext(s, m).out ==> e.TurnEnded? || e.LinesAccepted?
  {
  }

  /** A review is reported exactly when it is finished, on a thread in context. */
  lemma ReviewedIff(ms: seq<Message>, m: Message, r: Review)
    ensures Reviewed(r) in Adds(ms, m) <==>
            Finished(ms, m) == Some(r) && HasContext(Run(INITIAL, ms).state.lineage, r.subject.thread)
  {
    var s := Run(INITIAL, ms).state;
    OutsideTurns(s, m, Reviewed(r));
    FinishedIs(ms, m);
    ReviewedIs(s, m, r);
  }

  lemma ReviewedIs(s: State, m: Message, r: Review)
    ensures Reviewed(r) in OtherEvents(s, m) <==> FinishedReview(s, m) == Some(r) && HasContext(s.lineage, r.subject.thread)
  {
  }

  /** The message tells how a steer of the thread came out: accepted for a turn, or failed. */
  predicate TellsSteer(ms: seq<Message>, m: Message, thread: ThreadId, accepted: Option<TurnId>) {
    && ((m.TurnSteerAnswered? && accepted == Some(m.turn)) || (m.RequestFailed? && accepted.None?))
    && var j := RequestedAt(ms, m.connection, m.request);
    j.Some? && ms[j.value].TurnSteerRequested? && ms[j.value].thread == thread
  }

  /** A steer is reported exactly when its pending request is answered or fails, on an initialized
      connection and for a thread with metadata. */
  lemma SteeredIff(ms: seq<Message>, m: Message, thread: ThreadId, accepted: Option<TurnId>)
    ensures
      var l := Run(INITIAL, ms).state.lineage;
      TurnSteered(thread, accepted) in Adds(ms, m) <==>
      && TellsSteer(ms, m, thread, accepted)
      && m.connection in l.connections && thread in l.threads && l.threads[thread].metadata.Some?
  {
    var s := Run(INITIAL, ms).state;
    OutsideTurns(s, m, TurnSteered(thread, accepted));
    if m.TurnSteerAnswered? || m.RequestFailed? {
      RequestsTellHistory(ms, m.connection, m.request);
    }
    SteeredIs(s, m, thread, accepted);
  }

  lemma SteeredIs(s: State, m: Message, thread: ThreadId, accepted: Option<TurnId>)
    ensures TurnSteered(thread, accepted) in OtherEvents(s, m) <==>
            && ((m.TurnSteerAnswered? && accepted == Some(m.turn)) || (m.RequestFailed? && accepted.None?))
            && Answered(s, m.connection, m.request).Some? && Answered(s, m.connection, m.request).value.TurnSteer?
            && Answered(s, m.connection, m.request).value.thread == thread
            && m.connection in s.lineage.connections
            && thread in s.lineage.threads && s.lineage.threads[thread].metadata.Some?
  {
  }

  /** A thread is announced exactly when it is opened on an initialized connection, or started as an
      announced sub-agent. */
  lemma InitializedIff(ms: seq<Message>, m: Message, thread: ThreadId)
    ensures ThreadInitialized(thread) in Adds(ms, m) <==>
            || (m.ThreadOpened? && m.thread == thread && m.connection in Run(INITIAL, ms).state.lineage.connections)
            || (m.SubAgentStarted? && m.thread == thread && m.announced)
  {
    var s := Run(INITIAL, ms).state;
    OutsideTurns(s, m, ThreadInitialized(thread));
    InitializedIs(s, m, thread);
  }

  lemma InitializedIs(s: State, m: Message, thread: ThreadId)
    ensures ThreadInitialized(thread) in OtherEvents(s, m) <==>
            || (m.ThreadOpened? && m.thread == thread && m.connection in s.lineage.connections)
            || (m.SubAgentStarted? && m.thread == thread && m.announced)
  {
  }

  /** The place of an event among those of one message. */
  function Place(e: Event): nat {
    match e
    case ToolItem(_) => 0
    case TurnEnded(_, _, _) => 1
    case LinesAccepted(_, _, _) => 2
    case Reviewed(_) | ThreadInitialized(_) | TurnSteered(_, _) => 3
  }

  lemma TurnsInOrder(s: State, m: Message)
    ensures
      var q := TurnsNext(s, m).out;
      |q| <= 2 && (|q| > 0 ==> q[0].TurnEnded?) && (|q| > 1 ==> q[1].LinesAccepted?)
  {
  }

  lemma OthersInOrder(s: State, m: Message)
    ensures forall e :: e in OtherEvents(s, m) ==> Place(e) == 3
  {
  }

  /** The events of one message come out in this order: the tool events it lets out, the turn event,
      the accepted lines of the turn, anything else. */
  lemma OutInOrder(s: State, m: Message, i: nat, j: nat)
    requires i < j < |Step(s, m).out|
    ensures Place(Step(s, m).out[i]) <= Place(Step(s, m).out[j])
  {
    TurnsInOrder(s, m);
    OthersInOrder(s, m);
    PlacesJoin(ToolItems(CorrelatorNext(s, m).out), TurnsNext(s, m).out, OtherEvents(s, m), i, j);
  }

  lemma PlacesJoin(tools: seq<Event>, turns: seq<Event>, others: seq<Event>, i: nat, j: nat)
    requires (forall e :: e in tools ==> e.ToolItem?) && (forall e :: e in others ==> Place(e) == 3)
    requires |turns| <= 2 && (|turns| > 0 ==> turns[0].TurnEnded?) && (|turns| > 1 ==> turns[1].LinesAccepted?)
    requires i < j < |tools + turns + others|
    ensures Place((tools + turns + others)[i]) <= Place((tools + turns + others)[j])
  {
    if j < |tools| {
      assert tools[i] in tools;
    } else if i >= |tools + turns| {
      assert others[i - |tools + turns|] in others && others[j - |tools + turns|] in others;
    } else if j >= |tools + turns| {
      assert others[j - |tools + turns|] in others;
    } else if i < |tools| {
      assert tools[i] in tools;
    }
  }
}
