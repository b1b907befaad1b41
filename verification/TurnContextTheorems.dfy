/** When a turn can be attributed, told from the start: if the threads and connections that the
    messages give the turn are known at the outset, its event is emitted. */
module TurnContextTheorems {
  import opened Common
  import opened ThreadLineage
  import opened TurnAssembly
  import opened ReducerModel
  import opened TurnTheorems
  import LineageTheorems

  type RequestKey = (ConnectionId, RequestId)

  /** A turn that is attributed to nothing unknown. */
  predicate KnownTurn(l: Lineage, t: TurnState) {
    && (t.thread.Some? ==> HasContext(l, t.thread.value))
    && (t.connection.Some? ==> t.connection.value in l.connections)
  }

  /** The requests `keys`, those whose answers concern the turn, start turns of known threads. */
  ghost predicate KnownRequests(l: Lineage, requests: Requests, keys: set<RequestKey>) {
    forall k :: k in keys && k in requests && requests[k].TurnStart? ==> HasContext(l, requests[k].thread)
  }

  /** The message names only known threads for turn `t`, and a start of `t` is answered on a known
      connection, for one of the requests `keys`. */
  predicate NamesKnown(l: Lineage, m: Message, t: TurnId, keys: set<RequestKey>) {
    match m
    case TurnConfigResolved(turn, config) => turn == t ==> HasContext(l, config.thread)
    case TurnTokensUsed(turn, thread, _) => turn == t ==> HasContext(l, thread)
    case TurnDiffUpdated(thread, turn, _) => turn == t ==> HasContext(l, thread)
    case TurnErrored(turn, thread, _) => turn == t ==> HasContext(l, thread)
    case TurnStartRequested(connection, request, thread, _) => (connection, request) in keys ==> HasContext(l, thread)
    case TurnStartAnswered(connection, request, turn) => turn == t ==> (connection, request) in keys && connection in l.connections
    case _ => true
  }

  ghost predicate KnownSoFar(l: Lineage, s: State, t: TurnId, keys: set<RequestKey>) {
    (t in s.turns ==> KnownTurn(l, s.turns[t])) && KnownRequests(l, s.requests, keys)
  }

  // ---- One step -------------------------------------------------------------------

  lemma UpdateKnown(l: Lineage, s: State, m: Message, t: TurnId, keys: set<RequestKey>)
    requires KnownSoFar(l, s, t, keys) && NamesKnown(l, m, t, keys)
    requires TurnUpdate(s, m).Some? && TurnUpdate(s, m).value.0 == t
    ensures KnownTurn(l, TurnUpdate(s, m).value.1)
  {
    assert KnownTurn(l, TurnAt(s.turns, t));
    if m.TurnStartAnswered? {
      var k: RequestKey := (m.connection, m.request);
      assert k in keys;
    }
  }

  lemma RequestsKnown(l: Lineage, requests: Requests, m: Message, t: TurnId, keys: set<RequestKey>)
    requires KnownRequests(l, requests, keys) && NamesKnown(l, m, t, keys)
    ensures KnownRequests(l, RequestsNext(requests, m), keys)
  {
  }

  lemma ShapeKnown(l: Lineage, s: State, m: Message, u: Option<(TurnId, TurnState)>, n: Turns, events: nat, t: TurnId)
    requires Shape(s, m, u, n, events, t)
    requires t in s.turns ==> KnownTurn(l, s.turns[t])
    requires u.Some? && u.value.0 == t ==> KnownTurn(l, u.value.1)
    ensures t in n ==> KnownTurn(l, n[t])
  {
  }

  lemma StepKnown(l: Lineage, s: State, m: Message, t: TurnId, keys: set<RequestKey>)
    requires KnownSoFar(l, s, t, keys) && NamesKnown(l, m, t, keys)
    ensures KnownSoFar(l, Step(s, m).state, t, keys)
  {
    RequestsKnown(l, s.requests, m, t, keys);
    TurnShape(s, m, t);
    if TurnUpdate(s, m).Some? && TurnUpdate(s, m).value.0 == t {
      UpdateKnown(l, s, m, t, keys);
    }
    ShapeKnown(l, s, m, TurnUpdate(s, m), Step(s, m).state.turns, TurnEvents(Step(s, m).out, t), t);
  }

  // ---- Whole runs -----------------------------------------------------------------

  lemma {:induction false} RunKnownSoFar(l: Lineage, s: State, ms: seq<Message>, t: TurnId, keys: set<RequestKey>)
    requires KnownSoFar(l, s, t, keys) && forall i :: 0 <= i < |ms| ==> NamesKnown(l, ms[i], t, keys)
    ensures KnownSoFar(l, Run(s, ms).state, t, keys)
  {
    if ms != [] {
      RunKnownSoFar(l, s, ms[..|ms| - 1], t, keys);
      StepKnown(l, Run(s, ms[..|ms| - 1]).state, ms[|ms| - 1], t, keys);
    }
  }

  /** Connections stay initialized and known ones stay known. */
  ghost predicate Keeps(before: Lineage, after: Lineage) {
    && before.connections <= after.connections && KnownConnections(after)
    && forall thread :: HasContext(before, thread) ==> HasContext(after, thread)
  }

  lemma KeepsNext(before: Lineage, l: Lineage, m: Message)
    requires Keeps(before, l)
    ensures Keeps(before, LineageNext(l, m))
  {
    LineageTheorems.NextIsLineageStep(l, m);
    forall thread | HasContext(before, thread) ensures HasContext(LineageNext(l, m), thread) {
      ContextStays(l, LineageNext(l, m), thread);
    }
  }

  lemma {:induction false} RunKeeps(s: State, ms: seq<Message>)
    requires KnownConnections(s.lineage)
    ensures Keeps(s.lineage, Run(s, ms).state.lineage)
  {
    if ms != [] {
      RunKeeps(s, ms[..|ms| - 1]);
      KeepsNext(s.lineage, Run(s, ms[..|ms| - 1]).state.lineage, ms[|ms| - 1]);
    }
  }

  lemma KnownTurnStays(before: Lineage, after: Lineage, t: TurnState)
    requires Keeps(before, after) && KnownTurn(before, t)
    ensures KnownTurn(after, t)
  {
  }

  /** A turn that is attributed to nothing unknown, once it has a thread, can be attributed. */
  lemma KnownHasContext(s: State, m: Message, t: TurnId)
    requires KnownTurn(s.lineage, TurnAt(s.turns, t))
    requires ThreadOf(s, m, t).Some? && HasContext(s.lineage, ThreadOf(s, m, t).value)
    ensures ContextKnown(s, m, t)
  {
  }

  /** At its last prerequisite the turn has a thread, and a known one. */
  lemma ThreadIsKnown(l: Lineage, s: State, m: Message, t: TurnId, keys: set<RequestKey>, last: Prerequisite)
    requires Keeps(l, s.lineage) && KnownSoFar(l, s, t, keys) && NamesKnown(l, m, t, keys) && ConfiguredTurns(s.turns)
    requires Supplies(m, last, t) && (last != Config ==> Stored(s, Config, t))
    ensures ContextKnown(s, m, t)
  {
    if t in s.turns {
      KnownTurnStays(l, s.lineage, s.turns[t]);
    }
    assert KnownTurn(s.lineage, TurnAt(s.turns, t));
    KnownHasContext(s, m, t);
  }

  /** Exactly one turn event, told from the start. For a turn not yet seen, let the prerequisite
      `last` arrive once, at position `i`, after the other two. If every thread the messages name for
      the turn has its context at the outset, and its starts are answered on connections initialized
      by then, the turn event is emitted at `i`, and it is the only one. */
  lemma KnownTurnIsReported(s: State, ms: seq<Message>, t: TurnId, i: nat, last: Prerequisite, j: nat, keys: set<RequestKey>)
    requires ConfiguredTurns(s.turns) && t !in s.turns
    requires Supplied(ms, last, t) == 1
    requires i < |ms| && Supplies(ms[i], last, t)
    requires forall p :: p != last ==> Supplied(ms[..i], p, t) >= 1
    requires KnownConnections(s.lineage) && KnownRequests(s.lineage, s.requests, keys)
    requires forall k :: 0 <= k < |ms| ==> NamesKnown(s.lineage, ms[k], t, keys)
    requires j <= |ms|
    ensures TurnEvents(Run(s, ms[..j]).out, t) == if j <= i then 0 else 1
  {
    var mid := Run(s, ms[..i]).state;
    RunKnownSoFar(s.lineage, s, ms[..i], t, keys);
    RunKeeps(s, ms[..i]);
    RunConfigured(s, ms[..i]);
    QuietUntilLast(s, ms, t, i, last, i);
    QuietRunStores(s, ms[..i], Config, t);
    ThreadIsKnown(s.lineage, mid, ms[i], t, keys, last);
    ExactlyOneTurnEvent(s, ms, t, i, last, j);
  }
}
