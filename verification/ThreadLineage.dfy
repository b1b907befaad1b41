/** Threads, their spawning parents and the connection each thread belongs to.
    A sub-agent thread without a connection of its own uses that of its nearest
    ancestor that has one. */
module ThreadLineage {
  import opened Common

  datatype ThreadMetadata = ThreadMetadata(session: int, parent: Option<ThreadId>)

  datatype ThreadState = ThreadState(
    connection: Option<ConnectionId>,
    metadata: Option<ThreadMetadata>,
    originator: Option<int>)

  const EMPTY_THREAD := ThreadState(None, None, None)

  type Threads = map<ThreadId, ThreadState>

  datatype Lineage = Lineage(threads: Threads, connections: set<ConnectionId>)

  function ParentOf(s: ThreadState): Option<ThreadId> {
    if s.metadata.Some? then s.metadata.value.parent else None
  }

  // ---- The ancestor walk ----------------------------------------------------------

  /** Where the walk stands: at a known thread, or finished. */
  datatype Walk = At(thread: ThreadId) | Done(result: Option<ConnectionId>)

  function Enter(threads: Threads, t: Option<ThreadId>): Walk {
    if t.Some? && t.value in threads then At(t.value) else Done(None)
  }

  /** One iteration of the loop. */
  function WalkOnce(threads: Threads, w: Walk): Walk {
    if w.Done? || w.thread !in threads then w
    else
      var s := threads[w.thread];
      if s.connection.Some? then Done(s.connection) else Enter(threads, ParentOf(s))
  }

  function WalkMany(threads: Threads, w: Walk, n: nat): Walk {
    if n == 0 then w else WalkOnce(threads, WalkMany(threads, w, n - 1))
  }

  ghost predicate Terminates(threads: Threads, t: ThreadId) {
    exists n: nat :: WalkMany(threads, Enter(threads, Some(t)), n).Done?
  }

  /** The outcome of the walk, decided without running it forever: coming back to a thread
      that is no longer `unvisited` is a cycle. */
  datatype Resolution = Found(connection: ConnectionId) | Missing | Cycle

  function Resolve(threads: Threads, t: ThreadId, unvisited: set<ThreadId>): Resolution
    decreases unvisited
  {
    if t !in threads then Missing
    else if threads[t].connection.Some? then Found(threads[t].connection.value)
    else if ParentOf(threads[t]).None? || ParentOf(threads[t]).value !in threads then Missing
    else if t !in unvisited then Cycle
    else Resolve(threads, ParentOf(threads[t]).value, unvisited - {t})
  }

  function ConnectionOf(threads: Threads, t: ThreadId): Option<ConnectionId> {
    var r := Resolve(threads, t, threads.Keys);
    if r.Found? then Some(r.connection) else None
  }

  predicate HasContext(l: Lineage, t: ThreadId) {
    && t in l.threads
    && l.threads[t].metadata.Some?
    && ConnectionOf(l.threads, t).Some?
    && ConnectionOf(l.threads, t).value in l.connections
  }

  // ---- Steps ----------------------------------------------------------------------

  function OnInitialize(l: Lineage, connection: ConnectionId): Lineage {
    l.(connections := l.connections + {connection})
  }

  function ThreadAt(l: Lineage, t: ThreadId): ThreadState {
    if t in l.threads then l.threads[t] else EMPTY_THREAD
  }

  /** A thread start, resume or fork answered on an initialized connection. */
  function OnThreadOpened(l: Lineage, connection: ConnectionId, t: ThreadId, metadata: ThreadMetadata,
                          originator: Option<int>): Lineage
  {
    if connection in l.connections then
      var s := ThreadState(Some(connection), Some(metadata), OrElse(originator, ThreadAt(l, t).originator));
      l.(threads := l.threads[t := s])
    else
      l
  }

  /** A sub-agent start fills in whatever the thread does not know yet. */
  function OnSubAgentStarted(l: Lineage, t: ThreadId, metadata: ThreadMetadata, originator: int): Lineage {
    var inherited := if metadata.parent.Some? then ConnectionOf(l.threads, metadata.parent.value) else None;
    var s := ThreadAt(l, t);
    var s' := ThreadState(
                OrElse(s.connection, inherited),
                OrElse(s.metadata, Some(metadata)),
                OrElse(s.originator, Some(originator)));
    l.(threads := l.threads[t := s'])
  }

  // ---- The walk terminates exactly when it meets no cycle -------------------------

  lemma {:induction false} WalkCompose(threads: Threads, w: Walk, m: nat, n: nat)
    ensures WalkMany(threads, w, m + n) == WalkMany(threads, WalkMany(threads, w, m), n)
    decreases n
  {
    if n != 0 {
      WalkCompose(threads, w, m, n - 1);
    }
  }

  lemma {:induction false} DoneStays(threads: Threads, w: Walk, n: nat)
    requires w.Done?
    ensures WalkMany(threads, w, n) == w
  {
    if n != 0 {
      DoneStays(threads, w, n - 1);
    }
  }

  /** A thread the walk comes back to is walked through forever. */
  lemma {:induction false} ReturningNeverDone(threads: Threads, t: ThreadId, period: nat, n: nat)
    requires 0 < period && WalkMany(threads, At(t), period) == At(t)
    ensures WalkMany(threads, At(t), n).At?
    decreases n
  {
    if n >= period {
      WalkCompose(threads, At(t), period, n - period);
      ReturningNeverDone(threads, t, period, n - period);
    } else if WalkMany(threads, At(t), n).Done? {
      WalkCompose(threads, At(t), n, period - n);
      DoneStays(threads, WalkMany(threads, At(t), n), period - n);
    }
  }

  /** Every thread already visited leads to `t` in at least one iteration. */
  ghost predicate VisitedLeadTo(threads: Threads, t: ThreadId, unvisited: set<ThreadId>) {
    forall v :: v in threads && v !in unvisited ==>
      exists n: nat :: 0 < n && WalkMany(threads, At(v), n) == At(t)
  }

  lemma {:induction false} VisitedLeadOn(threads: Threads, t: ThreadId, p: ThreadId, unvisited: set<ThreadId>)
    requires VisitedLeadTo(threads, t, unvisited) && WalkOnce(threads, At(t)) == At(p)
    ensures VisitedLeadTo(threads, p, unvisited - {t})
  {
    forall v | v in threads && v !in unvisited - {t}
      ensures exists n: nat :: 0 < n && WalkMany(threads, At(v), n) == At(p)
    {
      if v == t {
        assert WalkMany(threads, At(t), 0) == At(t);
        assert WalkMany(threads, At(v), 1) == At(p);
      } else {
        var n: nat :| 0 < n && WalkMany(threads, At(v), n) == At(t);
        assert WalkMany(threads, At(v), n + 1) == At(p);
      }
    }
  }

  /** The walk from an entered thread ends with what `Resolve` says, or never ends if that is
      a cycle. */
  lemma {:induction false} ResolveIsWalk(threads: Threads, t: ThreadId, unvisited: set<ThreadId>) returns (n: nat)
    requires t in threads && VisitedLeadTo(threads, t, unvisited)
    ensures var r := Resolve(threads, t, unvisited);
            if r.Cycle? then forall m: nat :: WalkMany(threads, At(t), m).At?
            else WalkMany(threads, At(t), n) == Done(if r.Found? then Some(r.connection) else None)
    decreases unvisited
  {
    var s := threads[t];
    assert WalkMany(threads, At(t), 0) == At(t);
    assert WalkMany(threads, At(t), 1) == WalkOnce(threads, At(t));
    n := 1;
    if s.connection.None? && ParentOf(s).Some? && ParentOf(s).value in threads {
      var p := ParentOf(s).value;
      if t !in unvisited {
        var period: nat :| 0 < period && WalkMany(threads, At(t), period) == At(t);
        forall m: nat ensures WalkMany(threads, At(t), m).At? {
          ReturningNeverDone(threads, t, period, m);
        }
      } else {
        VisitedLeadOn(threads, t, p, unvisited);
        var k := ResolveIsWalk(threads, p, unvisited - {t});
        forall m: nat ensures m > 0 ==> WalkMany(threads, At(t), m) == WalkMany(threads, At(p), m - 1) {
          if m > 0 {
            WalkCompose(threads, At(t), 1, m - 1);
          }
        }
        n := k + 1;
      }
    }
  }

  /** Exact termination condition of the ancestor walk, and its result. */
  lemma WalkTerminatesIff(threads: Threads, t: ThreadId)
    ensures Terminates(threads, t) <==> !Resolve(threads, t, threads.Keys).Cycle?
    ensures forall n: nat :: var w := WalkMany(threads, Enter(threads, Some(t)), n);
              w.Done? ==> w.result == ConnectionOf(threads, t)
  {
    if t in threads {
      var n := ResolveIsWalk(threads, t, threads.Keys);
      assert Enter(threads, Some(t)) == At(t);
      forall m: nat | WalkMany(threads, At(t), m).Done? && !Resolve(threads, t, threads.Keys).Cycle?
        ensures WalkMany(threads, At(t), m) == WalkMany(threads, At(t), n)
      {
        if m <= n {
          WalkCompose(threads, At(t), m, n - m);
          DoneStays(threads, WalkMany(threads, At(t), m), n - m);
        } else {
          WalkCompose(threads, At(t), n, m - n);
          DoneStays(threads, WalkMany(threads, At(t), n), m - n);
        }
      }
    } else {
      assert WalkMany(threads, Enter(threads, Some(t)), 0).Done?;
      forall n: nat ensures WalkMany(threads, Done(None), n) == Done(None) {
        DoneStays(threads, Done(None), n);
      }
    }
  }

  /** Without the spawn order the walk can run forever: a sub-agent that names itself. */
  lemma SelfParentLoops(t: ThreadId, session: int, originator: int)
    ensures !Terminates(OnSubAgentStarted(Lineage(map[], {}), t, ThreadMetadata(session, Some(t)), originator).threads, t)
  {
    var threads := OnSubAgentStarted(Lineage(map[], {}), t, ThreadMetadata(session, Some(t)), originator).threads;
    assert threads.Keys == {t};
    WalkTerminatesIff(threads, t);
  }

  // ---- Spawn order ----------------------------------------------------------------

  /** Parents are spawned before their children, so every link that the walk may follow goes to
      a smaller rank. */
  ghost predicate Ranked(threads: Threads, rank: ThreadId -> nat) {
    forall t :: t in threads && threads[t].connection.None? && ParentOf(threads[t]).Some? ==>
      rank(ParentOf(threads[t]).value) < rank(t)
  }

  lemma {:induction false} RankedMeetsNoCycle(threads: Threads, rank: ThreadId -> nat, t: ThreadId, unvisited: set<ThreadId>)
    requires Ranked(threads, rank)
    requires forall v :: v in threads && v !in unvisited ==> rank(t) < rank(v)
    ensures !Resolve(threads, t, unvisited).Cycle?
    decreases unvisited
  {
    if t in threads && threads[t].connection.None? && ParentOf(threads[t]).Some? && t in unvisited {
      RankedMeetsNoCycle(threads, rank, ParentOf(threads[t]).value, unvisited - {t});
    }
  }

  lemma RankedTerminates(threads: Threads, rank: ThreadId -> nat, t: ThreadId)
    requires Ranked(threads, rank)
    ensures Terminates(threads, t)
  {
    RankedMeetsNoCycle(threads, rank, t, threads.Keys);
    WalkTerminatesIff(threads, t);
  }

  // ---- The nearest ancestor-or-self with a connection ------------------------------

  /** The n-th known ancestor of a thread, whatever connections lie in between. */
  function Ancestor(threads: Threads, t: ThreadId, n: nat): Option<ThreadId> {
    if n == 0 then
      if t in threads then Some(t) else None
    else
      var a := Ancestor(threads, t, n - 1);
      if a.None? || a.value !in threads then None
      else
        var p := ParentOf(threads[a.value]);
        if p.Some? && p.value in threads then p else None
  }

  /** The n-th ancestor is the first, counting from the thread itself, that has a connection. */
  ghost predicate IsNearest(threads: Threads, t: ThreadId, n: nat, c: ConnectionId) {
    && Ancestor(threads, t, n).Some?
    && Ancestor(threads, t, n).value in threads
    && threads[Ancestor(threads, t, n).value].connection == Some(c)
    && forall i: nat :: i < n ==>
         && Ancestor(threads, t, i).Some?
         && Ancestor(threads, t, i).value in threads
         && threads[Ancestor(threads, t, i).value].connection.None?
  }

  /** As long as the walk goes on it stands at the ancestor of the same number. */
  lemma {:induction false} WalkFollowsAncestors(threads: Threads, t: ThreadId, n: nat)
    requires t in threads
    ensures WalkMany(threads, At(t), n).At? ==>
              && Ancestor(threads, t, n) == Some(WalkMany(threads, At(t), n).thread)
              && Ancestor(threads, t, n).value in threads
              && forall i: nat :: i < n ==>
                   && Ancestor(threads, t, i).Some?
                   && Ancestor(threads, t, i).value in threads
                   && threads[Ancestor(threads, t, i).value].connection.None?
  {
    if n != 0 {
      WalkFollowsAncestors(threads, t, n - 1);
    }
  }

  lemma {:induction false} NearestStopsWalk(threads: Threads, t: ThreadId, n: nat, c: ConnectionId, i: nat)
    requires t in threads && IsNearest(threads, t, n, c) && i <= n
    ensures WalkMany(threads, At(t), i) == At(Ancestor(threads, t, i).value)
  {
    if i != 0 {
      NearestStopsWalk(threads, t, n, c, i - 1);
    }
  }

  lemma {:induction false} WalkFindsNearest(threads: Threads, t: ThreadId, n: nat) returns (m: nat)
    requires t in threads && WalkMany(threads, At(t), n).Done? && WalkMany(threads, At(t), n).result.Some?
    ensures IsNearest(threads, t, m, WalkMany(threads, At(t), n).result.value)
  {
    if WalkMany(threads, At(t), n - 1).Done? {
      m := WalkFindsNearest(threads, t, n - 1);
    } else {
      m := n - 1;
      WalkFollowsAncestors(threads, t, m);
    }
  }

  /** The connection of a thread is that of its nearest ancestor-or-self that has one. */
  lemma ConnectionIsNearest(threads: Threads, t: ThreadId, c: ConnectionId)
    ensures ConnectionOf(threads, t) == Some(c) <==> exists n: nat :: IsNearest(threads, t, n, c)
  {
    WalkTerminatesIff(threads, t);
    if ConnectionOf(threads, t) == Some(c) {
      var n: nat :| WalkMany(threads, Enter(threads, Some(t)), n).Done?;
      var m := WalkFindsNearest(threads, t, n);
    }
    if n: nat :| IsNearest(threads, t, n, c) {
      KnownFromStart(threads, t, n, c);
      NearestStopsWalk(threads, t, n, c, n);
      assert WalkMany(threads, Enter(threads, Some(t)), n + 1) == Done(Some(c));
    }
  }

  lemma KnownFromStart(threads: Threads, t: ThreadId, n: nat, c: ConnectionId)
    requires IsNearest(threads, t, n, c)
    ensures t in threads
  {
    assert 0 < n ==> Ancestor(threads, t, 0).Some?;
  }

  // ---- Once resolvable, always resolvable -----------------------------------------

  /** What every fact keeps about a thread: a connection is never lost, and the parent of a
      thread without one is never replaced. */
  ghost predicate Grows(before: Threads, after: Threads) {
    forall t :: t in before ==>
      && t in after
      && (before[t].connection.Some? ==> after[t].connection.Some?)
      && (before[t].metadata.Some? ==> after[t].metadata.Some?)
      && (after[t].connection.Some? || before[t].metadata.None? || after[t].metadata == before[t].metadata)
  }

  lemma {:induction false} ResolvableGrows(before: Threads, after: Threads, t: ThreadId, u: set<ThreadId>, u': set<ThreadId>)
    requires Grows(before, after) && u <= u' && Resolve(before, t, u).Found?
    ensures Resolve(after, t, u').Found?
    decreases u
  {
    if before[t].connection.None? && after[t].connection.None? {
      ResolvableGrows(before, after, ParentOf(before[t]).value, u - {t}, u' - {t});
    }
  }

  lemma StaysResolvable(before: Threads, after: Threads, t: ThreadId)
    requires Grows(before, after) && ConnectionOf(before, t).Some?
    ensures ConnectionOf(after, t).Some?
  {
    forall x | x in before.Keys ensures x in after.Keys { assert x in before; }
    ResolvableGrows(before, after, t, before.Keys, after.Keys);
  }

  /** Every connection a thread refers to has been initialized. */
  ghost predicate KnownConnections(l: Lineage) {
    forall t :: t in l.threads && l.threads[t].connection.Some? ==> l.threads[t].connection.value in l.connections
  }

  lemma {:induction false} FoundIsKnown(l: Lineage, t: ThreadId, u: set<ThreadId>)
    requires KnownConnections(l)
    ensures Resolve(l.threads, t, u).Found? ==> Resolve(l.threads, t, u).connection in l.connections
    decreases u
  {
    if t in l.threads && t in u && ParentOf(l.threads[t]).Some? {
      FoundIsKnown(l, ParentOf(l.threads[t]).value, u - {t});
    }
  }

  /** In a state whose connections are all initialized, context is just metadata plus a
      resolvable connection. */
  lemma ContextIff(l: Lineage, t: ThreadId)
    requires KnownConnections(l)
    ensures HasContext(l, t) <==>
              t in l.threads && l.threads[t].metadata.Some? && ConnectionOf(l.threads, t).Some?
  {
    FoundIsKnown(l, t, l.threads.Keys);
  }

  /** What the lineage steps keep. */
  ghost predicate LineageStep(before: Lineage, after: Lineage) {
    && before.connections <= after.connections
    && Grows(before.threads, after.threads)
    && (KnownConnections(before) ==> KnownConnections(after))
  }

  lemma SubAgentStartedGrows(l: Lineage, t: ThreadId, metadata: ThreadMetadata, originator: int)
    ensures LineageStep(l, OnSubAgentStarted(l, t, metadata, originator))
  {
    if KnownConnections(l) && metadata.parent.Some? {
      FoundIsKnown(l, metadata.parent.value, l.threads.Keys);
    }
  }

  /** Context, once known, is never lost. */
  lemma ContextStays(before: Lineage, after: Lineage, t: ThreadId)
    requires LineageStep(before, after) && KnownConnections(before) && HasContext(before, t)
    ensures HasContext(after, t)
  {
    StaysResolvable(before.threads, after.threads, t);
    ContextIff(after, t);
  }
}
