/** Thread lineage over whole runs of the reducer. */
module LineageTheorems {
  import opened Common
  import opened ThreadLineage
  import opened TurnAssembly
  import opened ReducerModel

  /** Parents are spawned before their children: a sub-agent start names a parent of smaller rank. */
  predicate RespectsSpawnOrder(m: Message, rank: ThreadId -> nat) {
    m.SubAgentStarted? && m.metadata.parent.Some? ==> rank(m.metadata.parent.value) < rank(m.thread)
  }

  lemma NextRanked(l: Lineage, m: Message, rank: ThreadId -> nat)
    requires Ranked(l.threads, rank) && RespectsSpawnOrder(m, rank)
    ensures Ranked(LineageNext(l, m).threads, rank)
  {
  }

  lemma NextIsLineageStep(l: Lineage, m: Message)
    ensures LineageStep(l, LineageNext(l, m))
  {
    if m.SubAgentStarted? {
      SubAgentStartedGrows(l, m.thread, m.metadata, m.client);
    }
  }

  lemma {:induction false} RunRanked(ms: seq<Message>, rank: ThreadId -> nat)
    requires forall i :: 0 <= i < |ms| ==> RespectsSpawnOrder(ms[i], rank)
    ensures Ranked(Run(INITIAL, ms).state.lineage.threads, rank)
  {
    if ms != [] {
      RunRanked(ms[..|ms| - 1], rank);
      NextRanked(Run(INITIAL, ms[..|ms| - 1]).state.lineage, ms[|ms| - 1], rank);
    }
  }

  /** If sub-agent starts respect the spawn order, the ancestor walk terminates in every reachable
      state, from every thread, with the connection of the nearest ancestor-or-self that has one. */
  lemma WalkTerminatesInEveryRun(ms: seq<Message>, rank: ThreadId -> nat, t: ThreadId)
    requires forall i :: 0 <= i < |ms| ==> RespectsSpawnOrder(ms[i], rank)
    ensures
      var threads := Run(INITIAL, ms).state.lineage.threads;
      && Terminates(threads, t)
      && (forall n: nat :: var w := WalkMany(threads, Enter(threads, Some(t)), n);
            w.Done? ==> w.result == ConnectionOf(threads, t))
      && forall c :: ConnectionOf(threads, t) == Some(c) <==> exists n: nat :: IsNearest(threads, t, n, c)
  {
    RunRanked(ms, rank);
    var threads := Run(INITIAL, ms).state.lineage.threads;
    RankedTerminates(threads, rank, t);
    WalkTerminatesIff(threads, t);
    forall c: ConnectionId ensures ConnectionOf(threads, t) == Some(c) <==> exists n: nat :: IsNearest(threads, t, n, c) {
      ConnectionIsNearest(threads, t, c);
    }
  }

  lemma {:induction false} RunKnown(ms: seq<Message>)
    ensures KnownConnections(Run(INITIAL, ms).state.lineage)
  {
    if ms != [] {
      RunKnown(ms[..|ms| - 1]);
      NextIsLineageStep(Run(INITIAL, ms[..|ms| - 1]).state.lineage, ms[|ms| - 1]);
    }
  }

  /** A thread once resolvable stays resolvable, and a thread once in context stays in context,
      whatever messages follow. */
  lemma {:induction false} ContextStaysInEveryRun(before: seq<Message>, after: seq<Message>, t: ThreadId)
    ensures ConnectionOf(Run(INITIAL, before).state.lineage.threads, t).Some? ==>
              ConnectionOf(Run(INITIAL, before + after).state.lineage.threads, t).Some?
    ensures HasContext(Run(INITIAL, before).state.lineage, t) ==>
              HasContext(Run(INITIAL, before + after).state.lineage, t)
    decreases |after|
  {
    if after == [] {
      assert before + after == before;
    } else {
      var init, m := before + after[..|after| - 1], after[|after| - 1];
      assert (before + after)[..|before + after| - 1] == init;
      ContextStaysInEveryRun(before, after[..|after| - 1], t);
      RunKnown(init);
      var l := Run(INITIAL, init).state.lineage;
      NextIsLineageStep(l, m);
      if ConnectionOf(l.threads, t).Some? {
        StaysResolvable(l.threads, LineageNext(l, m).threads, t);
      }
      if HasContext(l, t) {
        ContextStays(l, LineageNext(l, m), t);
      }
    }
  }
}
