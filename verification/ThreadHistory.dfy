/** What the reducer knows of connections and threads, told from the messages of a run. */
module ThreadHistory {
  import opened Common
  import opened ThreadLineage
  import opened TurnAssembly
  import opened ReducerModel

  // ---- Connections ----------------------------------------------------------------

  lemma ConnectionsNext(l: Lineage, m: Message)
    ensures LineageNext(l, m).connections == if m.Initialize? then l.connections + {m.connection} else l.connections
  {
  }

  /** A connection is initialized exactly if a message initialized it. */
  lemma {:induction false} InitializedIff(ms: seq<Message>, c: ConnectionId)
    ensures c in Run(INITIAL, ms).state.lineage.connections <==> Initialize(c) in ms
  {
    if ms != [] {
      InitializedIff(ms[..|ms| - 1], c);
      ConnectionsNext(Run(INITIAL, ms[..|ms| - 1]).state.lineage, ms[|ms| - 1]);
      assert ms == ms[..|ms| - 1] + [ms[|ms| - 1]];
    }
  }

  // ---- Threads --------------------------------------------------------------------

  /** The thread is started, resumed or forked on a connection that is initialized. */
  predicate Opens(l: Lineage, m: Message, t: ThreadId) {
    m.ThreadOpened? && m.thread == t && m.connection in l.connections
  }

  predicate Spawns(m: Message, t: ThreadId) {
    m.SubAgentStarted? && m.thread == t
  }

  /** The connection a sub-agent inherits: the one its parent resolves to. */
  function Inherits(l: Lineage, m: Message): Option<ConnectionId>
    requires m.SubAgentStarted?
  {
    if m.metadata.parent.None? then None else ConnectionOf(l.threads, m.metadata.parent.value)
  }

  /** The last opening of the thread. */
  function OpenedAt(ms: seq<Message>, t: ThreadId): (j: Option<nat>)
    ensures j.Some? ==> j.value < |ms| && ms[j.value].ThreadOpened? && ms[j.value].thread == t
  {
    if ms == [] then None
    else if Opens(Run(INITIAL, ms[..|ms| - 1]).state.lineage, ms[|ms| - 1], t) then Some(|ms| - 1)
    else OpenedAt(ms[..|ms| - 1], t)
  }

  /** The first start of the thread as a sub-agent. */
  function SpawnedAt(ms: seq<Message>, t: ThreadId): (j: Option<nat>)
    ensures j.Some? ==> j.value < |ms| && Spawns(ms[j.value], t)
  {
    if ms == [] then None else
      var before := SpawnedAt(ms[..|ms| - 1], t);
      if before.Some? then before else if Spawns(ms[|ms| - 1], t) then Some(|ms| - 1) else None
  }

  /** The first connection inherited by a start of the thread as a sub-agent. */
  function FirstInherited(ms: seq<Message>, t: ThreadId): Option<ConnectionId> {
    if ms == [] then None else
      var before := FirstInherited(ms[..|ms| - 1], t);
      if before.Some? then before
      else if Spawns(ms[|ms| - 1], t) then Inherits(Run(INITIAL, ms[..|ms| - 1]).state.lineage, ms[|ms| - 1])
      else None
  }

  function Metadata(ms: seq<Message>, t: ThreadId): Option<ThreadMetadata> {
    var last, first := OpenedAt(ms, t), SpawnedAt(ms, t);
    if last.Some? then Some(ms[last.value].metadata)
    else if first.Some? then Some(ms[first.value].metadata)
    else None
  }

  function Connection(ms: seq<Message>, t: ThreadId): Option<ConnectionId> {
    var last := OpenedAt(ms, t);
    if last.Some? then Some(ms[last.value].connection) else FirstInherited(ms, t)
  }

  function Of(l: Lineage, t: ThreadId): ThreadState {
    if t in l.threads then l.threads[t] else EMPTY_THREAD
  }

  lemma ThreadNext(l: Lineage, m: Message, t: ThreadId)
    ensures
      var before, after := Of(l, t), Of(LineageNext(l, m), t);
      if Opens(l, m, t) then after.connection == Some(m.connection) && after.metadata == Some(m.metadata)
      else if Spawns(m, t)
      then after.connection == OrElse(before.connection, Inherits(l, m)) && after.metadata == OrElse(before.metadata, Some(m.metadata))
      else after == before
  {
  }

  lemma HistoryNext(ms: seq<Message>, t: ThreadId)
    requires ms != []
    ensures
      var init, m := ms[..|ms| - 1], ms[|ms| - 1];
      var l := Run(INITIAL, init).state.lineage;
      if Opens(l, m, t) then Connection(ms, t) == Some(m.connection) && Metadata(ms, t) == Some(m.metadata)
      else if Spawns(m, t)
      then Connection(ms, t) == OrElse(Connection(init, t), Inherits(l, m)) && Metadata(ms, t) == OrElse(Metadata(init, t), Some(m.metadata))
      else Connection(ms, t) == Connection(init, t) && Metadata(ms, t) == Metadata(init, t)
  {
  }

  /** In every reachable state a thread has the metadata and the connection of its last opening; one
      never opened has the metadata of its first start as a sub-agent and the first connection it
      inherited. */
  lemma {:induction false} ThreadsTellHistory(ms: seq<Message>, t: ThreadId)
    ensures Of(Run(INITIAL, ms).state.lineage, t).metadata == Metadata(ms, t)
    ensures Of(Run(INITIAL, ms).state.lineage, t).connection == Connection(ms, t)
  {
    if ms != [] {
      ThreadsTellHistory(ms[..|ms| - 1], t);
      HistoryNext(ms, t);
      ThreadNext(Run(INITIAL, ms[..|ms| - 1]).state.lineage, ms[|ms| - 1], t);
    }
  }

  /** The originator of a thread: the last one an opening gave, or else the client of its first start
      as a sub-agent. */
  function OriginatorGiven(ms: seq<Message>, t: ThreadId): Option<int> {
    if ms == [] then None else
      var before, m := OriginatorGiven(ms[..|ms| - 1], t), ms[|ms| - 1];
      if Opens(Run(INITIAL, ms[..|ms| - 1]).state.lineage, m, t) && m.originator.Some? then m.originator
      else if before.None? && Spawns(m, t) then Some(m.client)
      else before
  }

  lemma OriginatorNext(l: Lineage, m: Message, t: ThreadId)
    ensures
      var before, after := Of(l, t).originator, Of(LineageNext(l, m), t).originator;
      after == if Opens(l, m, t) && m.originator.Some? then m.originator
               else if before.None? && Spawns(m, t) then Some(m.client) else before
  {
  }

  lemma {:induction false} OriginatorTellsHistory(ms: seq<Message>, t: ThreadId)
    ensures Of(Run(INITIAL, ms).state.lineage, t).originator == OriginatorGiven(ms, t)
  {
    if ms != [] {
      OriginatorTellsHistory(ms[..|ms| - 1], t);
      OriginatorNext(Run(INITIAL, ms[..|ms| - 1]).state.lineage, ms[|ms| - 1], t);
    }
  }
}
