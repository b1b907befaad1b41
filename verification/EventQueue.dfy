/** The analytics client around the reducer: splitting events into requests, the
    bounded dedupe of "used" facts, and the queue loop that drives the reducer. */
module EventQueue {
  import opened Common
  import opened TurnAssembly
  import opened ReducerModel
  import opened LineageTheorems
  import opened AnalyticsReducer

  // ---- Batches --------------------------------------------------------------------

  /** Accepted-line events travel in a request of their own. */
  predicate Isolated(e: Event) {
    e.LinesAccepted?
  }

  predicate GoodBatch(b: seq<Event>) {
    b != [] && (|b| > 1 ==> forall i :: 0 <= i < |b| ==> !b[i].LinesAccepted?)
  }

  /** A way of sending `events` in order: no empty request, accepted-line events alone. */
  predicate IsSplit(batches: seq<seq<Event>>, events: seq<Event>) {
    Flatten(batches) == events && forall i :: 0 <= i < |batches| ==> GoodBatch(batches[i])
  }

  /** No other split of these events has fewer requests. */
  ghost predicate IsLeastSplit(batches: seq<seq<Event>>, events: seq<Event>) {
    IsSplit(batches, events) && forall other :: IsSplit(other, events) ==> |batches| <= |other|
  }

  /** The number of requests `events` cannot do without: one per isolated event and one per
      unbroken stretch of other events. */
  function Needed(events: seq<Event>): nat {
    if events == [] then 0 else
      var init, e := events[..|events| - 1], events[|events| - 1];
      Needed(init) + if !Isolated(e) && init != [] && !Isolated(init[|init| - 1]) then 0 else 1
  }

  lemma {:induction false} NeededConcat(a: seq<Event>, b: seq<Event>)
    ensures Needed(a + b) <= Needed(a) + Needed(b)
  {
    if b == [] {
      assert a + b == a;
    } else {
      var init := b[..|b| - 1];
      assert (a + b)[..|a + b| - 1] == a + init;
      NeededConcat(a, init);
      if init == [] {
        assert a + init == a;
      }
    }
  }

  lemma {:induction false} GoodBatchNeedsOne(b: seq<Event>)
    requires GoodBatch(b)
    ensures Needed(b) == 1
  {
    var init := b[..|b| - 1];
    if init == [] {
      assert Needed(init) == 0;
    } else {
      GoodBatchNeedsOne(init);
    }
  }

  lemma {:induction false} SplitNeeds(batches: seq<seq<Event>>)
    requires forall i :: 0 <= i < |batches| ==> GoodBatch(batches[i])
    ensures Needed(Flatten(batches)) <= |batches|
  {
    if batches != [] {
      var init, last := batches[..|batches| - 1], batches[|batches| - 1];
      SplitNeeds(init);
      GoodBatchNeedsOne(last);
      NeededConcat(Flatten(init), last);
    }
  }

  /** What the loop has made of the events `done`: finished requests and one still open. */
  ghost predicate Partial(batches: seq<seq<Event>>, current: seq<Event>, done: seq<Event>) {
    && Flatten(batches) + current == done
    && (forall j :: 0 <= j < |batches| ==> GoodBatch(batches[j]))
    && (forall j :: 0 <= j < |current| ==> !Isolated(current[j]))
    && (current == [] ==> done == [] || Isolated(done[|done| - 1]))
    && |batches| + (if current == [] then 0 else 1) == Needed(done)
  }

  /** Finishing the open request, if there is one. */
  function Closed(batches: seq<seq<Event>>, current: seq<Event>): seq<seq<Event>> {
    if current == [] then batches else batches + [current]
  }

  lemma ClosedIsSplit(batches: seq<seq<Event>>, current: seq<Event>, done: seq<Event>)
    requires Partial(batches, current, done)
    ensures IsSplit(Closed(batches, current), done) && |Closed(batches, current)| == Needed(done)
  {
    FlattenSnoc(batches, current);
  }

  lemma PartialPlain(batches: seq<seq<Event>>, current: seq<Event>, done: seq<Event>, e: Event)
    requires Partial(batches, current, done) && !Isolated(e)
    ensures Partial(batches, current + [e], done + [e])
  {
    assert (done + [e])[..|done|] == done;
    assert Flatten(batches) + (current + [e]) == done + [e];
    assert current != [] ==> done[|done| - 1] == current[|current| - 1];
  }

  lemma PartialIsolated(batches: seq<seq<Event>>, current: seq<Event>, done: seq<Event>, e: Event)
    requires Partial(batches, current, done) && Isolated(e)
    ensures Partial(Closed(batches, current) + [[e]], [], done + [e])
  {
    assert (done + [e])[..|done|] == done;
    ClosedIsSplit(batches, current, done);
    FlattenSnoc(Closed(batches, current), [e]);
    assert done + [e] + [] == done + [e];
  }

  /** Split events into requests: in order, isolated events alone, and with as few requests as any
      split of these events can have. */
  method TrackEventRequestBatches(events: seq<Event>) returns (batches: seq<seq<Event>>)
    ensures IsLeastSplit(batches, events)
  {
    batches := [];
    var current := [];
    for i := 0 to |events|
      invariant Partial(batches, current, events[..i])
    {
      assert events[..i + 1] == events[..i] + [events[i]];
      if Isolated(events[i]) {
        PartialIsolated(batches, current, events[..i], events[i]);
        if current != [] {
          batches := batches + [current];
          current := [];
        }
        batches := batches + [[events[i]]];
      } else {
        PartialPlain(batches, current, events[..i], events[i]);
        current := current + [events[i]];
      }
    }
    assert events[..|events|] == events;
    ClosedIsSplit(batches, current, events);
    if current != [] {
      batches := batches + [current];
    }
    forall other | IsSplit(other, events) ensures Needed(events) <= |other| {
      SplitNeeds(other);
    }
  }

  // ---- Bounded dedupe -------------------------------------------------------------

  const ANALYTICS_EVENT_DEDUPE_MAX_KEYS: nat := 4096

  type UsedKey = (TurnId, int)

  /** One dedupe set of the queue: the keys reported since it was last cleared. */
  class EmittedKeys {
    var emitted: set<UsedKey>

    constructor ()
      ensures emitted == {}
    {
      emitted := {};
    }

    /** Whether the use of an app is to be reported; an app without a connector always is. */
    method ShouldEnqueueAppUsed(turn: TurnId, connector: Option<int>) returns (answer: bool)
      modifies this
      ensures
        var call := if connector.Some? then Some((turn, connector.value)) else None;
        emitted == Remember(old(emitted), call, false) && answer == Accepts(old(emitted), call, false)
    {
      if connector.None? {
        return true;
      }
      if |emitted| >= ANALYTICS_EVENT_DEDUPE_MAX_KEYS {
        emitted := {};
      }
      answer := (turn, connector.value) !in emitted;
      emitted := emitted + {(turn, connector.value)};
    }

    /** Whether the use of a plugin is to be reported, by its own or its remote identifier. */
    method ShouldEnqueuePluginUsed(turn: TurnId, plugin: Option<int>, remote: Option<int>) returns (answer: bool)
      modifies this
      ensures
        var id := OrElse(plugin, remote);
        var call := if id.Some? then Some((turn, id.value)) else None;
        emitted == Remember(old(emitted), call, true) && answer == Accepts(old(emitted), call, true)
    {
      if |emitted| >= ANALYTICS_EVENT_DEDUPE_MAX_KEYS {
        emitted := {};
      }
      var id := OrElse(plugin, remote);
      if id.None? {
        return true;
      }
      answer := (turn, id.value) !in emitted;
      emitted := emitted + {(turn, id.value)};
    }
  }

  /** The keys in force for a call: a full set is dropped first, by app calls only when they carry
      a key, by plugin calls always. */
  function InForce(emitted: set<UsedKey>, call: Option<UsedKey>, plugin: bool): set<UsedKey> {
    if |emitted| >= ANALYTICS_EVENT_DEDUPE_MAX_KEYS && (plugin || call.Some?) then {} else emitted
  }

  function Remember(emitted: set<UsedKey>, call: Option<UsedKey>, plugin: bool): set<UsedKey> {
    InForce(emitted, call, plugin) + if call.Some? then {call.value} else {}
  }

  predicate Accepts(emitted: set<UsedKey>, call: Option<UsedKey>, plugin: bool) {
    call.None? || call.value !in InForce(emitted, call, plugin)
  }

  /** The set after a run of calls. */
  function After(calls: seq<Option<UsedKey>>, plugin: bool): set<UsedKey> {
    if calls == [] then {} else Remember(After(calls[..|calls| - 1], plugin), calls[|calls| - 1], plugin)
  }

  /** The keys of a run of calls: what an unbounded set would hold. */
  function KeysOf(calls: seq<Option<UsedKey>>): set<UsedKey> {
    if calls == [] then {} else
      KeysOf(calls[..|calls| - 1]) + if calls[|calls| - 1].Some? then {calls[|calls| - 1].value} else {}
  }

  /** The call, if any before the end, at which the set in force was started, stated on the calls:
      a call starts a new set when the calls since the last start already carry 4096 keys. */
  function Start(calls: seq<Option<UsedKey>>, plugin: bool): (i: nat)
    ensures i <= |calls|
  {
    if calls == [] then 0 else
      var n := |calls| - 1;
      var before := Start(calls[..n], plugin);
      if |KeysOf(calls[before..n])| >= ANALYTICS_EVENT_DEDUPE_MAX_KEYS && (plugin || calls[n].Some?) then n else before
  }

  lemma {:induction false} KeysOfSnoc(calls: seq<Option<UsedKey>>, call: Option<UsedKey>)
    ensures KeysOf(calls + [call]) == KeysOf(calls) + if call.Some? then {call.value} else {}
  {
    assert (calls + [call])[..|calls|] == calls;
  }

  lemma {:induction false} AfterBounded(calls: seq<Option<UsedKey>>, plugin: bool)
    ensures |After(calls, plugin)| <= ANALYTICS_EVENT_DEDUPE_MAX_KEYS
  {
    if calls != [] {
      AfterBounded(calls[..|calls| - 1], plugin);
    }
  }

  /** Where the set in force starts once one more call is there, given the keys since the last start. */
  lemma StartSnoc(calls: seq<Option<UsedKey>>, call: Option<UsedKey>, plugin: bool, before: nat, since: set<UsedKey>)
    requires before == Start(calls, plugin) && since == KeysOf(calls[before..])
    ensures Start(calls + [call], plugin) ==
            if |since| >= ANALYTICS_EVENT_DEDUPE_MAX_KEYS && (plugin || call.Some?) then |calls| else before
  {
    var n := |calls|;
    assert (calls + [call])[..n] == calls;
    assert (calls + [call])[before..n] == calls[before..];
  }

  /** The keys in force for a call are those since the start it belongs to. */
  lemma InForceSince(calls: seq<Option<UsedKey>>, call: Option<UsedKey>, plugin: bool, before: nat, since: set<UsedKey>, now: nat)
    requires before <= |calls| && since == KeysOf(calls[before..])
    requires now == if |since| >= ANALYTICS_EVENT_DEDUPE_MAX_KEYS && (plugin || call.Some?) then |calls| else before
    ensures InForce(since, call, plugin) == KeysOf(calls[now..])
  {
    assert calls[|calls|..] == [];
  }

  lemma StartNext(calls: seq<Option<UsedKey>>, call: Option<UsedKey>, plugin: bool)
    requires After(calls, plugin) == KeysOf(calls[Start(calls, plugin)..])
    ensures Start(calls + [call], plugin) <= |calls|
    ensures InForce(After(calls, plugin), call, plugin) == KeysOf(calls[Start(calls + [call], plugin)..])
  {
    var before, since := Start(calls, plugin), After(calls, plugin);
    StartSnoc(calls, call, plugin, before, since);
    InForceSince(calls, call, plugin, before, since, Start(calls + [call], plugin));
  }

  lemma AfterNext(calls: seq<Option<UsedKey>>, call: Option<UsedKey>, plugin: bool, now: nat)
    requires now <= |calls| && InForce(After(calls, plugin), call, plugin) == KeysOf(calls[now..])
    ensures After(calls + [call], plugin) == KeysOf((calls + [call])[now..])
  {
    assert (calls + [call])[..|calls|] == calls;
    assert (calls + [call])[now..] == calls[now..] + [call];
    KeysOfSnoc(calls[now..], call);
  }

  /** The bounded set holds exactly the keys of the calls since its start. */
  lemma {:induction false} AfterIsSinceStart(calls: seq<Option<UsedKey>>, plugin: bool)
    ensures After(calls, plugin) == KeysOf(calls[Start(calls, plugin)..])
  {
    if calls == [] {
      assert calls[0..] == [];
    } else {
      var init, last := calls[..|calls| - 1], calls[|calls| - 1];
      assert calls == init + [last];
      AfterIsSinceStart(init, plugin);
      StartNext(init, last, plugin);
      AfterNext(init, last, plugin, Start(init + [last], plugin));
    }
  }

  lemma {:induction false} KeysOfGrow(calls: seq<Option<UsedKey>>, i: nat, j: nat)
    requires i <= j <= |calls|
    ensures KeysOf(calls[i..j]) <= KeysOf(calls)
    decreases |calls|
  {
    if j < |calls| {
      var init := calls[..|calls| - 1];
      assert init[i..j] == calls[i..j];
      KeysOfGrow(init, i, j);
    } else if i < j {
      var init := calls[..j - 1];
      assert calls[i..j] == init[i..j - 1] + [calls[j - 1]];
      KeysOfSnoc(init[i..j - 1], calls[j - 1]);
      KeysOfGrow(init, i, j - 1);
    } else {
      assert calls[i..j] == [];
    }
  }

  /** Fewer than 4096 distinct keys never start a new set. */
  lemma {:induction false} FewKeysNeverRestart(calls: seq<Option<UsedKey>>, plugin: bool)
    requires |KeysOf(calls)| < ANALYTICS_EVENT_DEDUPE_MAX_KEYS
    ensures Start(calls, plugin) == 0
  {
    if calls != [] {
      var n := |calls| - 1;
      assert calls[..n] == calls[0..n];
      KeysOfGrow(calls, 0, n);
      SubsetSmaller(KeysOf(calls[..n]), KeysOf(calls));
      FewKeysNeverRestart(calls[..n], plugin);
    }
  }

  lemma KeysSince(calls: seq<Option<UsedKey>>, start: nat)
    requires start <= |calls|
    ensures KeysOf(calls[start..]) <= KeysOf(calls)
  {
    assert calls[start..] == calls[start..|calls|];
    KeysOfGrow(calls, start, |calls|);
  }

  lemma KeysInForce(calls: seq<Option<UsedKey>>, call: Option<UsedKey>, plugin: bool, start: nat)
    requires start == Start(calls + [call], plugin)
    ensures start <= |calls|
    ensures InForce(After(calls, plugin), call, plugin) == KeysOf(calls[start..]) <= KeysOf(calls)
  {
    AfterIsSinceStart(calls, plugin);
    StartNext(calls, call, plugin);
    KeysSince(calls, start);
  }

  lemma FewKeysInForce(calls: seq<Option<UsedKey>>, call: Option<UsedKey>, plugin: bool)
    requires |KeysOf(calls)| < ANALYTICS_EVENT_DEDUPE_MAX_KEYS
    ensures InForce(After(calls, plugin), call, plugin) == KeysOf(calls)
  {
    FewKeysNeverRestart(calls, plugin);
    AfterIsSinceStart(calls, plugin);
    assert calls[0..] == calls;
  }

  /** The answer to the next call, against an unbounded dedupe. It never suppresses what the
      unbounded one accepts; the two differ exactly when the key was last reported before the set
      in force was started; and they never differ while fewer than 4096 keys have been seen. */
  lemma DedupeAnswers(calls: seq<Option<UsedKey>>, call: Option<UsedKey>, plugin: bool)
    ensures
      var bounded := Accepts(After(calls, plugin), call, plugin);
      var unbounded := call.None? || call.value !in KeysOf(calls);
      var start := Start(calls + [call], plugin);
      && (unbounded ==> bounded)
      && (bounded != unbounded <==>
          call.Some? && call.value in KeysOf(calls) && call.value !in KeysOf(calls[start..]))
      && (|KeysOf(calls)| < ANALYTICS_EVENT_DEDUPE_MAX_KEYS ==> bounded == unbounded)
  {
    KeysInForce(calls, call, plugin, Start(calls + [call], plugin));
    if |KeysOf(calls)| < ANALYTICS_EVENT_DEDUPE_MAX_KEYS {
      FewKeysInForce(calls, call, plugin);
    }
  }

  /** Where the bound shows: a key that a full set holds is accepted again. */
  lemma FullSetForgets(calls: seq<Option<UsedKey>>, call: Option<UsedKey>, plugin: bool)
    requires Start(calls, plugin) == 0 && |KeysOf(calls)| >= ANALYTICS_EVENT_DEDUPE_MAX_KEYS
    requires call.Some? && call.value in KeysOf(calls)
    ensures call.value in After(calls, plugin) && Accepts(After(calls, plugin), call, plugin)
  {
    AfterIsSinceStart(calls, plugin);
    assert calls[0..] == calls;
  }

  /** Calls with `n` different keys, none of which has started a new set. */
  predicate Filled(calls: seq<Option<UsedKey>>, n: nat, plugin: bool) {
    && |KeysOf(calls)| == n && Start(calls, plugin) == 0
    && forall k :: k in KeysOf(calls) ==> k.1 < n
  }

  lemma FillNext(calls: seq<Option<UsedKey>>, n: nat, plugin: bool)
    requires Filled(calls, n, plugin) && n < ANALYTICS_EVENT_DEDUPE_MAX_KEYS
    ensures Filled(calls + [Some((0, n))], n + 1, plugin)
  {
    assert calls[0..] == calls;
    KeysOfSnoc(calls, Some((0, n)));
    StartSnoc(calls, Some((0, n)), plugin, 0, KeysOf(calls));
  }

  lemma {:induction false} CanFill(n: nat, plugin: bool) returns (calls: seq<Option<UsedKey>>)
    requires n <= ANALYTICS_EVENT_DEDUPE_MAX_KEYS
    ensures Filled(calls, n, plugin)
  {
    if n == 0 {
      calls := [];
    } else {
      var before := CanFill(n - 1, plugin);
      FillNext(before, n - 1, plugin);
      calls := before + [Some((0, n - 1))];
    }
  }

  /** The bound does show: after some calls a key is reported a second time, which an unbounded
      dedupe would not do. */
  lemma RepeatIsReported(plugin: bool) returns (calls: seq<Option<UsedKey>>, key: UsedKey)
    ensures |KeysOf(calls)| == ANALYTICS_EVENT_DEDUPE_MAX_KEYS
    ensures key in KeysOf(calls) && Accepts(After(calls, plugin), Some(key), plugin)
  {
    calls := CanFill(ANALYTICS_EVENT_DEDUPE_MAX_KEYS, plugin);
    key :| key in KeysOf(calls);
    FullSetForgets(calls, Some(key), plugin);
  }

  // ---- The queue loop -------------------------------------------------------------

  /** What each message of a run makes the reducer emit. */
  function EmittedBy(ms: seq<Message>): seq<seq<Event>> {
    if ms == [] then [] else
      EmittedBy(ms[..|ms| - 1]) + [Step(Run(INITIAL, ms[..|ms| - 1]).state, ms[|ms| - 1]).out]
  }

  lemma EmittedBySnoc(ms: seq<Message>, m: Message)
    ensures EmittedBy(ms + [m]) == EmittedBy(ms) + [Step(Run(INITIAL, ms).state, m).out]
  {
    assert (ms + [m])[..|ms|] == ms;
  }

  /** The requests come in groups, one per message; each group sends what its message emitted, in as
      few requests as possible. */
  ghost predicate SentPerMessage(emitted: seq<seq<Event>>, groups: seq<seq<seq<Event>>>, requests: seq<seq<Event>>) {
    && |groups| == |emitted| && requests == Flatten(groups)
    && forall i :: 0 <= i < |groups| ==> IsLeastSplit(groups[i], emitted[i])
  }

  lemma SentOneMore(emitted: seq<seq<Event>>, groups: seq<seq<seq<Event>>>, requests: seq<seq<Event>>, events: seq<Event>, group: seq<seq<Event>>)
    requires SentPerMessage(emitted, groups, requests) && IsLeastSplit(group, events)
    ensures SentPerMessage(emitted + [events], groups + [group], requests + group)
  {
    FlattenSnoc(groups, group);
  }

  lemma SplitMore(requests: seq<seq<Event>>, events: seq<Event>, group: seq<seq<Event>>, more: seq<Event>)
    requires IsSplit(requests, events) && IsSplit(group, more)
    ensures IsSplit(requests + group, events + more)
  {
    FlattenConcat(requests, group);
  }

  /** The reducer can take message `i` after the ones before it. */
  ghost predicate Ready(ms: seq<Message>, rank: ThreadId -> nat, i: nat)
    requires i < |ms|
  {
    Enabled(Run(INITIAL, ms[..i]).state, ms[i]) && RespectsSpawnOrder(ms[i], rank)
  }

  ghost predicate AllReady(ms: seq<Message>, rank: ThreadId -> nat) {
    forall i :: 0 <= i < |ms| ==> Ready(ms, rank, i)
  }

  /** The reducer has taken the first `i` messages, and everything it emitted is sent, message by message. */
  ghost predicate AllSent(reducer: Reducer, ms: seq<Message>, i: nat, requests: seq<seq<Event>>, groups: seq<seq<seq<Event>>>)
    reads reducer
  {
    && AllReady(ms, reducer.rank) && i <= |ms| && reducer.history == ms[..i] && reducer.Valid()
    && IsSplit(requests, reducer.emitted) && SentPerMessage(EmittedBy(reducer.history), groups, requests)
  }

  lemma ReadyForNext(reducer: Reducer, ms: seq<Message>, i: nat)
    requires reducer.Valid() && i < |ms| && reducer.history == ms[..i] && AllReady(ms, reducer.rank)
    ensures Enabled(reducer.View(), ms[i]) && RespectsSpawnOrder(ms[i], reducer.rank)
    ensures reducer.history + [ms[i]] == ms[..i + 1]
  {
    assert Ready(ms, reducer.rank, i);
  }

  /** One turn of the queue loop: take the next message and send what it emits. */
  method SendNext(reducer: Reducer, ms: seq<Message>, i: nat, requests: seq<seq<Event>>, ghost groups: seq<seq<seq<Event>>>)
    returns (sent: seq<seq<Event>>, ghost more: seq<seq<seq<Event>>>)
    requires AllSent(reducer, ms, i, requests, groups) && i < |ms|
    modifies reducer
    ensures AllSent(reducer, ms, i + 1, sent, more)
  {
    var m := ms[i];
    ReadyForNext(reducer, ms, i);
    ghost var before, emitted := reducer.emitted, EmittedBy(reducer.history);
    EmittedBySnoc(reducer.history, m);
    var events := reducer.Ingest(m);
    var batches := TrackEventRequestBatches(events);
    SplitMore(requests, before, batches, events);
    SentOneMore(emitted, groups, requests, events, batches);
    sent, more := requests + batches, groups + [batches];
  }

  lemma NothingToSend(reducer: Reducer, ms: seq<Message>)
    requires reducer.Valid() && reducer.history == [] && AllReady(ms, reducer.rank)
    ensures AllSent(reducer, ms, 0, [], [])
  {
  }

  lemma SentOverall(reducer: Reducer, ms: seq<Message>, requests: seq<seq<Event>>, groups: seq<seq<seq<Event>>>)
    requires AllSent(reducer, ms, |ms|, requests, groups)
    ensures SentPerMessage(EmittedBy(ms), groups, requests) && IsSplit(requests, Run(INITIAL, ms).out)
  {
    assert ms[..|ms|] == ms;
  }

  lemma EnabledIsReady(ms: seq<Message>, rank: ThreadId -> nat)
    requires EnabledRun(INITIAL, ms) && forall i :: 0 <= i < |ms| ==> RespectsSpawnOrder(ms[i], rank)
    ensures AllReady(ms, rank)
  {
    forall i | 0 <= i < |ms| ensures Ready(ms, rank, i) {
      EnabledAt(INITIAL, ms, i);
    }
  }

  /** The queue over a whole run: take the messages one by one and send the events of each before the
      next. What is sent is what the reducer emits, in order, in well-formed requests, and no request
      mixes the events of two messages. */
  method Drive(ms: seq<Message>, ghost rank: ThreadId -> nat) returns (requests: seq<seq<Event>>, ghost groups: seq<seq<seq<Event>>>)
    requires EnabledRun(INITIAL, ms)
    requires forall i :: 0 <= i < |ms| ==> RespectsSpawnOrder(ms[i], rank)
    ensures SentPerMessage(EmittedBy(ms), groups, requests)
    ensures IsSplit(requests, Run(INITIAL, ms).out)
  {
    var reducer := new Reducer(rank);
    EnabledIsReady(ms, rank);
    NothingToSend(reducer, ms);
    requests, groups := [], [];
    for i := 0 to |ms|
      invariant fresh(reducer) && AllSent(reducer, ms, i, requests, groups)
    {
      requests, groups := SendNext(reducer, ms, i, requests, groups);
    }
    SentOverall(reducer, ms, requests, groups);
  }
}
