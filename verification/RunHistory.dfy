/** What the reducer's pending tables hold, told from the messages of a run alone: the client
    requests, approvals and tool items that were opened and not closed since. */
module RunHistory {
  import opened Common
  import opened Events
  import opened ThreadLineage
  import opened ReviewLedger
  import opened TurnAssembly
  import opened ReducerModel

  // ---- Client requests ------------------------------------------------------------

  /** The message is a client request with this key. */
  predicate Requests(m: Message, c: ConnectionId, r: RequestId) {
    (m.TurnStartRequested? || m.TurnSteerRequested? || m.InterruptRequested?) && m.connection == c && m.request == r
  }

  /** The message answers or fails the client request with this key. */
  predicate Settled(m: Message, c: ConnectionId, r: RequestId) {
    && (m.TurnStartAnswered? || m.TurnSteerAnswered? || m.InterruptAnswered? || m.RequestFailed?)
    && m.connection == c && m.request == r
  }

  /** The last request with this key, unless it was settled since. */
  function RequestedAt(ms: seq<Message>, c: ConnectionId, r: RequestId): (j: Option<nat>)
    ensures j.Some? ==> j.value < |ms| && Requests(ms[j.value], c, r)
  {
    if ms == [] then None
    else if Requests(ms[|ms| - 1], c, r) then Some(|ms| - 1)
    else if Settled(ms[|ms| - 1], c, r) then None
    else RequestedAt(ms[..|ms| - 1], c, r)
  }

  /** What is kept of a client request. */
  predicate KeptOf(m: Message, kept: RequestState) {
    match m
    case TurnStartRequested(_, _, thread, images) => kept.TurnStart? && kept.thread == thread && kept.images == images
    case TurnSteerRequested(_, _, thread, expected, images) =>
      kept.TurnSteer? && kept.thread == thread && kept.expected == expected && kept.images == images
    case InterruptRequested(_, _, turn, atMs) => kept.Interrupt? && kept.turn == turn && kept.atMs == atMs
    case _ => false
  }

  ghost predicate RequestTold(ms: seq<Message>, requests: Requests, c: ConnectionId, r: RequestId) {
    var j, kept := RequestedAt(ms, c, r), Lookup(requests, (c, r));
    (j.Some? <==> kept.Some?) && (j.Some? ==> KeptOf(ms[j.value], kept.value))
  }

  lemma RequestNext(ms: seq<Message>, requests: Requests, c: ConnectionId, r: RequestId)
    requires ms != [] && RequestTold(ms[..|ms| - 1], requests, c, r)
    ensures RequestTold(ms, RequestsNext(requests, ms[|ms| - 1]), c, r)
  {
  }

  /** In every reachable state a client request is pending exactly if it was made and not settled
      since, with what was asked for. */
  lemma {:induction false} RequestsTellHistory(ms: seq<Message>, c: ConnectionId, r: RequestId)
    ensures RequestTold(ms, Run(INITIAL, ms).state.requests, c, r)
  {
    if ms != [] {
      RequestsTellHistory(ms[..|ms| - 1], c, r);
      RequestNext(ms, Run(INITIAL, ms[..|ms| - 1]).state.requests, c, r);
    }
  }

  // ---- Approvals ------------------------------------------------------------------

  predicate Registers(m: Message, id: RequestId) {
    m.ApprovalRequested? && m.request == id && 0 <= m.startedAt
  }

  predicate Resolves(m: Message, id: RequestId) {
    (m.ApprovalAnswered? || m.ApprovalAborted?) && m.request == id
  }

  /** The last registration of the approval, unless it was resolved since. */
  function RegisteredAt(ms: seq<Message>, id: RequestId): (j: Option<nat>)
    ensures j.Some? ==> j.value < |ms| && Registers(ms[j.value], id)
  {
    if ms == [] then None
    else if Registers(ms[|ms| - 1], id) then Some(|ms| - 1)
    else if Resolves(ms[|ms| - 1], id) then None
    else RegisteredAt(ms[..|ms| - 1], id)
  }

  /** What an approval request asks. */
  function AskedBy(m: Message): PendingReview
    requires m.ApprovalRequested? && 0 <= m.startedAt
  {
    PendingReview(m.thread, m.turn, Some(m.reviewed), m.subject, m.startedAt, m.additionalPermissions, m.networkAccess)
  }

  ghost predicate ApprovalTold(ms: seq<Message>, pending: map<RequestId, PendingReview>, id: RequestId) {
    var j := RegisteredAt(ms, id);
    Lookup(pending, id) == if j.Some? then Some(AskedBy(ms[j.value])) else None
  }

  lemma ApprovalNext(ms: seq<Message>, s: State, id: RequestId)
    requires ms != [] && ApprovalTold(ms[..|ms| - 1], s.ledger.pendingReviews, id)
    ensures ApprovalTold(ms, LedgerNext(s, ms[|ms| - 1]).pendingReviews, id)
  {
  }

  /** In every reachable state an approval is pending exactly if it was registered and not resolved
      since, with what its request said. */
  lemma {:induction false} ApprovalsTellHistory(ms: seq<Message>, id: RequestId)
    ensures ApprovalTold(ms, Run(INITIAL, ms).state.ledger.pendingReviews, id)
  {
    if ms != [] {
      ApprovalsTellHistory(ms[..|ms| - 1], id);
      ApprovalNext(ms, Run(INITIAL, ms[..|ms| - 1]).state, id);
    }
  }

  // ---- Tool items -----------------------------------------------------------------

  /** The items that are reported as tool calls. */
  predicate IsTool(kind: ItemKind) {
    || kind.CommandItem? || kind.FileChangeItem? || kind.McpItem? || kind.DynamicItem? || kind.CollabItem?
    || kind.WebSearchItem? || kind.ImageItem?
  }

  /** A tool item starts, at a valid time. */
  predicate Starts(m: Message, k: ItemKey) {
    && m.ItemStarted? && m.thread == k.thread && m.turn == k.turn && m.item.id == k.item
    && IsTool(m.item.kind) && 0 <= m.startedAt
  }

  /** A tool item completes in a turn the reducer knows. */
  predicate Completes(s: State, m: Message, k: ItemKey) {
    && m.ItemCompleted? && m.thread == k.thread && m.turn == k.turn && m.item.id == k.item
    && IsTool(m.item.kind) && m.turn in s.turns
  }

  /** The last start of the item, unless it completed since. */
  function RunningSince(ms: seq<Message>, k: ItemKey): (j: Option<nat>)
    ensures j.Some? ==> j.value < |ms| && Starts(ms[j.value], k)
  {
    if ms == [] then None
    else if Starts(ms[|ms| - 1], k) then Some(|ms| - 1)
    else if Completes(Run(INITIAL, ms[..|ms| - 1]).state, ms[|ms| - 1], k) then None
    else RunningSince(ms[..|ms| - 1], k)
  }

  predicate ItemTold(ms: seq<Message>, started: Started, k: ItemKey) {
    var j := RunningSince(ms, k);
    Lookup(started, k) == if j.Some? then Some(ms[j.value].startedAt) else None
  }

  lemma StartedChanges(s: State, m: Message, k: ItemKey)
    ensures Lookup(StartedNext(s, m), k) ==
            if Starts(m, k) then Some(m.startedAt) else if Completes(s, m, k) then None else Lookup(s.started, k)
  {
  }

  /** In every reachable state an item is running exactly if it was started and did not complete
      since, with the time of that start. */
  lemma {:induction false} ItemsTellHistory(ms: seq<Message>, k: ItemKey)
    ensures ItemTold(ms, Run(INITIAL, ms).state.started, k)
  {
    if ms != [] {
      ItemsTellHistory(ms[..|ms| - 1], k);
      StartedChanges(Run(INITIAL, ms[..|ms| - 1]).state, ms[|ms| - 1], k);
    }
  }

  // ---- Reported items and finished reviews ----------------------------------------

  /** A completed item that is reported: a running tool of a known turn that ends at a valid time on a
      thread in context. */
  predicate Reports(ms: seq<Message>, m: Message, k: ItemKey) {
    var s := Run(INITIAL, ms).state;
    Completes(s, m, k) && RunningSince(ms, k).Some? && 0 <= m.completedAt && HasContext(s.lineage, k.thread)
  }

  lemma SettlesIff(s: State, m: Message, k: ItemKey)
    ensures Completes(s, m, k) && k in s.started && 0 <= m.completedAt && HasContext(s.lineage, k.thread) <==>
            m.ItemCompleted? && KeyOfItem(m.thread, m.turn, m.item) == k && Settles(s, m)
  {
  }

  lemma ItemRunsIff(ms: seq<Message>, k: ItemKey)
    ensures RunningSince(ms, k).Some? <==> k in Run(INITIAL, ms).state.started
  {
    ItemsTellHistory(ms, k);
  }

  lemma ReportsIff(ms: seq<Message>, m: Message, k: ItemKey)
    ensures Reports(ms, m, k) <==>
            m.ItemCompleted? && KeyOfItem(m.thread, m.turn, m.item) == k && Settles(Run(INITIAL, ms).state, m)
  {
    ItemRunsIff(ms, k);
    SettlesIff(Run(INITIAL, ms).state, m, k);
  }

  /** The review that message `m` finishes after the messages `ms`: the guardian's verdict, or the
      user's answer to a registered approval, an abort counting as one. */
  function Finished(ms: seq<Message>, m: Message): Option<Review> {
    match m
    case GuardianReviewed(thread, turn, target, subject, verdict, startedAt, completedAt, permissions, network) =>
      if verdict.None? || startedAt < 0 || completedAt < 0 then None else
        Some(Review(Guardian, verdict.value, Plain, PendingReview(thread, turn, target, subject, startedAt, permissions, network)))
    case ApprovalAnswered(id, status, resolution) =>
      var j := RegisteredAt(ms, id);
      if j.None? then None else Some(Review(User, status, resolution, AskedBy(ms[j.value])))
    case ApprovalAborted(id) =>
      var j := RegisteredAt(ms, id);
      if j.None? then None else Some(Review(User, Aborted, Plain, AskedBy(ms[j.value])))
    case _ => None
  }

  lemma FinishedIs(ms: seq<Message>, m: Message)
    ensures FinishedReview(Run(INITIAL, ms).state, m) == Finished(ms, m)
  {
    if m.ApprovalAnswered? || m.ApprovalAborted? {
      ApprovalsTellHistory(ms, m.request);
    }
  }
}
