/** The analytics reducer as a state machine: one message of its queue at a time.

    The state holds the reducer's nine maps. A message never changes more than one
    thing in each component, so the step is given component by component; the
    `AnalyticsReducer` class performs the same step the way the program does. */
module ReducerModel {
  import opened Common
  import opened Events
  import opened ThreadLineage
  import opened ReviewLedger
  import opened TurnAssembly
  import Corr = ToolCorrelation

  datatype RequestState =
    | TurnStart(thread: ThreadId, images: nat)
    | TurnSteer(thread: ThreadId, expected: TurnId, images: nat)
    | Interrupt(turn: TurnId, atMs: nat)

  type Requests = map<(ConnectionId, RequestId), RequestState>

  datatype State = State(
    requests: Requests,
    turns: Turns,
    lineage: Lineage,
    started: Started,
    correlator: Corr.Correlator,
    ledger: Ledger)

  const INITIAL := State(map[], map[], Lineage(map[], {}), map[], Corr.EMPTY_CORRELATOR, Ledger(map[], map[]))

  /** One entry of the reducer's queue: a fact, or a request to flush. Times that the program
      converts from signed integers are integers here; a negative one is rejected. */
  datatype Message =
    | Initialize(connection: ConnectionId)
    | TurnStartRequested(connection: ConnectionId, request: RequestId, thread: ThreadId, images: nat)
    | TurnSteerRequested(connection: ConnectionId, request: RequestId, thread: ThreadId, expected: TurnId, images: nat)
    | InterruptRequested(connection: ConnectionId, request: RequestId, turn: TurnId, atMs: nat)
    | ThreadOpened(connection: ConnectionId, thread: ThreadId, metadata: ThreadMetadata, originator: Option<int>)
    | TurnStartAnswered(connection: ConnectionId, request: RequestId, turn: TurnId)
    | TurnSteerAnswered(connection: ConnectionId, request: RequestId, turn: TurnId)
    | InterruptAnswered(connection: ConnectionId, request: RequestId)
    | RequestFailed(connection: ConnectionId, request: RequestId)
    | ItemStarted(thread: ThreadId, turn: TurnId, item: Item, startedAt: int)
    | ItemCompleted(thread: ThreadId, turn: TurnId, item: Item, inProgress: bool, completedAt: int)
    | GuardianReviewed(thread: ThreadId, turn: TurnId, target: Option<CallId>, subject: SubjectKind,
                       verdict: Option<ReviewStatus>, startedAt: int, completedAt: int,
                       additionalPermissions: bool, networkAccess: bool)
    | ApprovalRequested(request: RequestId, thread: ThreadId, turn: TurnId, reviewed: CallId, subject: SubjectKind,
                        startedAt: int, additionalPermissions: bool, networkAccess: bool)
    | ApprovalAnswered(request: RequestId, status: ReviewStatus, resolution: ReviewResolution)
    | ApprovalAborted(request: RequestId)
    | ThreadClosed(thread: ThreadId, order: seq<Corr.TurnKey>)
    | TurnStarted(turn: TurnId, at: Option<nat>)
    | TurnDiffUpdated(thread: ThreadId, turn: TurnId, diff: string)
    | TurnCompleted(thread: ThreadId, turn: TurnId, completion: int)
    | CellStarted(thread: ThreadId, turn: TurnId, call: CallId, cell: CellId)
    | ChildStarted(thread: ThreadId, turn: TurnId, call: CallId, cell: CellId)
    | CellClosed(thread: ThreadId, turn: TurnId, cell: CellId)
    | SamplingResponseCompleted(thread: ThreadId, turn: TurnId, response: ResponseId, calls: seq<CallId>)
    | CodeModeCompleted(thread: ThreadId, turn: TurnId, root: Option<TurnId>, call: CallId, cellId: Option<CellId>,
                        startedAtMs: nat, completedAtMs: nat)
    | ControlToolCalled(thread: ThreadId, turn: TurnId, root: Option<TurnId>, call: CallId, cellId: Option<CellId>,
                        startedAtMs: nat, completedAtMs: nat)
    | SubAgentStarted(thread: ThreadId, metadata: ThreadMetadata, client: int, announced: bool)
    | TurnConfigResolved(turn: TurnId, config: TurnConfig)
    | TurnTokensUsed(turn: TurnId, thread: ThreadId, usage: int)
    | TurnProfiled(turn: TurnId, profile: int)
    | TurnErrored(turn: TurnId, thread: ThreadId, error: int)
    | ImagePrepared(turn: TurnId, image: int)
    | SkillsInvoked(turn: TurnId, implicitResources: seq<int>)
    | Unrelated
    | Flush(order: seq<Corr.TurnKey>)

  // ---- Tool events ----------------------------------------------------------------

  predicate Tracked(item: Item) {
    TrackedKind(item.kind).Some?
  }

  function KeyOfItem(thread: ThreadId, turn: TurnId, item: Item): ItemKey {
    ItemKey(thread, turn, item.id)
  }

  /** A completed item that is reported: tracked, its turn known, its start seen, its time valid
      and its thread in context. */
  predicate Settles(s: State, m: Message)
    requires m.ItemCompleted?
  {
    && Tracked(m.item)
    && m.turn in s.turns
    && KeyOfItem(m.thread, m.turn, m.item) in s.started
    && 0 <= m.completedAt
    && HasContext(s.lineage, m.thread)
  }

  /** Web searches and image generations have no running status. */
  predicate Terminal(m: Message)
    requires m.ItemCompleted?
  {
    !m.inProgress || m.item.kind.WebSearchItem? || m.item.kind.ImageItem?
  }

  function ItemEvent(s: State, m: Message): ToolEvent
    requires m.ItemCompleted? && Settles(s, m)
  {
    var k := KeyOfItem(m.thread, m.turn, m.item);
    var body := ToolBody(TrackedKind(m.item.kind).value, m.thread, m.turn, s.started[k], m.completedAt,
                         FieldsOf(SummaryAt(s.ledger, k)));
    NewToolEvent(body, m.item.id, None)
  }

  function RootOf(t: TurnState): Option<TurnId> {
    if t.config.Some? then t.config.value.root else None
  }

  /** The event of a tool call reported by the code-mode runtime or by a control tool. */
  function CallEvent(m: Message): ToolEvent
    requires m.CodeModeCompleted? || m.ControlToolCalled?
  {
    var kind := if m.CodeModeCompleted? then DynamicToolCall else ControlToolCall;
    NewToolEvent(ToolBody(kind, m.thread, m.turn, m.startedAtMs, m.completedAtMs, NO_REVIEWS), m.call, m.cellId)
  }

  /** What a message asks of the correlator. */
  function CorrelatorAction(s: State, m: Message): Option<Corr.Action> {
    match m
    case CellStarted(thread, turn, call, cell) =>
      if HasContext(s.lineage, thread) then Some(Corr.CellStarted(thread, turn, call, cell)) else None
    case ChildStarted(thread, turn, call, cell) =>
      if HasContext(s.lineage, thread) then Some(Corr.ChildStarted(thread, turn, call, cell)) else None
    case CellClosed(thread, turn, cell) =>
      if HasContext(s.lineage, thread) then Some(Corr.CellClosed(thread, turn, cell)) else None
    case SamplingResponseCompleted(thread, turn, response, calls) =>
      if HasContext(s.lineage, thread) then Some(Corr.Sampled(thread, turn, response, calls)) else None
    case CodeModeCompleted(thread, turn, root, _, _, _, _) =>
      if HasContext(s.lineage, thread) then Some(Corr.Record(thread, turn, root, CallEvent(m), Corr.AwaitResponse)) else None
    case ControlToolCalled(thread, turn, root, _, _, _, _) =>
      if HasContext(s.lineage, thread) then Some(Corr.Record(thread, turn, root, CallEvent(m), Corr.AwaitResponse)) else None
    case ItemCompleted(thread, turn, item, _, _) =>
      if Settles(s, m) && Terminal(m) then
        Some(Corr.Record(thread, turn, RootOf(s.turns[turn]), ItemEvent(s, m),
                         if item.kind.CollabItem? then Corr.AwaitResponse else Corr.ImmediateUnlessCorrelated))
      else None
    case TurnCompleted(thread, turn, _) => Some(Corr.TurnCompleted(thread, turn))
    case ThreadClosed(thread, order) => Some(Corr.ThreadClosed(thread, order))
    case Flush(order) => Some(Corr.Flush(order))
    case _ => None
  }

  function CorrelatorNext(s: State, m: Message): Corr.Outcome {
    var a := CorrelatorAction(s, m);
    if a.Some? then Corr.Apply(s.correlator, a.value) else Corr.Outcome(s.correlator, [])
  }

  function ToolItems(q: seq<ToolEvent>): seq<Event> {
    seq(|q|, i requires 0 <= i < |q| => ToolItem(q[i]))
  }

  // ---- Lineage --------------------------------------------------------------------

  function LineageNext(l: Lineage, m: Message): Lineage {
    match m
    case Initialize(connection) => OnInitialize(l, connection)
    case ThreadOpened(connection, thread, metadata, originator) => OnThreadOpened(l, connection, thread, metadata, originator)
    case SubAgentStarted(thread, metadata, client, _) => OnSubAgentStarted(l, thread, metadata, client)
    case _ => l
  }

  // ---- Client requests ------------------------------------------------------------

  function RequestsNext(requests: Requests, m: Message): Requests {
    match m
    case TurnStartRequested(connection, request, thread, images) => requests[(connection, request) := TurnStart(thread, images)]
    case TurnSteerRequested(connection, request, thread, expected, images) =>
      requests[(connection, request) := TurnSteer(thread, expected, images)]
    case InterruptRequested(connection, request, turn, atMs) => requests[(connection, request) := Interrupt(turn, atMs)]
    case TurnStartAnswered(connection, request, _) => requests - {(connection, request)}
    case TurnSteerAnswered(connection, request, _) => requests - {(connection, request)}
    case InterruptAnswered(connection, request) => requests - {(connection, request)}
    case RequestFailed(connection, request) => requests - {(connection, request)}
    case _ => requests
  }

  // ---- Started items --------------------------------------------------------------

  function StartedNext(s: State, m: Message): Started {
    match m
    case ItemStarted(thread, turn, item, startedAt) =>
      if Tracked(item) && 0 <= startedAt then s.started[KeyOfItem(thread, turn, item) := startedAt] else s.started
    case ItemCompleted(thread, turn, item, _, _) =>
      if Tracked(item) && turn in s.turns then s.started - {KeyOfItem(thread, turn, item)} else s.started
    case _ => s.started
  }

  // ---- Reviews --------------------------------------------------------------------

  /** The review a message finishes, if any. */
  function FinishedReview(s: State, m: Message): Option<Review> {
    match m
    case GuardianReviewed(thread, turn, target, subject, verdict, startedAt, completedAt, permissions, network) =>
      if verdict.Some? && 0 <= startedAt && 0 <= completedAt then
        Some(Review(Guardian, verdict.value, Plain, PendingReview(thread, turn, target, subject, startedAt, permissions, network)))
      else None
    case ApprovalAnswered(request, status, resolution) =>
      if request in s.ledger.pendingReviews then Some(Review(User, status, resolution, s.ledger.pendingReviews[request])) else None
    case ApprovalAborted(request) =>
      if request in s.ledger.pendingReviews then Some(Review(User, Aborted, Plain, s.ledger.pendingReviews[request])) else None
    case _ => None
  }

  function LedgerNext(s: State, m: Message): Ledger {
    match m
    case ApprovalRequested(request, thread, turn, reviewed, subject, startedAt, permissions, network) =>
      if 0 <= startedAt then
        OnRegister(s.ledger, request, PendingReview(thread, turn, Some(reviewed), subject, startedAt, permissions, network))
      else s.ledger
    case ApprovalAnswered(request, status, resolution) => OnResolve(s.ledger, request, status, resolution)
    case ApprovalAborted(request) => OnResolve(s.ledger, request, Aborted, Plain)
    case GuardianReviewed(_, _, _, _, _, _, _, _, _) =>
      var r := FinishedReview(s, m);
      if r.Some? then OnReview(s.ledger, r.value) else s.ledger
    case ItemCompleted(thread, turn, item, _, _) =>
      if Settles(s, m) then OnClear(s.ledger, KeyOfItem(thread, turn, item)) else s.ledger
    case _ => s.ledger
  }

  // ---- Turns ----------------------------------------------------------------------

  function Answered(s: State, connection: ConnectionId, request: RequestId): Option<RequestState> {
    Lookup(s.requests, (connection, request))
  }

  /** The implicit skill resources of a turn after a list of invocations. */
  function SeenAfter(seen: set<int>, resources: seq<int>): set<int> {
    if resources == [] then seen else SeenAfter(seen, resources[..|resources| - 1]) + {resources[|resources| - 1]}
  }

  /** The turn a message writes to and its new state, before anything is emitted. */
  function TurnUpdate(s: State, m: Message): Option<(TurnId, TurnState)> {
    match m
    case TurnConfigResolved(turn, config) =>
      Some((turn, TurnAt(s.turns, turn).(thread := Some(config.thread), numInputImages := Some(config.images), config := Some(config))))
    case TurnTokensUsed(turn, thread, usage) =>
      Some((turn, TurnAt(s.turns, turn).(thread := Some(thread), tokenUsage := Some(usage))))
    case TurnProfiled(turn, profile) => Some((turn, TurnAt(s.turns, turn).(profile := Some(profile))))
    case TurnCompleted(_, turn, completion) => Some((turn, TurnAt(s.turns, turn).(completed := Some(completion))))
    case TurnStartAnswered(connection, request, turn) =>
      var r := Answered(s, connection, request);
      if r.Some? && r.value.TurnStart? then
        Some((turn, TurnAt(s.turns, turn).(connection := Some(connection), thread := Some(r.value.thread),
                                           numInputImages := Some(r.value.images))))
      else None
    case InterruptAnswered(connection, request) =>
      var r := Answered(s, connection, request);
      if r.Some? && r.value.Interrupt? then
        var t := TurnAt(s.turns, r.value.turn);
        var earliest := t.interruptRequestedAtMs.GetOr(r.value.atMs);
        Some((r.value.turn, t.(interruptRequestedAtMs := Some(if earliest < r.value.atMs then earliest else r.value.atMs))))
      else None
    case TurnStarted(turn, at) => Some((turn, TurnAt(s.turns, turn).(startedAt := at)))
    case TurnDiffUpdated(thread, turn, diff) =>
      Some((turn, TurnAt(s.turns, turn).(thread := Some(thread), latestDiff := Some(diff))))
    case TurnErrored(turn, thread, error) =>
      var t := TurnAt(s.turns, turn);
      Some((turn, t.(thread := OrElse(t.thread, Some(thread)), codexError := Some(error))))
    case ImagePrepared(turn, image) =>
      var t := TurnAt(s.turns, turn);
      Some((turn, t.(imagePreparations := t.imagePreparations + [image])))
    case SkillsInvoked(turn, resources) =>
      if resources == [] then None else
        var t := TurnAt(s.turns, turn);
        Some((turn, t.(resourceSkills := SeenAfter(t.resourceSkills, resources))))
    case CodeModeCompleted(thread, turn, _, _, _, _, _) =>
      if HasContext(s.lineage, thread) then
        var t := TurnAt(s.turns, turn);
        Some((turn, t.(toolCounts := t.toolCounts.(total := t.toolCounts.total + 1,
                                                   dynamicToolCall := t.toolCounts.dynamicToolCall + 1))))
      else None
    case ControlToolCalled(thread, turn, _, _, _, _, _) =>
      if HasContext(s.lineage, thread) then
        var t := TurnAt(s.turns, turn);
        Some((turn, t.(toolCounts := t.toolCounts.(total := t.toolCounts.total + 1))))
      else None
    case TurnSteerAnswered(connection, request, turn) =>
      var r := Answered(s, connection, request);
      if r.Some? && r.value.TurnSteer? && turn in s.turns then
        Some((turn, s.turns[turn].(steerCount := s.turns[turn].steerCount + 1)))
      else None
    case ItemCompleted(_, turn, item, _, _) =>
      if turn in s.turns then
        Some((turn, s.turns[turn].(toolCounts := CountItem(s.turns[turn].toolCounts, item))))
      else None
    case _ => None
  }

  /** The messages after which the program tries to emit the turn event. */
  predicate TriesToEmit(m: Message) {
    || m.TurnConfigResolved? || m.TurnTokensUsed? || m.TurnProfiled? || m.TurnCompleted?
    || m.TurnStartAnswered? || m.InterruptAnswered?
  }

  /** A reported item was the last running one of a turn whose event is already out. */
  predicate Retires(s: State, m: Message) {
    && m.ItemCompleted? && Settles(s, m)
    && s.turns[m.turn].emitted
    && !HasPendingItems(StartedNext(s, m), m.turn)
  }

  /** The turns once the update `u` is written and the event, if due, is out. */
  function TurnsAfter(s: State, m: Message, u: Option<(TurnId, TurnState)>): TurnOutcome {
    if u.None? then TurnOutcome(s.turns, []) else
      var turns := s.turns[u.value.0 := u.value.1];
      if TriesToEmit(m) then MaybeEmit(turns, u.value.0, s.lineage, s.started)
      else if Retires(s, m) then TurnOutcome(turns - {m.turn}, [])
      else TurnOutcome(turns, [])
  }

  function TurnsNext(s: State, m: Message): TurnOutcome {
    TurnsAfter(s, m, TurnUpdate(s, m))
  }

  // ---- The step -------------------------------------------------------------------

  /** Steer events need the answering connection and the thread's metadata. */
  function SteerEvents(s: State, connection: ConnectionId, request: RequestId, accepted: Option<TurnId>): seq<Event> {
    var r := Answered(s, connection, request);
    if && r.Some? && r.value.TurnSteer?
       && connection in s.lineage.connections
       && r.value.thread in s.lineage.threads && s.lineage.threads[r.value.thread].metadata.Some?
    then [TurnSteered(r.value.thread, accepted)] else []
  }

  /** Events that are neither tool events nor turn events. */
  function OtherEvents(s: State, m: Message): seq<Event> {
    match m
    case ThreadOpened(connection, thread, _, _) => if connection in s.lineage.connections then [ThreadInitialized(thread)] else []
    case SubAgentStarted(thread, _, _, announced) => if announced then [ThreadInitialized(thread)] else []
    case TurnSteerAnswered(connection, request, turn) => SteerEvents(s, connection, request, Some(turn))
    case RequestFailed(connection, request) => SteerEvents(s, connection, request, None)
    case _ =>
      var r := FinishedReview(s, m);
      if r.Some? && HasContext(s.lineage, r.value.subject.thread) then [Reviewed(r.value)] else []
  }

  datatype StepResult = StepResult(state: State, out: seq<Event>)

  function Step(s: State, m: Message): StepResult {
    StepResult(
      State(
        RequestsNext(s.requests, m),
        TurnsNext(s, m).turns,
        LineageNext(s.lineage, m),
        StartedNext(s, m),
        CorrelatorNext(s, m).next,
        LedgerNext(s, m)),
      ToolItems(CorrelatorNext(s, m).out) + TurnsNext(s, m).out + OtherEvents(s, m))
  }

  /** A walk over a hash map visits each of its keys once. */
  ghost predicate Enabled(s: State, m: Message) {
    var a := CorrelatorAction(s, m);
    a.Some? ==> Corr.Enabled(s.correlator, a.value)
  }

  // ---- Runs -----------------------------------------------------------------------

  function Run(s: State, ms: seq<Message>): StepResult {
    if ms == [] then StepResult(s, []) else
      var before := Run(s, ms[..|ms| - 1]);
      var last := Step(before.state, ms[|ms| - 1]);
      StepResult(last.state, before.out + last.out)
  }

  /** Every message of the run is one the program can take in the state it finds. */
  ghost predicate EnabledRun(s: State, ms: seq<Message>) {
    ms == [] ||
    (EnabledRun(s, ms[..|ms| - 1]) && Enabled(Run(s, ms[..|ms| - 1]).state, ms[|ms| - 1]))
  }

  lemma {:induction false} EnabledPrefix(s: State, ms: seq<Message>, i: nat)
    requires EnabledRun(s, ms) && i <= |ms|
    ensures EnabledRun(s, ms[..i])
    decreases |ms|
  {
    if i == |ms| {
      assert ms[..i] == ms;
    } else {
      assert ms[..|ms| - 1][..i] == ms[..i];
      EnabledPrefix(s, ms[..|ms| - 1], i);
    }
  }

  lemma EnabledLast(s: State, ms: seq<Message>)
    requires EnabledRun(s, ms) && ms != []
    ensures Enabled(Run(s, ms[..|ms| - 1]).state, ms[|ms| - 1])
  {
  }

  lemma EnabledAt(s: State, ms: seq<Message>, i: nat)
    requires EnabledRun(s, ms) && i < |ms|
    ensures Enabled(Run(s, ms[..i]).state, ms[i])
  {
    EnabledPrefix(s, ms, i + 1);
    EnabledLast(s, ms[..i + 1]);
    assert ms[..i + 1][..i] == ms[..i];
  }
}
