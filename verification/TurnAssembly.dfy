/** The state the reducer keeps per turn, the tool counts in it, and the rule that
    turns a complete turn state into one turn event. */
module TurnAssembly {
  import opened Common
  import opened Events
  import opened ThreadLineage
  import opened ReviewLedger
  import opened AcceptedLines

  datatype ItemKind =
    | CommandItem | FileChangeItem | McpItem | DynamicItem | CollabItem
    | SubAgentActivityItem(completed: bool)
    | WebSearchItem | ImageItem
    | OtherItem

  datatype Item = Item(kind: ItemKind, id: CallId)

  /** The kind of tool event an item is reported as; `None` for items that are not tracked. */
  function TrackedKind(kind: ItemKind): Option<ToolKind> {
    match kind
    case CommandItem => Some(CommandExecution)
    case FileChangeItem => Some(FileChange)
    case McpItem => Some(McpToolCall)
    case DynamicItem => Some(DynamicToolCall)
    case CollabItem => Some(CollabAgentToolCall)
    case WebSearchItem => Some(WebSearch)
    case ImageItem => Some(ImageGeneration)
    case SubAgentActivityItem(_) => None
    case OtherItem => None
  }

  datatype ToolCounts = ToolCounts(
    total: nat,
    shellCommand: nat,
    fileChange: nat,
    mcpToolCall: nat,
    dynamicToolCall: nat,
    subagentToolCall: nat,
    subagentToolCallIds: set<CallId>,
    webSearch: nat,
    imageGeneration: nat)

  const NO_COUNTS := ToolCounts(0, 0, 0, 0, 0, 0, {}, 0, 0)

  function CountSubAgent(c: ToolCounts, id: CallId): ToolCounts {
    if id in c.subagentToolCallIds then c
    else c.(subagentToolCallIds := c.subagentToolCallIds + {id},
            subagentToolCall := c.subagentToolCall + 1,
            total := c.total + 1)
  }

  function CountItem(c: ToolCounts, item: Item): ToolCounts {
    match item.kind
    case CommandItem => c.(shellCommand := c.shellCommand + 1, total := c.total + 1)
    case FileChangeItem => c.(fileChange := c.fileChange + 1, total := c.total + 1)
    case McpItem => c.(mcpToolCall := c.mcpToolCall + 1, total := c.total + 1)
    case DynamicItem => c.(dynamicToolCall := c.dynamicToolCall + 1, total := c.total + 1)
    case SubAgentActivityItem(completed) => if completed then c else CountSubAgent(c, item.id)
    case CollabItem => CountSubAgent(c, item.id)
    case WebSearchItem => c.(webSearch := c.webSearch + 1, total := c.total + 1)
    case ImageItem => c.(imageGeneration := c.imageGeneration + 1, total := c.total + 1)
    case OtherItem => c
  }

  function Categorised(c: ToolCounts): nat {
    c.shellCommand + c.fileChange + c.mcpToolCall + c.dynamicToolCall + c.subagentToolCall + c.webSearch + c.imageGeneration
  }

  datatype TurnConfig = TurnConfig(thread: ThreadId, images: nat, root: Option<TurnId>)

  datatype TurnState = TurnState(
    connection: Option<ConnectionId>,
    thread: Option<ThreadId>,
    numInputImages: Option<nat>,
    imagePreparations: seq<int>,
    config: Option<TurnConfig>,
    startedAt: Option<nat>,
    tokenUsage: Option<int>,
    profile: Option<int>,
    completed: Option<int>,
    interruptRequestedAtMs: Option<nat>,
    codexError: Option<int>,
    latestDiff: Option<string>,
    steerCount: nat,
    toolCounts: ToolCounts,
    resourceSkills: set<int>,
    emitted: bool)

  const EMPTY_TURN :=
    TurnState(None, None, None, [], None, None, None, None, None, None, None, None, 0, NO_COUNTS, {}, false)

  type Turns = map<TurnId, TurnState>

  function TurnAt(turns: Turns, turn: TurnId): TurnState {
    if turn in turns then turns[turn] else EMPTY_TURN
  }

  /** Everything the reducer emits that its own state machine decides. */
  datatype Event =
    | ToolItem(tool: ToolEvent)
    | TurnEnded(turn: TurnId, connection: ConnectionId, snapshot: TurnState)
    | LinesAccepted(turn: TurnId, thread: ThreadId, counts: Counts)
    | Reviewed(review: Review)
    | ThreadInitialized(thread: ThreadId)
    | TurnSteered(thread: ThreadId, accepted: Option<TurnId>)

  type Started = map<ItemKey, nat>

  predicate HasPendingItems(started: Started, turn: TurnId) {
    exists k :: k in started && k.turn == turn
  }

  predicate Prepared(t: TurnState) {
    t.thread.Some? && t.numInputImages.Some? && t.config.Some? && t.profile.Some? && t.completed.Some?
  }

  function TurnConnection(l: Lineage, t: TurnState): Option<ConnectionId>
    requires t.thread.Some?
  {
    OrElse(t.connection, ConnectionOf(l.threads, t.thread.value))
  }

  /** All that is needed to emit the turn event is there. */
  predicate Ready(l: Lineage, t: TurnState) {
    && !t.emitted
    && Prepared(t)
    && TurnConnection(l, t).Some?
    && TurnConnection(l, t).value in l.connections
    && t.thread.value in l.threads
    && l.threads[t.thread.value].metadata.Some?
  }

  function LineEvents(turn: TurnId, t: TurnState): seq<Event>
    requires t.thread.Some?
  {
    if t.latestDiff.None? then [] else
      var counts := CountsOf(t.latestDiff.value);
      if counts == Counts(0, 0) then [] else [LinesAccepted(turn, t.thread.value, counts)]
  }

  datatype TurnOutcome = TurnOutcome(turns: Turns, out: seq<Event>)

  /** Emit the turn event if the turn is ready; keep the turn only while items are running. */
  function MaybeEmit(turns: Turns, turn: TurnId, l: Lineage, started: Started): TurnOutcome {
    if turn in turns && Ready(l, turns[turn]) then
      var t := turns[turn];
      TurnOutcome(
        if HasPendingItems(started, turn) then turns[turn := t.(emitted := true)] else turns - {turn},
        [TurnEnded(turn, TurnConnection(l, t).value, t)] + LineEvents(turn, t))
    else
      TurnOutcome(turns, [])
  }
}
