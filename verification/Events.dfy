/** The analytics events the reducer emits, cut down to the fields whose values
    the reducer's own logic decides. */
module Events {
  import opened Common

  /** How a reviewed action ended, as the last review recorded for an item says it. */
  datatype ApprovalOutcome =
    | Unknown
    | GuardianApproved | GuardianDenied | GuardianAborted
    | UserApproved | UserApprovedForSession | UserDenied | UserAborted

  /** The review fields of a tool event. */
  datatype ReviewFields = ReviewFields(
    reviewCount: nat,
    guardianReviewCount: nat,
    userReviewCount: nat,
    finalApprovalOutcome: ApprovalOutcome,
    requestedAdditionalPermissions: bool,
    requestedNetworkAccess: bool)

  const NO_REVIEWS := ReviewFields(0, 0, 0, Unknown, false, false)

  datatype ToolKind =
    | CommandExecution | FileChange | McpToolCall | DynamicToolCall
    | ControlToolCall | CollabAgentToolCall | WebSearch | ImageGeneration

  /** The part of a tool event that is fixed when the event is built. */
  datatype ToolBody = ToolBody(
    kind: ToolKind,
    thread: ThreadId,
    turn: TurnId,
    startedAtMs: nat,
    completedAtMs: nat,
    review: ReviewFields)

  /** A tool event: its fixed part, the root turn written when it is recorded,
      and the four fields that correlation may rewrite. */
  datatype ToolEvent = ToolEvent(
    body: ToolBody,
    itemId: CallId,
    rootTurn: Option<TurnId>,
    cellId: Option<CellId>,
    parentCallId: Option<CallId>,
    originatingResponseId: Option<ResponseId>,
    subsequentResponseId: Option<ResponseId>)

  /** A freshly built tool event, before any correlation. */
  function NewToolEvent(body: ToolBody, itemId: CallId, cellId: Option<CellId>): ToolEvent {
    ToolEvent(body, itemId, None, cellId, None, None, None)
  }

  /** What no step after recording may change: the event without its four
      correlation fields. */
  function Identity(e: ToolEvent): ToolEvent {
    e.(cellId := None, parentCallId := None, originatingResponseId := None, subsequentResponseId := None)
  }

  /** The (thread, turn) pair an event belongs to. */
  function KeyOf(e: ToolEvent): (ThreadId, TurnId) {
    (e.body.thread, e.body.turn)
  }
}
