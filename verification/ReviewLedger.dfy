/** Approval reviews: requests waiting for an answer, and a running summary of the
    reviews recorded for each tool item. */
module ReviewLedger {
  import opened Common
  import opened Events

  datatype Reviewer = Guardian | User
  datatype ReviewStatus = Approved | Denied | Aborted | TimedOut
  datatype ReviewResolution = Plain | SessionApproval | ExecPolicyAmendment | NetworkPolicyAmendment

  datatype SubjectKind =
    | CommandSubject | WriteStdinSubject | FileChangeSubject | McpSubject | PermissionsSubject | NetworkSubject

  datatype PendingReview = PendingReview(
    thread: ThreadId,
    turn: TurnId,
    item: Option<CallId>,
    subject: SubjectKind,
    startedAtMs: nat,
    requestedAdditionalPermissions: bool,
    requestedNetworkAccess: bool)

  datatype ItemKey = ItemKey(thread: ThreadId, turn: TurnId, item: CallId)

  datatype Summary = Summary(
    reviewCount: nat,
    guardianReviewCount: nat,
    userReviewCount: nat,
    finalApprovalOutcome: Option<ApprovalOutcome>,
    requestedAdditionalPermissions: bool,
    requestedNetworkAccess: bool)

  const EMPTY_SUMMARY := Summary(0, 0, 0, None, false, false)

  datatype Ledger = Ledger(
    pendingReviews: map<RequestId, PendingReview>,
    summaries: map<ItemKey, Summary>)

  /** One finished review, as the ledger sees it. */
  datatype Review = Review(reviewer: Reviewer, status: ReviewStatus, resolution: ReviewResolution, subject: PendingReview)

  /** Only reviews of commands, file changes and MCP calls count towards an item. */
  function SummaryKey(p: PendingReview): Option<ItemKey> {
    match p.subject
    case CommandSubject | FileChangeSubject | McpSubject =>
      if p.item.Some? then Some(ItemKey(p.thread, p.turn, p.item.value)) else None
    case WriteStdinSubject | PermissionsSubject | NetworkSubject => None
  }

  function FinalOutcome(reviewer: Reviewer, status: ReviewStatus, resolution: ReviewResolution): ApprovalOutcome {
    match (reviewer, status)
    case (Guardian, Approved) => GuardianApproved
    case (Guardian, Denied) => GuardianDenied
    case (Guardian, _) => GuardianAborted
    case (User, Approved) => if resolution.SessionApproval? then UserApprovedForSession else UserApproved
    case (User, Denied) => UserDenied
    case (User, _) => UserAborted
  }

  function AddReview(s: Summary, r: Review): Summary {
    Summary(
      s.reviewCount + 1,
      s.guardianReviewCount + (if r.reviewer.Guardian? then 1 else 0),
      s.userReviewCount + (if r.reviewer.User? then 1 else 0),
      Some(FinalOutcome(r.reviewer, r.status, r.resolution)),
      s.requestedAdditionalPermissions || r.subject.requestedAdditionalPermissions,
      s.requestedNetworkAccess || r.subject.requestedNetworkAccess)
  }

  function SummaryAt(l: Ledger, k: ItemKey): Summary {
    if k in l.summaries then l.summaries[k] else EMPTY_SUMMARY
  }

  /** The review fields a tool event is built with. */
  function FieldsOf(s: Summary): ReviewFields {
    ReviewFields(s.reviewCount, s.guardianReviewCount, s.userReviewCount, s.finalApprovalOutcome.GetOr(Unknown),
                 s.requestedAdditionalPermissions, s.requestedNetworkAccess)
  }

  function OnReview(l: Ledger, r: Review): Ledger {
    var k := SummaryKey(r.subject);
    if k.Some? then l.(summaries := l.summaries[k.value := AddReview(SummaryAt(l, k.value), r)]) else l
  }

  function OnRegister(l: Ledger, id: RequestId, p: PendingReview): Ledger {
    l.(pendingReviews := l.pendingReviews[id := p])
  }

  function OnResolve(l: Ledger, id: RequestId, status: ReviewStatus, resolution: ReviewResolution): Ledger {
    if id in l.pendingReviews then
      OnReview(l.(pendingReviews := l.pendingReviews - {id}), Review(User, status, resolution, l.pendingReviews[id]))
    else
      l
  }

  function OnClear(l: Ledger, k: ItemKey): Ledger {
    l.(summaries := l.summaries - {k})
  }

  // ---- What a summary means -------------------------------------------------------

  function CountBy(h: seq<Review>, who: Reviewer): nat {
    if h == [] then 0 else CountBy(h[..|h| - 1], who) + if h[|h| - 1].reviewer == who then 1 else 0
  }

  /** The outcome that a last review stands for. */
  predicate OutcomeFits(r: Review, o: ApprovalOutcome) {
    && (o.GuardianApproved? <==> r.reviewer.Guardian? && r.status.Approved?)
    && (o.GuardianDenied? <==> r.reviewer.Guardian? && r.status.Denied?)
    && (o.GuardianAborted? <==> r.reviewer.Guardian? && (r.status.Aborted? || r.status.TimedOut?))
    && (o.UserApprovedForSession? <==> r.reviewer.User? && r.status.Approved? && r.resolution.SessionApproval?)
    && (o.UserApproved? <==> r.reviewer.User? && r.status.Approved? && !r.resolution.SessionApproval?)
    && (o.UserDenied? <==> r.reviewer.User? && r.status.Denied?)
    && (o.UserAborted? <==> r.reviewer.User? && (r.status.Aborted? || r.status.TimedOut?))
  }

  /** The review fields are those of an item with review history `h`. */
  ghost predicate Describes(f: ReviewFields, h: seq<Review>) {
    && f.reviewCount == |h| && f.guardianReviewCount == CountBy(h, Guardian) && f.userReviewCount == CountBy(h, User)
    && (if h == [] then f.finalApprovalOutcome.Unknown? else OutcomeFits(h[|h| - 1], f.finalApprovalOutcome))
    && (f.requestedAdditionalPermissions <==> exists r :: r in h && r.subject.requestedAdditionalPermissions)
    && (f.requestedNetworkAccess <==> exists r :: r in h && r.subject.requestedNetworkAccess)
  }

  /** A summary stands for a history: absent for the empty one, describing it otherwise. */
  ghost predicate Tells(s: Option<Summary>, h: seq<Review>) {
    && (s.None? <==> h == [])
    && (s.Some? ==> Describes(FieldsOf(s.value), h) && s.value.finalApprovalOutcome.Some?)
  }

  lemma AddReviewTells(s: Option<Summary>, h: seq<Review>, r: Review)
    requires Tells(s, h)
    ensures Tells(Some(AddReview(s.GetOr(EMPTY_SUMMARY), r)), h + [r])
  {
    assert (h + [r])[..|h|] == h;
    var s0 := s.GetOr(EMPTY_SUMMARY);
    assert Describes(FieldsOf(s0), h);
    assert forall q :: q in h + [r] <==> q in h || q == r;
    assert OutcomeFits(r, FinalOutcome(r.reviewer, r.status, r.resolution));
  }

  /** Every review is by the user or by the guardian. */
  lemma {:induction false} ReviewsAddUp(h: seq<Review>)
    ensures CountBy(h, Guardian) + CountBy(h, User) == |h|
  {
    if h != [] {
      ReviewsAddUp(h[..|h| - 1]);
    }
  }
}
