/** The review ledger against the history of a run. */
module ReviewTheorems {
  import opened Common
  import opened Events
  import opened ReviewLedger
  import opened TurnAssembly
  import opened ReducerModel
  import opened CorrelationTheorems
  import opened ToolEventTheorems
  import opened RunHistory

  // ---- Summaries tell the history -------------------------------------------------

  /** The review counts for item `k`: it is about a command, a file change or an MCP call, and about
      exactly this item. */
  predicate About(r: Review, k: ItemKey) {
    && (r.subject.subject.CommandSubject? || r.subject.subject.FileChangeSubject? || r.subject.subject.McpSubject?)
    && r.subject.thread == k.thread && r.subject.turn == k.turn && r.subject.item == Some(k.item)
  }

  /** The reviews finished for item `k` since it was last reported, told from the messages. */
  function History(ms: seq<Message>, k: ItemKey): seq<Review> {
    if ms == [] then [] else
      var init, m := ms[..|ms| - 1], ms[|ms| - 1];
      var r := Finished(init, m);
      if Reports(init, m, k) then []
      else if r.Some? && About(r.value, k) then History(init, k) + [r.value]
      else History(init, k)
  }

  predicate ClearsItem(s: State, m: Message, k: ItemKey) {
    m.ItemCompleted? && KeyOfItem(m.thread, m.turn, m.item) == k && Settles(s, m)
  }

  lemma ReviewChanges(l: Ledger, r: Review, k: ItemKey)
    ensures Lookup(OnReview(l, r).summaries, k) ==
            if About(r, k) then Some(AddReview(Lookup(l.summaries, k).GetOr(EMPTY_SUMMARY), r)) else Lookup(l.summaries, k)
  {
    assert SummaryKey(r.subject) == Some(k) <==> About(r, k);
  }

  lemma ResolveChanges(l: Ledger, id: RequestId, status: ReviewStatus, resolution: ReviewResolution, k: ItemKey)
    ensures
      var before, after := Lookup(l.summaries, k), Lookup(OnResolve(l, id, status, resolution).summaries, k);
      if id in l.pendingReviews && About(Review(User, status, resolution, l.pendingReviews[id]), k)
      then after == Some(AddReview(before.GetOr(EMPTY_SUMMARY), Review(User, status, resolution, l.pendingReviews[id])))
      else after == before
  {
    if id in l.pendingReviews {
      ReviewChanges(l.(pendingReviews := l.pendingReviews - {id}), Review(User, status, resolution, l.pendingReviews[id]), k);
    }
  }

  /** What a step does to the summary of item `k`. */
  predicate SummaryStep(s: State, m: Message, k: ItemKey) {
    var before, after := Lookup(s.ledger.summaries, k), Lookup(LedgerNext(s, m).summaries, k);
    var r := FinishedReview(s, m);
    if ClearsItem(s, m, k) then after == None
    else if r.Some? && About(r.value, k) then after == Some(AddReview(before.GetOr(EMPTY_SUMMARY), r.value))
    else after == before
  }

  lemma AnsweredSummary(s: State, m: Message, k: ItemKey)
    requires m.ApprovalAnswered?
    ensures SummaryStep(s, m, k)
  {
    ResolveChanges(s.ledger, m.request, m.status, m.resolution, k);
  }

  lemma AbortedSummary(s: State, m: Message, k: ItemKey)
    requires m.ApprovalAborted?
    ensures SummaryStep(s, m, k)
  {
    ResolveChanges(s.ledger, m.request, Aborted, Plain, k);
  }

  lemma GuardianSummary(s: State, m: Message, k: ItemKey)
    requires m.GuardianReviewed?
    ensures SummaryStep(s, m, k)
  {
    var r := FinishedReview(s, m);
    if r.Some? {
      ReviewChanges(s.ledger, r.value, k);
    }
  }

  lemma QuietSummary(s: State, m: Message, k: ItemKey)
    requires !m.ApprovalAnswered? && !m.ApprovalAborted? && !m.GuardianReviewed?
    ensures SummaryStep(s, m, k)
  {
    assert FinishedReview(s, m).None?;
  }

  lemma SummaryNext(s: State, m: Message, k: ItemKey)
    ensures SummaryStep(s, m, k)
  {
    if m.ApprovalAnswered? {
      AnsweredSummary(s, m, k);
    } else if m.ApprovalAborted? {
      AbortedSummary(s, m, k);
    } else if m.GuardianReviewed? {
      GuardianSummary(s, m, k);
    } else {
      QuietSummary(s, m, k);
    }
  }

  lemma StepTells(s: State, m: Message, k: ItemKey, h: seq<Review>)
    requires Tells(Lookup(s.ledger.summaries, k), h)
    ensures
      var r := FinishedReview(s, m);
      var h' := if ClearsItem(s, m, k) then [] else if r.Some? && About(r.value, k) then h + [r.value] else h;
      Tells(Lookup(LedgerNext(s, m).summaries, k), h')
  {
    SummaryNext(s, m, k);
    var r := FinishedReview(s, m);
    if !ClearsItem(s, m, k) && r.Some? && About(r.value, k) {
      AddReviewTells(Lookup(s.ledger.summaries, k), h, r.value);
    }
  }

  /** In every reachable state the summary of an item describes the reviews finished for it since it
      was last reported, and is absent exactly if there are none. */
  lemma {:induction false} LedgerTellsHistory(ms: seq<Message>, k: ItemKey)
    ensures Tells(Lookup(Run(INITIAL, ms).state.ledger.summaries, k), History(ms, k))
  {
    if ms != [] {
      var init, m := ms[..|ms| - 1], ms[|ms| - 1];
      LedgerTellsHistory(init, k);
      ReportsIff(init, m, k);
      FinishedIs(init, m);
      StepTells(Run(INITIAL, init).state, m, k, History(init, k));
    }
  }

  lemma FieldsTellHistory(ms: seq<Message>, k: ItemKey)
    ensures Describes(FieldsOf(SummaryAt(Run(INITIAL, ms).state.ledger, k)), History(ms, k))
  {
    LedgerTellsHistory(ms, k);
  }

  // ---- Emitted tool events carry the report ---------------------------------------

  lemma {:induction false} CountPositive(q: seq<ToolEvent>, e: ToolEvent)
    requires e in q
    ensures Count(q, Identity(e)) > 0
  {
    if q[|q| - 1] != e {
      assert e in q[..|q| - 1];
      CountPositive(q[..|q| - 1], e);
    }
  }

  lemma {:induction false} RecordedAt(ms: seq<Message>, x: ToolEvent) returns (j: nat)
    requires Count(Recorded(ms), x) > 0
    ensures j < |ms| && Count(RecordedBy(Run(INITIAL, ms[..j]).state, ms[j]), x) > 0
  {
    var init, m := ms[..|ms| - 1], ms[|ms| - 1];
    CountConcat(Recorded(init), RecordedBy(Run(INITIAL, init).state, m), x);
    if Count(Recorded(init), x) > 0 {
      j := RecordedAt(init, x);
      assert ms[..j] == init[..j];
    } else {
      j := |init|;
    }
  }

  /** The event a message records has the review fields of its item's summary, or none at all if
      it is not an item. */
  lemma RecordedReview(s: State, m: Message, x: ToolEvent)
    requires Count(RecordedBy(s, m), x) > 0
    ensures
      && Identities(RecordedBy(s, m)) == [x]
      && x.body.thread == m.thread && x.body.turn == m.turn
      && x.body.review ==
         if m.ItemCompleted? then FieldsOf(SummaryAt(s.ledger, ItemKey(x.body.thread, x.body.turn, x.itemId))) else NO_REVIEWS
  {
    var q := RecordedBy(s, m);
    assert |q| == 1 && q[..0] == [];
    assert Identity(q[0]) == x;
  }

  /** What was recorded as `x` by message `m` after `before` has the review fields of its item. */
  lemma RecordedFields(before: seq<Message>, m: Message, x: ToolEvent)
    requires Count(RecordedBy(Run(INITIAL, before).state, m), x) > 0
    ensures Identities(RecordedBy(Run(INITIAL, before).state, m)) == [x]
    ensures Describes(x.body.review,
                      if m.ItemCompleted? then History(before, ItemKey(x.body.thread, x.body.turn, x.itemId)) else [])
  {
    RecordedReview(Run(INITIAL, before).state, m, x);
    FieldsTellHistory(before, ItemKey(x.body.thread, x.body.turn, x.itemId));
  }

  /** Every tool event emitted in any run was recorded at some earlier message, and its review
      counts, request flags and outcome are those of the reviews finished for exactly that
      (thread, turn, item) up to then, since the item's summary was last cleared; they add up. */
  lemma EmittedReviewFields(ms: seq<Message>, e: ToolEvent) returns (j: nat)
    requires EnabledRun(INITIAL, ms) && e in ToolsOf(Run(INITIAL, ms).out)
    ensures j < |ms| && Identities(RecordedBy(Run(INITIAL, ms[..j]).state, ms[j])) == [Identity(e)]
    ensures Describes(e.body.review,
                      if ms[j].ItemCompleted? then History(ms[..j], ItemKey(e.body.thread, e.body.turn, e.itemId)) else [])
    ensures e.body.review.guardianReviewCount + e.body.review.userReviewCount == e.body.review.reviewCount
  {
    var x := Identity(e);
    CountPositive(ToolsOf(Run(INITIAL, ms).out), e);
    ToolEventsConserved(ms, x);
    j := RecordedAt(ms, x);
    RecordedFields(ms[..j], ms[j], x);
    ReviewsAddUp(if ms[j].ItemCompleted? then History(ms[..j], ItemKey(e.body.thread, e.body.turn, e.itemId)) else []);
  }

  // ---- A registered request resolves at most once ---------------------------------

  /** A response, a permission response or an abort that finds the request pending. */
  predicate ResolvesPending(s: State, m: Message, id: RequestId) {
    (m.ApprovalAnswered? || m.ApprovalAborted?) && m.request == id && id in s.ledger.pendingReviews
  }

  function Registrations(ms: seq<Message>, id: RequestId): nat {
    if ms == [] then 0 else
      Registrations(ms[..|ms| - 1], id) + if Registers(ms[|ms| - 1], id) then 1 else 0
  }

  function Resolutions(s: State, ms: seq<Message>, id: RequestId): nat {
    if ms == [] then 0 else
      var init := ms[..|ms| - 1];
      Resolutions(s, init, id) + if ResolvesPending(Run(s, init).state, ms[|ms| - 1], id) then 1 else 0
  }

  function PendingOne(s: State, id: RequestId): nat {
    if id in s.ledger.pendingReviews then 1 else 0
  }

  lemma PendingNext(s: State, m: Message, id: RequestId)
    ensures
      var before, after := s.ledger.pendingReviews, LedgerNext(s, m).pendingReviews;
      && (ResolvesPending(s, m, id) ==> id !in after && FinishedReview(s, m).Some?)
      && (Registers(m, id) ==> id in after)
      && (!ResolvesPending(s, m, id) && !Registers(m, id) ==> (id in after <==> id in before))
  {
  }

  /** From any state on, a request is resolved at most once per registration, plus once more if it
      was pending at the start. */
  lemma {:induction false} ResolvedAtMostOnce(s: State, ms: seq<Message>, id: RequestId)
    ensures Resolutions(s, ms, id) + PendingOne(Run(s, ms).state, id) <= Registrations(ms, id) + PendingOne(s, id)
  {
    if ms != [] {
      ResolvedAtMostOnce(s, ms[..|ms| - 1], id);
      PendingNext(Run(s, ms[..|ms| - 1]).state, ms[|ms| - 1], id);
    }
  }
}
