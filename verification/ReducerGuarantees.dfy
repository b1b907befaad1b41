/** What a caller of the reducer may rely on: the theorems about every run of the model, stated of a
    reducer object, its maps and the events it has emitted. */
module ReducerGuarantees {
  import opened Common
  import opened Events
  import opened ThreadLineage
  import opened ReviewLedger
  import opened TurnAssembly
  import opened ReducerModel
  import opened AnalyticsReducer
  import AttributionTheorems
  import CorrelationTheorems
  import LineageTheorems
  import ReviewTheorems
  import ToolCountTheorems
  import ToolEventTheorems
  import TurnTheorems
  import Corr = ToolCorrelation

  /** Every queue and lookup map is bounded, and no thread has an empty cell map. */
  lemma QueuesAreBounded(r: Reducer)
    requires r.Valid()
    ensures forall k :: k in r.toolResponseStates ==>
              var st := r.toolResponseStates[k];
              && |st.pendingToolEvents| <= Corr.MAX_TOOL_RESPONSE_ENTRIES
              && |st.responseIdsByCallId| <= Corr.MAX_TOOL_RESPONSE_ENTRIES
              && |st.cellIdsByChildCallId| <= Corr.MAX_TOOL_RESPONSE_ENTRIES
    ensures forall t :: t in r.codeModeCells ==> 0 < |r.codeModeCells[t]| <= Corr.MAX_TOOL_RESPONSE_ENTRIES
  {
    ToolEventTheorems.ReachableInvariant(r.history);
    forall k | k in r.toolResponseStates ensures Corr.GoodState(k, r.toolResponseStates[k]) {
      assert k in r.Tools().states;
    }
  }

  /** No tool event is lost or duplicated: the copies recorded are the copies emitted plus the copies
      in the queue of the event's turn. */
  lemma ToolEventsAreKept(r: Reducer, x: ToolEvent)
    requires r.Valid()
    ensures CorrelationTheorems.Count(ToolEventTheorems.Recorded(r.history), x) ==
            CorrelationTheorems.Count(ToolEventTheorems.ToolsOf(r.emitted), x)
            + CorrelationTheorems.Count(Corr.Pending(r.Tools(), KeyOf(x)), x)
  {
    ToolEventTheorems.ToolEventsConserved(r.history, x);
  }

  /** A sampling response among the messages has the originating id of the event and named its call
      or the call that started its cell. */
  ghost predicate OriginNamed(ms: seq<Message>, e: ToolEvent) {
    e.originatingResponseId.Some? ==>
      exists j :: 0 <= j < |ms| && ms[j].SamplingResponseCompleted?
               && ms[j].thread == e.body.thread && ms[j].response == e.originatingResponseId.value
               && (e.itemId in ms[j].calls || (e.parentCallId.Some? && e.parentCallId.value in ms[j].calls))
  }

  /** Originating responses are those of sampling responses the reducer has taken, for the event's call. */
  lemma OriginsAreNamed(r: Reducer)
    requires r.Valid()
    ensures forall e :: e in ToolEventTheorems.ToolsOf(r.emitted) ==> OriginNamed(r.history, e)
  {
    forall e | e in ToolEventTheorems.ToolsOf(r.emitted) ensures OriginNamed(r.history, e) {
      if e.originatingResponseId.Some? {
        var _, _ := AttributionTheorems.OriginNamesCall(r.history, e);
      }
    }
  }

  /** A turn never has more events than configuration facts, profile facts or completions. */
  lemma TurnEventsAreBounded(r: Reducer, t: TurnId, p: TurnTheorems.Prerequisite)
    requires r.Valid()
    ensures TurnTheorems.TurnEvents(r.emitted, t) <= TurnTheorems.Supplied(r.history, p, t)
  {
    TurnTheorems.TurnEventsBounded(r.history, t);
  }

  /** The tool counts of a turn add up. */
  lemma CountsAddUp(r: Reducer, t: TurnId)
    requires r.Valid() && t in r.turns
    ensures ToolCountTheorems.AddsUp(r.turns[t].toolCounts, ToolCountTheorems.ControlCalls(r.history, t))
  {
    ToolCountTheorems.CountsAddUp(r.history, t);
  }

  /** The summary of an item tells the reviews recorded for it since it was last cleared. */
  lemma SummariesTellHistory(r: Reducer, k: ItemKey)
    requires r.Valid()
    ensures Tells(Lookup(r.itemReviewSummaries, k), ReviewTheorems.History(r.history, k))
  {
    ReviewTheorems.LedgerTellsHistory(r.history, k);
  }

  /** The ancestor walk ends from every thread. */
  lemma WalksEnd(r: Reducer, t: ThreadId)
    requires r.Valid()
    ensures Terminates(r.threads, t)
  {
    LineageTheorems.WalkTerminatesInEveryRun(r.history, r.rank, t);
  }
}
