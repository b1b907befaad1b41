/** Which messages record a tool event, and what the event says, told from the messages of a run. */
module ToolRecords {
  import opened Common
  import opened Events
  import opened ThreadLineage
  import opened ReviewLedger
  import opened TurnAssembly
  import opened ReducerModel
  import opened CorrelationTheorems
  import opened ToolEventTheorems
  import opened RunHistory
  import opened ReviewTheorems
  import opened TurnHistory
  import opened TurnLifetime
  import Corr = ToolCorrelation

  // ---- Items ----------------------------------------------------------------------

  /** The tool kind an item is reported under. */
  predicate KindFits(item: ItemKind, tool: ToolKind) {
    && (item.CommandItem? <==> tool.CommandExecution?) && (item.FileChangeItem? <==> tool.FileChange?)
    && (item.McpItem? <==> tool.McpToolCall?) && (item.DynamicItem? <==> tool.DynamicToolCall?)
    && (item.CollabItem? <==> tool.CollabAgentToolCall?) && (item.WebSearchItem? <==> tool.WebSearch?)
    && (item.ImageItem? <==> tool.ImageGeneration?)
  }

  /** The item is over: web searches and image generations always are when they complete. */
  predicate Over(m: Message)
    requires m.ItemCompleted?
  {
    m.inProgress ==> m.item.kind.WebSearchItem? || m.item.kind.ImageItem?
  }

  /** The root turn of the last configuration given for the turn. */
  function RootGiven(ms: seq<Message>, t: TurnId): Option<TurnId> {
    var j := LastGiven(ms, t, ConfigFact);
    if j.Some? then ms[j.value].config.root else None
  }

  /** What the tool event of a completed item says: the item, its turn and root turn, when it started
      and ended, and the reviews finished for it. Correlation is still to come. */
  ghost predicate SaysItem(ms: seq<Message>, m: Message, e: ToolEvent)
    requires m.ItemCompleted?
  {
    var k := ItemKey(m.thread, m.turn, m.item.id);
    var since := RunningSince(ms, k);
    && KindFits(m.item.kind, e.body.kind) && e.body.thread == m.thread && e.body.turn == m.turn && e.itemId == m.item.id
    && since.Some? && e.body.startedAtMs == ms[since.value].startedAt && e.body.completedAtMs == m.completedAt
    && Describes(e.body.review, History(ms, k)) && e.rootTurn == RootGiven(ms, m.turn) && Uncorrelated(e)
  }

  predicate Uncorrelated(e: ToolEvent) {
    e.cellId.None? && e.parentCallId.None? && e.originatingResponseId.None? && e.subsequentResponseId.None?
  }

  lemma RootIs(ms: seq<Message>, t: TurnId)
    requires Known(ms, t)
    ensures RootOf(Run(INITIAL, ms).state.turns[t]) == RootGiven(ms, t)
  {
    FactsTellHistory(ms, t, ConfigFact);
  }

  lemma ItemRecord(s: State, m: Message)
    requires m.ItemCompleted?
    ensures
      if Settles(s, m) && Over(m)
      then RecordedBy(s, m) == [ItemEvent(s, m).(rootTurn := RootOf(s.turns[m.turn]))]
      else RecordedBy(s, m) == []
  {
  }

  lemma ItemEventSays(ms: seq<Message>, m: Message)
    requires m.ItemCompleted? && Settles(Run(INITIAL, ms).state, m)
    ensures SaysItem(ms, m, ItemEvent(Run(INITIAL, ms).state, m).(rootTurn := RootOf(Run(INITIAL, ms).state.turns[m.turn])))
  {
    var k := ItemKey(m.thread, m.turn, m.item.id);
    ItemsTellHistory(ms, k);
    FieldsTellHistory(ms, k);
    RootIs(ms, m.turn);
  }

  /** A completed item records its tool event exactly if it is reported and over. */
  lemma ItemRecordedIff(ms: seq<Message>, m: Message)
    requires m.ItemCompleted?
    ensures
      var q := RecordedBy(Run(INITIAL, ms).state, m);
      if Reports(ms, m, ItemKey(m.thread, m.turn, m.item.id)) && Over(m) then |q| == 1 && SaysItem(ms, m, q[0]) else q == []
  {
    var s := Run(INITIAL, ms).state;
    ReportsIff(ms, m, ItemKey(m.thread, m.turn, m.item.id));
    ItemRecord(s, m);
    if Settles(s, m) {
      ItemEventSays(ms, m);
    }
  }

  // ---- Calls ----------------------------------------------------------------------

  /** What the tool event of a reported code-mode or control call says. */
  predicate SaysCall(m: Message, e: ToolEvent)
    requires m.CodeModeCompleted? || m.ControlToolCalled?
  {
    && (if m.CodeModeCompleted? then e.body.kind.DynamicToolCall? else e.body.kind.ControlToolCall?)
    && e.body.thread == m.thread && e.body.turn == m.turn && e.itemId == m.call && e.rootTurn == m.root
    && e.body.startedAtMs == m.startedAtMs && e.body.completedAtMs == m.completedAtMs && e.body.review == NO_REVIEWS
    && e.cellId == m.cellId && e.parentCallId.None? && e.originatingResponseId.None? && e.subsequentResponseId.None?
  }

  /** A reported call records its tool event exactly if its thread is in context; messages that
      neither complete an item nor report a call record nothing. */
  lemma CallRecordedIff(s: State, m: Message)
    requires !m.ItemCompleted?
    ensures
      var q := RecordedBy(s, m);
      if (m.CodeModeCompleted? || m.ControlToolCalled?) && HasContext(s.lineage, m.thread)
      then |q| == 1 && SaysCall(m, q[0]) else q == []
  {
  }

  // ---- Items that outlive their turn's event --------------------------------------

  /** From position `from` on no tool item completes under this key. */
  predicate NotCompleted(ms: seq<Message>, from: nat, k: ItemKey) {
    forall j :: from <= j < |ms| && ms[j].ItemCompleted? && IsTool(ms[j].item.kind) ==>
      ItemKey(ms[j].thread, ms[j].turn, ms[j].item.id) != k
  }

  lemma RunningNext(ms: seq<Message>, k: ItemKey)
    requires ms != [] && NotCompleted(ms, |ms| - 1, k) && RunningSince(ms[..|ms| - 1], k).Some?
    ensures RunningSince(ms, k).Some?
  {
  }

  /** `start` is a beginning of `ms`; the item runs on while it does not complete. */
  lemma {:induction false} StaysRunning(start: seq<Message>, ms: seq<Message>, k: ItemKey)
    requires start <= ms && NotCompleted(ms, |start|, k) && RunningSince(start, k).Some?
    ensures RunningSince(ms, k).Some?
    decreases |ms|
  {
    if |start| < |ms| {
      StaysRunning(start, ms[..|ms| - 1], k);
      RunningNext(ms, k);
    } else {
      assert start == ms;
    }
  }

  lemma KnownNext(ms: seq<Message>, k: ItemKey)
    requires ms != [] && RunningSince(ms[..|ms| - 1], k).Some? && RunningSince(ms, k).Some?
    requires Known(ms[..|ms| - 1], k.turn) || EventsAtEnd(ms, k.turn) > 0
    ensures Known(ms, k.turn)
  {
    assert AnyRunning(ms[..|ms| - 1], k.turn) && AnyRunning(ms, k.turn);
    KnownIff(ms, k.turn);
  }

  /** While one of its items runs on, a known turn stays known. */
  lemma {:induction false} StaysKnown(start: seq<Message>, ms: seq<Message>, k: ItemKey)
    requires start <= ms && NotCompleted(ms, |start|, k) && RunningSince(start, k).Some? && Known(start, k.turn)
    ensures Known(ms, k.turn)
    decreases |ms|
  {
    if |start| < |ms| {
      StaysKnown(start, ms[..|ms| - 1], k);
      StaysRunning(start, ms[..|ms| - 1], k);
      StaysRunning(start, ms, k);
      KnownNext(ms, k);
    } else {
      assert start == ms;
    }
  }

  lemma StartedRuns(ms: seq<Message>, k: ItemKey)
    requires ms != [] && Starts(ms[|ms| - 1], k)
    ensures RunningSince(ms, k).Some?
  {
  }

  /** Still running when its turn's event is emitted, an item keeps its turn known. */
  lemma AnnouncedStaysKnown(started: seq<Message>, announced: seq<Message>, k: ItemKey)
    requires announced != [] && started <= announced[..|announced| - 1] && NotCompleted(announced, |started|, k)
    requires RunningSince(started, k).Some? && EventsAtEnd(announced, k.turn) > 0
    ensures Known(announced, k.turn) && RunningSince(announced, k).Some?
  {
    StaysRunning(started, announced[..|announced| - 1], k);
    StaysRunning(started, announced, k);
    KnownNext(announced, k);
  }

  /** A tool item started before the event of its turn and completed after it, with its thread in
      context, is recorded all the same. `started`, `announced` and `ms` are the run up to the start,
      up to the turn event and up to the completion `m`. */
  lemma OutlivingItemIsRecorded(started: seq<Message>, announced: seq<Message>, ms: seq<Message>, m: Message, k: ItemKey)
    requires started != [] && Starts(started[|started| - 1], k)
    requires announced != [] && started <= announced[..|announced| - 1] && EventsAtEnd(announced, k.turn) > 0
    requires announced <= ms && NotCompleted(ms, |started|, k)
    requires m.ItemCompleted? && IsTool(m.item.kind) && ItemKey(m.thread, m.turn, m.item.id) == k
    requires 0 <= m.completedAt && Over(m) && HasContext(Run(INITIAL, ms).state.lineage, k.thread)
    ensures
      var q := RecordedBy(Run(INITIAL, ms).state, m);
      |q| == 1 && SaysItem(ms, m, q[0])
  {
    StartedRuns(started, k);
    assert NotCompleted(announced, |started|, k);
    AnnouncedStaysKnown(started, announced, k);
    StaysKnown(announced, ms, k);
    StaysRunning(announced, ms, k);
    ItemRecordedIff(ms, m);
  }
}
