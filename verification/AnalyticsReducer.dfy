/** The reducer as the program runs it: nine maps updated in place, one message at a
    time. Every method is proved against the step of `ReducerModel`. */
module AnalyticsReducer {
  import opened Common
  import opened Events
  import opened ThreadLineage
  import opened ReviewLedger
  import opened TurnAssembly
  import opened ReducerModel
  import opened LineageTheorems
  import Corr = ToolCorrelation

  class Reducer {
    var requests: Requests
    var turns: Turns
    var connections: set<ConnectionId>
    var threads: Threads
    var toolItemsStartedAtMs: Started
    var toolResponseStates: map<Corr.TurnKey, Corr.ToolResponseState>
    var codeModeCells: map<ThreadId, Corr.Cells>
    var pendingReviews: map<RequestId, PendingReview>
    var itemReviewSummaries: map<ItemKey, Summary>

    /** The order in which threads were spawned. */
    ghost const rank: ThreadId -> nat

    ghost function Lines(): Lineage
      reads this
    {
      Lineage(threads, connections)
    }

    ghost function Tools(): Corr.Correlator
      reads this
    {
      Corr.Correlator(toolResponseStates, codeModeCells)
    }

    ghost function Reviews(): Ledger
      reads this
    {
      Ledger(pendingReviews, itemReviewSummaries)
    }

    ghost function View(): State
      reads this
    {
      State(requests, turns, Lines(), toolItemsStartedAtMs, Tools(), Reviews())
    }

    /** Every message taken so far, and every event emitted for them. */
    ghost var history: seq<Message>
    ghost var emitted: seq<Event>

    /** Parents were spawned before their children. */
    ghost predicate Ordered()
      reads this
    {
      Ranked(threads, rank)
    }

    /** The maps and the events are those of the model's run over the messages taken, so whatever
        holds in every run holds of the reducer. */
    ghost predicate Valid()
      reads this
    {
      Reached(history, rank, View(), emitted)
    }

    constructor (ghost rank: ThreadId -> nat)
      ensures Valid() && history == [] && this.rank == rank
    {
      requests, turns, connections, threads, toolItemsStartedAtMs := map[], map[], {}, map[], map[];
      toolResponseStates, codeModeCells, pendingReviews, itemReviewSummaries := map[], map[], map[], map[];
      this.rank := rank;
      history, emitted := [], [];
    }

    // ---- Lineage ------------------------------------------------------------------

    method ThreadConnectionId(thread: ThreadId) returns (connection: Option<ConnectionId>)
      requires Ordered()
      ensures connection == ConnectionOf(threads, thread)
    {
      if thread !in threads {
        return None;
      }
      var current := thread;
      ghost var n: nat := 0;
      ghost var start := Enter(threads, Some(thread));
      WalkTerminatesIff(threads, thread);
      while threads[current].connection.None?
        invariant current in threads && WalkMany(threads, start, n) == At(current)
        decreases rank(current)
      {
        assert WalkMany(threads, start, n + 1) == WalkOnce(threads, At(current));
        if threads[current].metadata.None? {
          return None;
        }
        var parent := threads[current].metadata.value.parent;
        if parent.None? || parent.value !in threads {
          return None;
        }
        current, n := parent.value, n + 1;
      }
      assert WalkMany(threads, start, n + 1).Done?;
      connection := threads[current].connection;
    }

    method ThreadContext(thread: ThreadId) returns (known: bool)
      requires Ordered()
      ensures known == HasContext(Lines(), thread)
    {
      var connection := ThreadConnectionId(thread);
      known := connection.Some? && connection.value in connections && thread in threads && threads[thread].metadata.Some?;
    }

    method IngestSubAgentThreadStarted(thread: ThreadId, metadata: ThreadMetadata, client: int)
      requires Ordered() && RespectsSpawnOrder(SubAgentStarted(thread, metadata, client, false), rank)
      modifies `threads
      ensures Ordered() && Lines() == OnSubAgentStarted(old(Lines()), thread, metadata, client)
    {
      var inherited := None;
      if metadata.parent.Some? {
        inherited := ThreadConnectionId(metadata.parent.value);
      }
      var state := if thread in threads then threads[thread] else EMPTY_THREAD;
      if state.originator.None? {
        state := state.(originator := Some(client));
      }
      if state.metadata.None? {
        state := state.(metadata := Some(metadata));
      }
      if state.connection.None? {
        state := state.(connection := inherited);
      }
      threads := threads[thread := state];
    }

    method EmitThreadInitialized(connection: ConnectionId, thread: ThreadId, metadata: ThreadMetadata, originator: Option<int>)
      returns (out: seq<Event>)
      requires Ordered()
      modifies `threads
      ensures Ordered() && Lines() == OnThreadOpened(old(Lines()), connection, thread, metadata, originator)
      ensures out == if connection in connections then [ThreadInitialized(thread)] else []
    {
      if connection !in connections {
        return [];
      }
      var state := if thread in threads then threads[thread] else EMPTY_THREAD;
      if originator.Some? {
        state := state.(originator := originator);
      }
      threads := threads[thread := state.(connection := Some(connection), metadata := Some(metadata))];
      out := [ThreadInitialized(thread)];
    }

    // ---- Tool events --------------------------------------------------------------

    method RecordToolEvent(thread: ThreadId, turn: TurnId, root: Option<TurnId>, event: ToolEvent, emission: Corr.Emission)
      returns (out: seq<ToolEvent>)
      modifies `toolResponseStates
      ensures Corr.Outcome(Tools(), out) == Corr.Apply(old(Tools()), Corr.Record(thread, turn, root, event, emission))
    {
      var key := (thread, turn);
      if key !in toolResponseStates {
        toolResponseStates := toolResponseStates[key := Corr.EMPTY_RESPONSE_STATE];
      }
      var state := toolResponseStates[key];
      var cells := if thread in codeModeCells then codeModeCells[thread] else map[];
      var enriched := Corr.Enrich(event.(rootTurn := root), state, cells);
      if emission.ImmediateUnlessCorrelated? && enriched.cellId.None? && enriched.originatingResponseId.None? {
        return [enriched];
      }
      out := [];
      var queue := state.pendingToolEvents;
      if |queue| == Corr.MAX_TOOL_RESPONSE_ENTRIES {
        out := [queue[0]];
        queue := queue[1..];
      }
      toolResponseStates := toolResponseStates[key := state.(pendingToolEvents := queue + [enriched])];
    }

    method IngestSamplingResponseCompleted(thread: ThreadId, turn: TurnId, response: ResponseId, calls: seq<CallId>)
      returns (out: seq<ToolEvent>)
      modifies `toolResponseStates, `codeModeCells
      ensures Corr.Outcome(Tools(), out) == Corr.Apply(old(Tools()), Corr.Sampled(thread, turn, response, calls))
    {
      var key := (thread, turn);
      var state := if key in toolResponseStates then toolResponseStates[key] else Corr.EMPTY_RESPONSE_STATE;
      var responses := state.responseIdsByCallId;
      for i := 0 to |calls|
        invariant responses == Corr.AdmitAll(state.responseIdsByCallId, calls[..i], response)
      {
        assert calls[..i + 1][..i] == calls[..i];
        if calls[i] in responses || |responses| < Corr.MAX_TOOL_RESPONSE_ENTRIES {
          responses := responses[calls[i] := response];
        }
      }
      assert calls[..|calls|] == calls;
      state := state.(responseIdsByCallId := responses);
      var cells: Corr.Cells := map[];
      if thread in codeModeCells {
        cells := Corr.BackfillCells(codeModeCells[thread], responses);
        codeModeCells := codeModeCells[thread := cells];
      }
      var remaining;
      out, remaining := Corr.SplitQueue(state, cells, response);
      toolResponseStates := toolResponseStates[key := state.(pendingToolEvents := remaining)];
    }

    method FlushPendingToolEvents(thread: ThreadId, turn: TurnId) returns (out: seq<ToolEvent>)
      modifies `toolResponseStates, `codeModeCells
      ensures Corr.Outcome(Tools(), out) == Corr.Apply(old(Tools()), Corr.TurnCompleted(thread, turn))
    {
      out := [];
      var key := (thread, turn);
      if key in toolResponseStates {
        out := toolResponseStates[key].pendingToolEvents;
        toolResponseStates := toolResponseStates - {key};
      }
      if thread in codeModeCells {
        var open := Corr.OpenCells(codeModeCells[thread], turn);
        codeModeCells := if open == map[] then codeModeCells - {thread} else codeModeCells[thread := open];
      }
    }

    /** Hand over everything that waits; the turns' lookup maps stay. */
    method FlushQueues(order: seq<Corr.TurnKey>) returns (out: seq<ToolEvent>)
      requires Enumerates(order, toolResponseStates.Keys)
      modifies `toolResponseStates
      ensures Corr.Outcome(Tools(), out) == Corr.Apply(old(Tools()), Corr.Flush(order))
    {
      out := [];
      ghost var c := Tools();
      for i := 0 to |order|
        invariant Corr.EmptiedUpTo(c, order, i, toolResponseStates)
        invariant out == Corr.Drained(c, order[..i])
      {
        var key := order[i];
        Corr.EmptyNext(c, order, i, toolResponseStates);
        out := out + toolResponseStates[key].pendingToolEvents;
        toolResponseStates := toolResponseStates[key := toolResponseStates[key].(pendingToolEvents := [])];
      }
      Corr.EmptiedAll(c, order, toolResponseStates);
    }

    method CloseThread(thread: ThreadId, order: seq<Corr.TurnKey>) returns (out: seq<ToolEvent>)
      requires Enumerates(order, Corr.KeysOfThread(Tools(), thread))
      modifies `toolResponseStates, `codeModeCells
      ensures Corr.Outcome(Tools(), out) == Corr.Apply(old(Tools()), Corr.ThreadClosed(thread, order))
    {
      out := [];
      var states := toolResponseStates;
      for i := 0 to |order|
        invariant toolResponseStates == states - set k | k in order[..i]
        invariant codeModeCells == old(codeModeCells)
        invariant out == Corr.Drained(old(Tools()), order[..i])
      {
        var key := order[i];
        assert key in order;
        assert order[..i + 1][..i] == order[..i];
        assert key !in order[..i];
        out := out + toolResponseStates[key].pendingToolEvents;
        toolResponseStates := toolResponseStates - {key};
      }
      assert order[..|order|] == order;
      codeModeCells := codeModeCells - {thread};
    }

    // ---- Turns --------------------------------------------------------------------

    method MaybeEmitTurnEvent(turn: TurnId) returns (out: seq<Event>)
      requires Ordered()
      modifies `turns
      ensures TurnOutcome(turns, out) == MaybeEmit(old(turns), turn, Lines(), toolItemsStartedAtMs)
    {
      out := [];
      if turn !in turns || turns[turn].emitted || !Prepared(turns[turn]) {
        return;
      }
      var state := turns[turn];
      var thread := state.thread.value;
      var connection := state.connection;
      if connection.None? {
        connection := ThreadConnectionId(thread);
      }
      if connection.None? || connection.value !in connections || thread !in threads || threads[thread].metadata.None? {
        return;
      }
      out := [TurnEnded(turn, connection.value, state)] + LineEvents(turn, state);
      if HasPendingItems(toolItemsStartedAtMs, turn) {
        turns := turns[turn := state.(emitted := true)];
      } else {
        turns := turns - {turn};
      }
    }

    method IngestTurnResolvedConfig(turn: TurnId, config: TurnConfig) returns (out: seq<Event>)
      requires Ordered()
      modifies `turns
      ensures TurnOutcome(turns, out) ==
              Written(old(View()), turn, Configured(TurnAt(old(turns), turn), config))
    {
      turns := turns[turn := TurnAt(turns, turn).(thread := Some(config.thread), numInputImages := Some(config.images), config := Some(config))];
      out := MaybeEmitTurnEvent(turn);
    }

    method IngestTurnTokenUsage(turn: TurnId, thread: ThreadId, usage: int) returns (out: seq<Event>)
      requires Ordered()
      modifies `turns
      ensures TurnOutcome(turns, out) ==
              Written(old(View()), turn, TurnAt(old(turns), turn).(thread := Some(thread), tokenUsage := Some(usage)))
    {
      turns := turns[turn := TurnAt(turns, turn).(thread := Some(thread), tokenUsage := Some(usage))];
      out := MaybeEmitTurnEvent(turn);
    }

    method IngestTurnProfile(turn: TurnId, profile: int) returns (out: seq<Event>)
      requires Ordered()
      modifies `turns
      ensures TurnOutcome(turns, out) == Written(old(View()), turn, TurnAt(old(turns), turn).(profile := Some(profile)))
    {
      turns := turns[turn := TurnAt(turns, turn).(profile := Some(profile))];
      out := MaybeEmitTurnEvent(turn);
    }

    /** A finished turn hands over its queue first, then its event if that is due. */
    method IngestTurnCompleted(thread: ThreadId, turn: TurnId, completion: int) returns (tools: seq<ToolEvent>, out: seq<Event>)
      requires Ordered()
      modifies `turns, `toolResponseStates, `codeModeCells
      ensures Corr.Outcome(Tools(), tools) == Corr.Apply(old(Tools()), Corr.TurnCompleted(thread, turn))
      ensures TurnOutcome(turns, out) == Written(old(View()), turn, TurnAt(old(turns), turn).(completed := Some(completion)))
    {
      tools := FlushPendingToolEvents(thread, turn);
      turns := turns[turn := TurnAt(turns, turn).(completed := Some(completion))];
      out := MaybeEmitTurnEvent(turn);
    }

    /** The request a response belongs to; it is pending no longer. */
    method TakeRequest(connection: ConnectionId, request: RequestId) returns (pending: Option<RequestState>)
      modifies `requests
      ensures pending == Lookup(old(requests), (connection, request))
      ensures requests == old(requests) - {(connection, request)}
    {
      pending := Lookup(requests, (connection, request));
      requests := requests - {(connection, request)};
    }

    method IngestTurnStartResponse(connection: ConnectionId, pending: RequestState, turn: TurnId) returns (out: seq<Event>)
      requires Ordered()
      modifies `turns
      ensures TurnOutcome(turns, out) ==
              if !pending.TurnStart? then TurnOutcome(old(turns), []) else
                Written(old(View()), turn, TurnAt(old(turns), turn).(connection := Some(connection), thread := Some(pending.thread),
                                                                    numInputImages := Some(pending.images)))
    {
      if !pending.TurnStart? {
        return [];
      }
      turns := turns[turn := TurnAt(turns, turn).(connection := Some(connection), thread := Some(pending.thread),
                                                  numInputImages := Some(pending.images))];
      out := MaybeEmitTurnEvent(turn);
    }

    /** An accepted interrupt keeps the earliest time it was asked for. */
    method IngestTurnInterruptResponse(pending: RequestState) returns (out: seq<Event>)
      requires Ordered()
      modifies `turns
      ensures TurnOutcome(turns, out) ==
              if !pending.Interrupt? then TurnOutcome(old(turns), []) else
                Written(old(View()), pending.turn, Interrupted(TurnAt(old(turns), pending.turn), pending.atMs))
    {
      if !pending.Interrupt? {
        return [];
      }
      var state := TurnAt(turns, pending.turn);
      var earliest := state.interruptRequestedAtMs.GetOr(pending.atMs);
      if pending.atMs < earliest {
        earliest := pending.atMs;
      }
      turns := turns[pending.turn := state.(interruptRequestedAtMs := Some(earliest))];
      out := MaybeEmitTurnEvent(pending.turn);
    }

    /** An accepted steer counts for a known turn. */
    method IngestTurnSteerResponse(connection: ConnectionId, pending: RequestState, turn: TurnId) returns (out: seq<Event>)
      modifies `turns
      ensures turns == if pending.TurnSteer? && turn in old(turns)
                       then old(turns)[turn := old(turns[turn]).(steerCount := old(turns[turn]).steerCount + 1)] else old(turns)
      ensures out == if pending.TurnSteer? then Steered(Lines(), connection, pending.thread, Some(turn)) else []
    {
      if !pending.TurnSteer? {
        return [];
      }
      if turn in turns {
        turns := turns[turn := turns[turn].(steerCount := turns[turn].steerCount + 1)];
      }
      out := EmitTurnSteerEvent(connection, pending.thread, Some(turn));
    }

    method IngestErrorResponse(connection: ConnectionId, pending: RequestState) returns (out: seq<Event>)
      ensures out == if pending.TurnSteer? then Steered(Lines(), connection, pending.thread, None) else []
    {
      if !pending.TurnSteer? {
        return [];
      }
      out := EmitTurnSteerEvent(connection, pending.thread, None);
    }

    method EmitTurnSteerEvent(connection: ConnectionId, thread: ThreadId, accepted: Option<TurnId>) returns (out: seq<Event>)
      ensures out == Steered(Lines(), connection, thread, accepted)
    {
      if connection !in connections || thread !in threads || threads[thread].metadata.None? {
        return [];
      }
      out := [TurnSteered(thread, accepted)];
    }

    method IngestTurnCodexError(turn: TurnId, thread: ThreadId, error: int)
      modifies `turns
      ensures turns == old(turns)[turn := TurnAt(old(turns), turn).(thread := OrElse(TurnAt(old(turns), turn).thread, Some(thread)),
                                                                    codexError := Some(error))]
    {
      var state := TurnAt(turns, turn);
      if state.thread.None? {
        state := state.(thread := Some(thread));
      }
      turns := turns[turn := state.(codexError := Some(error))];
    }

    /** The implicit skill resources of a turn; without any the turn is left alone. */
    method IngestSkillInvoked(turn: TurnId, resources: seq<int>)
      modifies `turns
      ensures turns == if resources == [] then old(turns) else
                         old(turns)[turn := TurnAt(old(turns), turn).(resourceSkills := SeenAfter(TurnAt(old(turns), turn).resourceSkills, resources))]
    {
      if resources == [] {
        return;
      }
      var state := TurnAt(turns, turn);
      var seen := state.resourceSkills;
      for i := 0 to |resources|
        invariant seen == SeenAfter(state.resourceSkills, resources[..i])
      {
        assert resources[..i + 1][..i] == resources[..i];
        seen := seen + {resources[i]};
      }
      assert resources[..|resources|] == resources;
      turns := turns[turn := state.(resourceSkills := seen)];
    }

    // ---- Tool calls ---------------------------------------------------------------

    /** Count a reported tool call of a thread in context and record its event. */
    method IngestToolCall(m: Message) returns (tools: seq<ToolEvent>)
      requires m.CodeModeCompleted? || m.ControlToolCalled?
      modifies `turns, `toolResponseStates
      ensures turns == old(turns)[m.turn := Called(TurnAt(old(turns), m.turn), m)]
      ensures Corr.Outcome(Tools(), tools) ==
              Corr.Apply(old(Tools()), Corr.Record(m.thread, m.turn, m.root, CallEvent(m), Corr.AwaitResponse))
    {
      var state := TurnAt(turns, m.turn);
      var counts := state.toolCounts.(total := state.toolCounts.total + 1);
      if m.CodeModeCompleted? {
        counts := counts.(dynamicToolCall := counts.dynamicToolCall + 1);
      }
      turns := turns[m.turn := state.(toolCounts := counts)];
      tools := RecordToolEvent(m.thread, m.turn, m.root, CallEvent(m), Corr.AwaitResponse);
    }

    method StartCell(thread: ThreadId, turn: TurnId, call: CallId, cell: CellId)
      modifies `codeModeCells
      ensures Corr.Outcome(Tools(), []) == Corr.Apply(old(Tools()), Corr.CellStarted(thread, turn, call, cell))
    {
      var key := (thread, turn);
      if thread !in codeModeCells {
        codeModeCells := codeModeCells[thread := map[]];
      }
      var cells := codeModeCells[thread];
      if cell in cells || |cells| < Corr.MAX_TOOL_RESPONSE_ENTRIES {
        var origin := if key in toolResponseStates then Lookup(toolResponseStates[key].responseIdsByCallId, call) else None;
        codeModeCells := codeModeCells[thread := cells[cell := Corr.CodeModeCell(call, origin, None)]];
      }
    }

    method StartChild(thread: ThreadId, turn: TurnId, call: CallId, cell: CellId)
      modifies `toolResponseStates
      ensures Corr.Outcome(Tools(), []) == Corr.Apply(old(Tools()), Corr.ChildStarted(thread, turn, call, cell))
    {
      var key := (thread, turn);
      if thread !in codeModeCells || cell !in codeModeCells[thread] {
        return;
      }
      var state := if key in toolResponseStates then toolResponseStates[key] else Corr.EMPTY_RESPONSE_STATE;
      var children := state.cellIdsByChildCallId;
      if call in children || |children| < Corr.MAX_TOOL_RESPONSE_ENTRIES {
        children := children[call := cell];
      }
      toolResponseStates := toolResponseStates[key := state.(cellIdsByChildCallId := children)];
    }

    method CloseCell(thread: ThreadId, turn: TurnId, cell: CellId)
      modifies `codeModeCells
      ensures Corr.Outcome(Tools(), []) == Corr.Apply(old(Tools()), Corr.CellClosed(thread, turn, cell))
    {
      if thread in codeModeCells && cell in codeModeCells[thread] {
        var cells := codeModeCells[thread];
        codeModeCells := codeModeCells[thread := cells[cell := cells[cell].(closedInTurnId := Some(turn))]];
      }
    }

    // ---- Items --------------------------------------------------------------------

    method IngestItemStarted(thread: ThreadId, turn: TurnId, item: Item, startedAt: int)
      modifies `toolItemsStartedAtMs
      ensures toolItemsStartedAtMs ==
              if TrackedKind(item.kind).Some? && 0 <= startedAt
              then old(toolItemsStartedAtMs)[ItemKey(thread, turn, item.id) := startedAt] else old(toolItemsStartedAtMs)
    {
      if TrackedKind(item.kind).None? || startedAt < 0 {
        return;
      }
      toolItemsStartedAtMs := toolItemsStartedAtMs[ItemKey(thread, turn, item.id) := startedAt];
    }

    method IngestItemCompleted(m: Message) returns (out: seq<Event>)
      requires Ordered() && m.ItemCompleted?
      modifies `turns, `toolItemsStartedAtMs, `toolResponseStates, `itemReviewSummaries
      ensures StepResult(View(), out) == Step(old(View()), m)
    {
      ghost var before := View();
      var startedAt := TakeCompletedItem(m);
      if startedAt.None? {
        ItemCounted(before, m);
        return [];
      }
      var tools := SettleItem(m, startedAt.value);
      out := ToolItems(tools);
      ItemSettled(before, m);
    }

    /** Report a completed item, clear its reviews and retire its turn if it was the last one running. */
    method SettleItem(m: Message, startedAt: nat) returns (out: seq<ToolEvent>)
      requires m.ItemCompleted? && TrackedKind(m.item.kind).Some? && m.turn in turns && 0 <= m.completedAt
      modifies `turns, `toolResponseStates, `itemReviewSummaries
      ensures
        var key := KeyOfItem(m.thread, m.turn, m.item);
        && Corr.Outcome(Tools(), out) ==
           ItemOutcome(m, startedAt, old(Tools()), SummaryAt(old(Reviews()), key), RootOf(old(turns)[m.turn]))
        && Reviews() == OnClear(old(Reviews()), key)
        && turns == if old(turns)[m.turn].emitted && !HasPendingItems(toolItemsStartedAtMs, m.turn)
                    then old(turns) - {m.turn} else old(turns)
    {
      out := ReportItem(m, startedAt);
      itemReviewSummaries := itemReviewSummaries - {ItemKey(m.thread, m.turn, m.item.id)};
      RetireTurn(m.turn);
    }

    /** Count a completed item and take its start; the result is set if the item is reported. */
    method TakeCompletedItem(m: Message) returns (startedAt: Option<nat>)
      requires Ordered() && m.ItemCompleted?
      modifies `turns, `toolItemsStartedAtMs
      ensures toolItemsStartedAtMs == StartedNext(old(View()), m)
      ensures turns == if m.turn in old(turns)
                       then old(turns)[m.turn := old(turns[m.turn]).(toolCounts := CountItem(old(turns[m.turn]).toolCounts, m.item))]
                       else old(turns)
      ensures startedAt.Some? <==> Settles(old(View()), m)
      ensures startedAt.Some? ==> startedAt.value == old(toolItemsStartedAtMs)[KeyOfItem(m.thread, m.turn, m.item)]
    {
      if m.item.kind.SubAgentActivityItem? {
        if m.turn in turns {
          turns := turns[m.turn := turns[m.turn].(toolCounts := CountItem(turns[m.turn].toolCounts, m.item))];
        }
        return None;
      }
      if TrackedKind(m.item.kind).None? || m.turn !in turns {
        return None;
      }
      turns := turns[m.turn := turns[m.turn].(toolCounts := CountItem(turns[m.turn].toolCounts, m.item))];
      var key := ItemKey(m.thread, m.turn, m.item.id);
      if key !in toolItemsStartedAtMs {
        return None;
      }
      startedAt := Some(toolItemsStartedAtMs[key]);
      toolItemsStartedAtMs := toolItemsStartedAtMs - {key};
      if m.completedAt < 0 {
        return None;
      }
      var known := ThreadContext(m.thread);
      if !known {
        return None;
      }
    }

    /** Forget a turn whose event is out once its last running item is reported. */
    method RetireTurn(turn: TurnId)
      requires turn in turns
      modifies `turns
      ensures turns == if old(turns[turn].emitted) && !HasPendingItems(toolItemsStartedAtMs, turn) then old(turns) - {turn} else old(turns)
    {
      if turns[turn].emitted && !HasPendingItems(toolItemsStartedAtMs, turn) {
        turns := turns - {turn};
      }
    }

    /** Record the tool event of a completed item, unless the item is still in progress. */
    method ReportItem(m: Message, startedAt: nat) returns (out: seq<ToolEvent>)
      requires m.ItemCompleted? && TrackedKind(m.item.kind).Some? && m.turn in turns && 0 <= m.completedAt
      modifies `toolResponseStates
      ensures Corr.Outcome(Tools(), out) ==
              ItemOutcome(m, startedAt, old(Tools()), SummaryAt(Reviews(), KeyOfItem(m.thread, m.turn, m.item)), RootOf(turns[m.turn]))
    {
      out := [];
      if Terminal(m) {
        var key := ItemKey(m.thread, m.turn, m.item.id);
        var summary := if key in itemReviewSummaries then itemReviewSummaries[key] else EMPTY_SUMMARY;
        var body := ToolBody(TrackedKind(m.item.kind).value, m.thread, m.turn, startedAt, m.completedAt, FieldsOf(summary));
        // A collaborator item may finish early and is held back until its response is known.
        var emission := if m.item.kind.CollabItem? then Corr.AwaitResponse else Corr.ImmediateUnlessCorrelated;
        out := RecordToolEvent(m.thread, m.turn, RootOf(turns[m.turn]), NewToolEvent(body, m.item.id, None), emission);
      }
    }

    // ---- Reviews ------------------------------------------------------------------

    method EmitReviewEvent(review: Review) returns (out: seq<Event>)
      requires Ordered()
      modifies `itemReviewSummaries
      ensures Reviews() == OnReview(old(Reviews()), review)
      ensures out == ReviewEvents(Lines(), review)
    {
      var key := SummaryKey(review.subject);
      if key.Some? {
        RecordItemReviewSummary(key.value, review);
      }
      var known := ThreadContext(review.subject.thread);
      out := if known then [Reviewed(review)] else [];
    }

    method RecordItemReviewSummary(key: ItemKey, review: Review)
      modifies `itemReviewSummaries
      ensures itemReviewSummaries == old(itemReviewSummaries)[key := AddReview(SummaryAt(old(Reviews()), key), review)]
    {
      var summary := if key in itemReviewSummaries then itemReviewSummaries[key] else EMPTY_SUMMARY;
      summary := summary.(reviewCount := summary.reviewCount + 1);
      match review.reviewer {
        case Guardian => summary := summary.(guardianReviewCount := summary.guardianReviewCount + 1);
        case User => summary := summary.(userReviewCount := summary.userReviewCount + 1);
      }
      summary := summary.(finalApprovalOutcome := Some(FinalOutcome(review.reviewer, review.status, review.resolution)));
      if review.subject.requestedAdditionalPermissions {
        summary := summary.(requestedAdditionalPermissions := true);
      }
      if review.subject.requestedNetworkAccess {
        summary := summary.(requestedNetworkAccess := true);
      }
      itemReviewSummaries := itemReviewSummaries[key := summary];
    }

    method IngestServerRequest(m: Message)
      requires m.ApprovalRequested?
      modifies `pendingReviews
      ensures Reviews() ==
              if m.startedAt < 0 then old(Reviews()) else
                OnRegister(old(Reviews()), m.request,
                           PendingReview(m.thread, m.turn, Some(m.reviewed), m.subject, m.startedAt, m.additionalPermissions, m.networkAccess))
    {
      if m.startedAt < 0 {
        return;
      }
      pendingReviews := pendingReviews[m.request := PendingReview(m.thread, m.turn, Some(m.reviewed), m.subject,
                                                                  m.startedAt, m.additionalPermissions, m.networkAccess)];
    }

    /** The end of a pending approval, by a decision, a permission response or an abort. */
    method ResolveReview(request: RequestId, status: ReviewStatus, resolution: ReviewResolution) returns (out: seq<Event>)
      requires Ordered()
      modifies `pendingReviews, `itemReviewSummaries
      ensures Reviews() == OnResolve(old(Reviews()), request, status, resolution)
      ensures out == if request !in old(pendingReviews) then [] else
                       ReviewEvents(Lines(), Review(User, status, resolution, old(pendingReviews)[request]))
    {
      if request !in pendingReviews {
        return [];
      }
      var pending := pendingReviews[request];
      pendingReviews := pendingReviews - {request};
      out := EmitReviewEvent(Review(User, status, resolution, pending));
    }

    method IngestGuardianReviewCompleted(m: Message) returns (out: seq<Event>)
      requires Ordered() && m.GuardianReviewed?
      modifies `itemReviewSummaries
      ensures
        var r := GuardianReview(m);
        && Reviews() == (if r.Some? then OnReview(old(Reviews()), r.value) else old(Reviews()))
        && out == if r.Some? then ReviewEvents(Lines(), r.value) else []
    {
      if m.verdict.None? || m.startedAt < 0 || m.completedAt < 0 {
        return [];
      }
      var subject := PendingReview(m.thread, m.turn, m.target, m.subject, m.startedAt, m.additionalPermissions, m.networkAccess);
      out := EmitReviewEvent(Review(Guardian, m.verdict.value, Plain, subject));
    }

    // ---- The queue's entry point --------------------------------------------------

    method IngestConnection(m: Message) returns (out: seq<Event>)
      requires m.Initialize? || m.TurnStartRequested? || m.TurnSteerRequested? || m.InterruptRequested?
      modifies `connections, `requests
      ensures StepResult(View(), out) == Step(old(View()), m)
    {
      out := [];
      match m {
        case Initialize(connection) => connections := connections + {connection};
        case TurnStartRequested(connection, request, thread, images) =>
          requests := requests[(connection, request) := TurnStart(thread, images)];
        case TurnSteerRequested(connection, request, thread, expected, images) =>
          requests := requests[(connection, request) := TurnSteer(thread, expected, images)];
        case InterruptRequested(connection, request, turn, atMs) =>
          requests := requests[(connection, request) := Interrupt(turn, atMs)];
      }
    }

    method IngestThread(m: Message) returns (out: seq<Event>)
      requires Ordered() && (m.ThreadOpened? || m.SubAgentStarted?) && RespectsSpawnOrder(m, rank)
      modifies `threads
      ensures StepResult(View(), out) == Step(old(View()), m)
    {
      ghost var before := View();
      if m.ThreadOpened? {
        out := EmitThreadInitialized(m.connection, m.thread, m.metadata, m.originator);
        OpenedStep(before, m, View(), out);
      } else {
        IngestSubAgentThreadStarted(m.thread, m.metadata, m.client);
        SubAgentStep(before, m, View());
        out := if m.announced then [ThreadInitialized(m.thread)] else [];
      }
    }

    /** The answer to a client's request, or its failure. */
    method IngestResponse(m: Message) returns (out: seq<Event>)
      requires Ordered() && IsResponse(m)
      modifies `requests, `turns
      ensures StepResult(View(), out) == Step(old(View()), m)
    {
      ghost var before := View();
      var pending := TakeRequest(m.connection, m.request);
      if pending.None? {
        NoRequestStep(before, m, View());
        return [];
      }
      match m {
        case TurnStartAnswered(connection, _, turn) =>
          out := IngestTurnStartResponse(connection, pending.value, turn);
          StartAnsweredStep(before, m, pending.value, View(), out);
        case TurnSteerAnswered(connection, _, turn) =>
          out := IngestTurnSteerResponse(connection, pending.value, turn);
          SteerAnsweredStep(before, m, pending.value, View(), out);
        case InterruptAnswered(_, _) =>
          out := IngestTurnInterruptResponse(pending.value);
          InterruptAnsweredStep(before, m, pending.value, View(), out);
        case RequestFailed(connection, _) =>
          out := IngestErrorResponse(connection, pending.value);
          FailedStep(before, m, pending.value, View(), out);
      }
    }

    /** Approvals and automatic reviews. */
    method IngestReview(m: Message) returns (out: seq<Event>)
      requires Ordered() && IsReview(m)
      modifies `pendingReviews, `itemReviewSummaries
      ensures StepResult(View(), out) == Step(old(View()), m)
    {
      ghost var before := View();
      out := [];
      match m {
        case ApprovalRequested(_, _, _, _, _, _, _, _) =>
          IngestServerRequest(m);
          RequestedStep(before, m, View());
        case ApprovalAnswered(request, status, resolution) =>
          out := ResolveReview(request, status, resolution);
          ResolvedStep(before, m, status, resolution, View(), out);
        case ApprovalAborted(request) =>
          out := ResolveReview(request, Aborted, Plain);
          ResolvedStep(before, m, Aborted, Plain, View(), out);
        case GuardianReviewed(_, _, _, _, _, _, _, _, _) =>
          out := IngestGuardianReviewCompleted(m);
          GuardianStep(before, m, View(), out);
      }
    }

    /** Facts after which a turn event may be due. */
    method IngestTurnFact(m: Message) returns (out: seq<Event>)
      requires Ordered() && (m.TurnConfigResolved? || m.TurnTokensUsed? || m.TurnProfiled?)
      modifies `turns
      ensures StepResult(View(), out) == Step(old(View()), m)
    {
      ghost var before := View();
      match m {
        case TurnConfigResolved(turn, config) =>
          out := IngestTurnResolvedConfig(turn, config);
          ConfigStep(before, m, View(), out);
        case TurnTokensUsed(turn, thread, usage) =>
          out := IngestTurnTokenUsage(turn, thread, usage);
          TokensStep(before, m, View(), out);
        case TurnProfiled(turn, profile) =>
          out := IngestTurnProfile(turn, profile);
          ProfileStep(before, m, View(), out);
      }
    }

    method IngestCompletion(m: Message) returns (out: seq<Event>)
      requires Ordered() && m.TurnCompleted?
      modifies `turns, `toolResponseStates, `codeModeCells
      ensures StepResult(View(), out) == Step(old(View()), m)
    {
      ghost var before := View();
      var tools;
      tools, out := IngestTurnCompleted(m.thread, m.turn, m.completion);
      CompletionStep(before, m, View(), tools, out);
      out := ToolItems(tools) + out;
    }

    /** Facts that a turn only notes. */
    method IngestTurnNote(m: Message)
      requires IsTurnNote(m)
      modifies `turns
      ensures turns == Noted(old(turns), m)
    {
      match m {
        case TurnStarted(turn, at) => turns := turns[turn := TurnAt(turns, turn).(startedAt := at)];
        case TurnDiffUpdated(thread, turn, diff) =>
          turns := turns[turn := TurnAt(turns, turn).(thread := Some(thread), latestDiff := Some(diff))];
        case TurnErrored(turn, thread, error) => IngestTurnCodexError(turn, thread, error);
        case ImagePrepared(turn, image) =>
          turns := turns[turn := TurnAt(turns, turn).(imagePreparations := TurnAt(turns, turn).imagePreparations + [image])];
        case SkillsInvoked(turn, resources) => IngestSkillInvoked(turn, resources);
      }
    }

    /** Facts about code-mode cells and sampling responses of a thread in context. */
    method IngestCellFact(m: Message) returns (tools: seq<ToolEvent>)
      requires IsCellFact(m)
      modifies `toolResponseStates, `codeModeCells
      ensures Corr.Outcome(Tools(), tools) == Corr.Apply(old(Tools()), CellAction(m))
    {
      tools := [];
      match m {
        case CellStarted(thread, turn, call, cell) => StartCell(thread, turn, call, cell);
        case ChildStarted(thread, turn, call, cell) => StartChild(thread, turn, call, cell);
        case CellClosed(thread, turn, cell) => CloseCell(thread, turn, cell);
        case SamplingResponseCompleted(thread, turn, response, calls) =>
          tools := IngestSamplingResponseCompleted(thread, turn, response, calls);
      }
    }

    /** Facts about code-mode and control tool calls, which need their thread's context. */
    method IngestToolFact(m: Message) returns (out: seq<Event>)
      requires Ordered() && IsToolFact(m)
      modifies `turns, `toolResponseStates, `codeModeCells
      ensures StepResult(View(), out) == Step(old(View()), m)
    {
      var known := ThreadContext(m.thread);
      if known {
        out := IngestKnownToolFact(m);
      } else {
        NoContextStep(View(), m);
        out := [];
      }
    }

    method IngestKnownToolFact(m: Message) returns (out: seq<Event>)
      requires IsToolFact(m) && HasContext(Lines(), m.thread)
      modifies `turns, `toolResponseStates, `codeModeCells
      ensures StepResult(View(), out) == Step(old(View()), m)
    {
      ghost var before := View();
      var tools := CorrelateToolFact(m);
      KnownToolStep(before, m, View(), tools);
      out := ToolItems(tools);
    }

    method CorrelateToolFact(m: Message) returns (tools: seq<ToolEvent>)
      requires IsToolFact(m)
      modifies `turns, `toolResponseStates, `codeModeCells
      ensures turns == if IsCellFact(m) then old(turns) else old(turns)[m.turn := Called(TurnAt(old(turns), m.turn), m)]
      ensures Corr.Outcome(Tools(), tools) == Corr.Apply(old(Tools()), ToolAction(m))
    {
      if IsCellFact(m) {
        tools := IngestCellFact(m);
      } else {
        tools := IngestToolCall(m);
      }
    }

    /** Queues that are handed over whole. */
    method IngestDrain(m: Message) returns (out: seq<Event>)
      requires (m.ThreadClosed? || m.Flush?) && Enabled(View(), m)
      modifies `toolResponseStates, `codeModeCells
      ensures StepResult(View(), out) == Step(old(View()), m)
    {
      ghost var before := View();
      var tools;
      if m.ThreadClosed? {
        tools := CloseThread(m.thread, m.order);
      } else {
        tools := FlushQueues(m.order);
      }
      DrainStep(before, m, View(), tools);
      out := ToolItems(tools);
    }

    method IngestItem(m: Message) returns (out: seq<Event>)
      requires Ordered() && (m.ItemStarted? || m.ItemCompleted?)
      modifies `turns, `toolItemsStartedAtMs, `toolResponseStates, `itemReviewSummaries
      ensures StepResult(View(), out) == Step(old(View()), m)
    {
      if m.ItemCompleted? {
        out := IngestItemCompleted(m);
        return;
      }
      ghost var before := View();
      IngestItemStarted(m.thread, m.turn, m.item, m.startedAt);
      ItemStartStep(before, m, View());
      out := [];
    }

    method Dispatch(m: Message) returns (out: seq<Event>)
      requires Ordered() && Enabled(View(), m) && RespectsSpawnOrder(m, rank)
      modifies `requests, `turns, `connections, `threads, `toolItemsStartedAtMs, `toolResponseStates, `codeModeCells
      modifies `pendingReviews, `itemReviewSummaries
      ensures StepResult(View(), out) == Step(old(View()), m)
    {
      if m.Initialize? || m.TurnStartRequested? || m.TurnSteerRequested? || m.InterruptRequested? {
        out := IngestConnection(m);
      } else if m.ThreadOpened? || m.SubAgentStarted? {
        out := IngestThread(m);
      } else if IsResponse(m) {
        out := IngestResponse(m);
      } else if IsReview(m) {
        out := IngestReview(m);
      } else if m.ItemStarted? || m.ItemCompleted? {
        out := IngestItem(m);
      } else if m.TurnConfigResolved? || m.TurnTokensUsed? || m.TurnProfiled? {
        out := IngestTurnFact(m);
      } else if m.TurnCompleted? {
        out := IngestCompletion(m);
      } else if IsTurnNote(m) {
        ghost var before := View();
        IngestTurnNote(m);
        TurnNoteStep(before, m, View());
        out := [];
      } else if IsToolFact(m) {
        out := IngestToolFact(m);
      } else if m.ThreadClosed? || m.Flush? {
        out := IngestDrain(m);
      } else {
        UnrelatedStep(View());
        out := [];
      }
    }

    /** Take one message: the run goes on by it, and the events handed back are those it adds. */
    method Ingest(m: Message) returns (out: seq<Event>)
      requires Valid() && Enabled(View(), m) && RespectsSpawnOrder(m, rank)
      modifies this
      ensures Valid() && history == old(history) + [m] && emitted == old(emitted) + out
      ensures StepResult(View(), out) == Step(old(View()), m)
    {
      ReachedIsOrdered(history, rank, View(), emitted);
      ghost var before := View();
      out := Dispatch(m);
      ReachedNext(history, rank, before, emitted, m, View(), out);
      history, emitted := history + [m], emitted + out;
    }
  }

  /** A run the program can make over `history` ends in state `s` after emitting `emitted`. */
  ghost predicate Reached(history: seq<Message>, rank: ThreadId -> nat, s: State, emitted: seq<Event>) {
    && EnabledRun(INITIAL, history)
    && (forall i :: 0 <= i < |history| ==> RespectsSpawnOrder(history[i], rank))
    && StepResult(s, emitted) == Run(INITIAL, history)
  }

  lemma ReachedIsOrdered(history: seq<Message>, rank: ThreadId -> nat, s: State, emitted: seq<Event>)
    requires Reached(history, rank, s, emitted)
    ensures Ranked(s.lineage.threads, rank)
  {
    RunRanked(history, rank);
  }

  lemma ReachedNext(history: seq<Message>, rank: ThreadId -> nat, s: State, emitted: seq<Event>, m: Message, s': State, out: seq<Event>)
    requires Reached(history, rank, s, emitted) && Enabled(s, m) && RespectsSpawnOrder(m, rank)
    requires StepResult(s', out) == Step(s, m)
    ensures Reached(history + [m], rank, s', emitted + out)
  {
    assert (history + [m])[..|history|] == history;
  }

  // ---- Kinds of messages ----------------------------------------------------------

  predicate IsResponse(m: Message) {
    m.TurnStartAnswered? || m.TurnSteerAnswered? || m.InterruptAnswered? || m.RequestFailed?
  }

  predicate IsReview(m: Message) {
    m.ApprovalRequested? || m.ApprovalAnswered? || m.ApprovalAborted? || m.GuardianReviewed?
  }

  predicate IsTurnNote(m: Message) {
    m.TurnStarted? || m.TurnDiffUpdated? || m.TurnErrored? || m.ImagePrepared? || m.SkillsInvoked?
  }

  predicate IsCellFact(m: Message) {
    m.CellStarted? || m.ChildStarted? || m.CellClosed? || m.SamplingResponseCompleted?
  }

  /** The turns and events once a turn is written and its event, if due, is out. */
  function Written(s: State, turn: TurnId, after: TurnState): TurnOutcome {
    MaybeEmit(s.turns[turn := after], turn, s.lineage, s.started)
  }

  predicate IsToolFact(m: Message) {
    IsCellFact(m) || m.CodeModeCompleted? || m.ControlToolCalled?
  }

  // ---- What a handler writes ------------------------------------------------------

  function Configured(t: TurnState, config: TurnConfig): TurnState {
    t.(thread := Some(config.thread), numInputImages := Some(config.images), config := Some(config))
  }

  function Interrupted(t: TurnState, atMs: nat): TurnState {
    var earliest := t.interruptRequestedAtMs.GetOr(atMs);
    t.(interruptRequestedAtMs := Some(if earliest < atMs then earliest else atMs))
  }

  function Called(t: TurnState, m: Message): TurnState {
    var c := t.toolCounts;
    t.(toolCounts := if m.CodeModeCompleted? then c.(total := c.total + 1, dynamicToolCall := c.dynamicToolCall + 1)
                     else c.(total := c.total + 1))
  }

  function Steered(l: Lineage, connection: ConnectionId, thread: ThreadId, accepted: Option<TurnId>): seq<Event> {
    if connection in l.connections && thread in l.threads && l.threads[thread].metadata.Some?
    then [TurnSteered(thread, accepted)] else []
  }

  function ReviewEvents(l: Lineage, r: Review): seq<Event> {
    if HasContext(l, r.subject.thread) then [Reviewed(r)] else []
  }

  function GuardianReview(m: Message): Option<Review>
    requires m.GuardianReviewed?
  {
    if m.verdict.Some? && 0 <= m.startedAt && 0 <= m.completedAt then
      Some(Review(Guardian, m.verdict.value, Plain,
                  PendingReview(m.thread, m.turn, m.target, m.subject, m.startedAt, m.additionalPermissions, m.networkAccess)))
    else None
  }

  // ---- Handlers and the step, message by message ----------------------------------

  lemma UnrelatedStep(s: State)
    ensures Step(s, Unrelated) == StepResult(s, [])
  {
  }

  lemma OpenedStep(s: State, m: Message, s': State, out: seq<Event>)
    requires m.ThreadOpened?
    requires s' == s.(lineage := OnThreadOpened(s.lineage, m.connection, m.thread, m.metadata, m.originator))
    requires out == if m.connection in s.lineage.connections then [ThreadInitialized(m.thread)] else []
    ensures StepResult(s', out) == Step(s, m)
  {
  }

  lemma SubAgentStep(s: State, m: Message, s': State)
    requires m.SubAgentStarted? && s' == s.(lineage := OnSubAgentStarted(s.lineage, m.thread, m.metadata, m.client))
    ensures StepResult(s', if m.announced then [ThreadInitialized(m.thread)] else []) == Step(s, m)
  {
  }

  /** A response takes its request out of the pending ones; `p` is the request. */
  predicate Answers(s: State, m: Message, p: RequestState, s': State)
    requires IsResponse(m)
  {
    && Lookup(s.requests, (m.connection, m.request)) == Some(p)
    && s' == s.(requests := s.requests - {(m.connection, m.request)}, turns := s'.turns)
  }

  lemma NoRequestStep(s: State, m: Message, s': State)
    requires IsResponse(m) && Lookup(s.requests, (m.connection, m.request)).None?
    requires s' == s.(requests := s.requests - {(m.connection, m.request)})
    ensures StepResult(s', []) == Step(s, m)
  {
  }

  lemma StartAnsweredStep(s: State, m: Message, p: RequestState, s': State, out: seq<Event>)
    requires m.TurnStartAnswered? && Answers(s, m, p, s')
    requires TurnOutcome(s'.turns, out) ==
             if !p.TurnStart? then TurnOutcome(s.turns, []) else
               Written(s, m.turn, TurnAt(s.turns, m.turn).(connection := Some(m.connection), thread := Some(p.thread),
                                                           numInputImages := Some(p.images)))
    ensures StepResult(s', out) == Step(s, m)
  {
  }

  lemma InterruptAnsweredStep(s: State, m: Message, p: RequestState, s': State, out: seq<Event>)
    requires m.InterruptAnswered? && Answers(s, m, p, s')
    requires TurnOutcome(s'.turns, out) ==
             if !p.Interrupt? then TurnOutcome(s.turns, []) else Written(s, p.turn, Interrupted(TurnAt(s.turns, p.turn), p.atMs))
    ensures StepResult(s', out) == Step(s, m)
  {
  }

  lemma SteerAnsweredStep(s: State, m: Message, p: RequestState, s': State, out: seq<Event>)
    requires m.TurnSteerAnswered? && Answers(s, m, p, s')
    requires s'.turns == if p.TurnSteer? && m.turn in s.turns
                         then s.turns[m.turn := s.turns[m.turn].(steerCount := s.turns[m.turn].steerCount + 1)] else s.turns
    requires out == if p.TurnSteer? then Steered(s.lineage, m.connection, p.thread, Some(m.turn)) else []
    ensures StepResult(s', out) == Step(s, m)
  {
  }

  lemma FailedStep(s: State, m: Message, p: RequestState, s': State, out: seq<Event>)
    requires m.RequestFailed? && Answers(s, m, p, s') && s'.turns == s.turns
    requires out == if p.TurnSteer? then Steered(s.lineage, m.connection, p.thread, None) else []
    ensures StepResult(s', out) == Step(s, m)
  {
  }

  lemma RequestedStep(s: State, m: Message, s': State)
    requires m.ApprovalRequested?
    requires s' == s.(ledger := if m.startedAt < 0 then s.ledger else
                                  OnRegister(s.ledger, m.request, PendingReview(m.thread, m.turn, Some(m.reviewed), m.subject, m.startedAt,
                                                                                m.additionalPermissions, m.networkAccess)))
    ensures StepResult(s', []) == Step(s, m)
  {
  }

  lemma ResolvedStep(s: State, m: Message, status: ReviewStatus, resolution: ReviewResolution, s': State, out: seq<Event>)
    requires || (m.ApprovalAnswered? && m.status == status && m.resolution == resolution)
             || (m.ApprovalAborted? && status == Aborted && resolution == Plain)
    requires s' == s.(ledger := OnResolve(s.ledger, m.request, status, resolution))
    requires out == if m.request !in s.ledger.pendingReviews then [] else
                      ReviewEvents(s.lineage, Review(User, status, resolution, s.ledger.pendingReviews[m.request]))
    ensures StepResult(s', out) == Step(s, m)
  {
  }

  lemma GuardianStep(s: State, m: Message, s': State, out: seq<Event>)
    requires m.GuardianReviewed?
    requires
      var r := GuardianReview(m);
      && s' == s.(ledger := if r.Some? then OnReview(s.ledger, r.value) else s.ledger)
      && out == if r.Some? then ReviewEvents(s.lineage, r.value) else []
    ensures StepResult(s', out) == Step(s, m)
  {
  }

  lemma ConfigStep(s: State, m: Message, s': State, out: seq<Event>)
    requires m.TurnConfigResolved? && s' == s.(turns := s'.turns)
    requires TurnOutcome(s'.turns, out) == Written(s, m.turn, Configured(TurnAt(s.turns, m.turn), m.config))
    ensures StepResult(s', out) == Step(s, m)
  {
  }

  lemma TokensStep(s: State, m: Message, s': State, out: seq<Event>)
    requires m.TurnTokensUsed? && s' == s.(turns := s'.turns)
    requires TurnOutcome(s'.turns, out) ==
             Written(s, m.turn, TurnAt(s.turns, m.turn).(thread := Some(m.thread), tokenUsage := Some(m.usage)))
    ensures StepResult(s', out) == Step(s, m)
  {
  }

  lemma ProfileStep(s: State, m: Message, s': State, out: seq<Event>)
    requires m.TurnProfiled? && s' == s.(turns := s'.turns)
    requires TurnOutcome(s'.turns, out) == Written(s, m.turn, TurnAt(s.turns, m.turn).(profile := Some(m.profile)))
    ensures StepResult(s', out) == Step(s, m)
  {
  }

  lemma CompletionStep(s: State, m: Message, s': State, tools: seq<ToolEvent>, out: seq<Event>)
    requires m.TurnCompleted?
    requires s' == s.(turns := s'.turns, correlator := s'.correlator)
    requires TurnOutcome(s'.turns, out) == Written(s, m.turn, TurnAt(s.turns, m.turn).(completed := Some(m.completion)))
    requires Corr.Outcome(s'.correlator, tools) == Corr.Apply(s.correlator, Corr.TurnCompleted(m.thread, m.turn))
    ensures StepResult(s', ToolItems(tools) + out) == Step(s, m)
  {
    assert ToolItems(tools) + out + [] == ToolItems(tools) + out;
  }

  /** The turns after a fact that a turn only notes. */
  function Noted(turns: Turns, m: Message): Turns
    requires IsTurnNote(m)
  {
    var t := TurnAt(turns, m.turn);
    match m
    case TurnStarted(turn, at) => turns[turn := t.(startedAt := at)]
    case TurnDiffUpdated(thread, turn, diff) => turns[turn := t.(thread := Some(thread), latestDiff := Some(diff))]
    case TurnErrored(turn, thread, error) => turns[turn := t.(thread := OrElse(t.thread, Some(thread)), codexError := Some(error))]
    case ImagePrepared(turn, image) => turns[turn := t.(imagePreparations := t.imagePreparations + [image])]
    case SkillsInvoked(turn, resources) =>
      if resources == [] then turns else turns[turn := t.(resourceSkills := SeenAfter(t.resourceSkills, resources))]
  }

  lemma TurnNoteStep(s: State, m: Message, s': State)
    requires IsTurnNote(m) && s' == s.(turns := Noted(s.turns, m))
    ensures StepResult(s', []) == Step(s, m)
  {
  }

  function CellAction(m: Message): Corr.Action
    requires IsCellFact(m)
  {
    match m
    case CellStarted(thread, turn, call, cell) => Corr.CellStarted(thread, turn, call, cell)
    case ChildStarted(thread, turn, call, cell) => Corr.ChildStarted(thread, turn, call, cell)
    case CellClosed(thread, turn, cell) => Corr.CellClosed(thread, turn, cell)
    case SamplingResponseCompleted(thread, turn, response, calls) => Corr.Sampled(thread, turn, response, calls)
  }

  lemma NoContextStep(s: State, m: Message)
    requires IsToolFact(m) && !HasContext(s.lineage, m.thread)
    ensures Step(s, m) == StepResult(s, [])
  {
  }

  lemma DrainStep(s: State, m: Message, s': State, tools: seq<ToolEvent>)
    requires m.ThreadClosed? || m.Flush?
    requires s' == s.(correlator := s'.correlator)
    requires Corr.Outcome(s'.correlator, tools) ==
             Corr.Apply(s.correlator, if m.ThreadClosed? then Corr.ThreadClosed(m.thread, m.order) else Corr.Flush(m.order))
    ensures StepResult(s', ToolItems(tools)) == Step(s, m)
  {
  }

  function ToolAction(m: Message): Corr.Action
    requires IsToolFact(m)
  {
    if IsCellFact(m) then CellAction(m) else Corr.Record(m.thread, m.turn, m.root, CallEvent(m), Corr.AwaitResponse)
  }

  lemma KnownToolStep(s: State, m: Message, s': State, tools: seq<ToolEvent>)
    requires IsToolFact(m) && HasContext(s.lineage, m.thread)
    requires s' == s.(turns := if IsCellFact(m) then s.turns else s.turns[m.turn := Called(TurnAt(s.turns, m.turn), m)],
                      correlator := s'.correlator)
    requires Corr.Outcome(s'.correlator, tools) == Corr.Apply(s.correlator, ToolAction(m))
    ensures StepResult(s', ToolItems(tools)) == Step(s, m)
  {
    KnownToolAction(s, m);
  }

  lemma KnownToolAction(s: State, m: Message)
    requires IsToolFact(m) && HasContext(s.lineage, m.thread)
    ensures CorrelatorAction(s, m) == Some(ToolAction(m))
  {
  }

  lemma ItemStartStep(s: State, m: Message, s': State)
    requires m.ItemStarted? && s' == s.(started := StartedNext(s, m))
    ensures StepResult(s', []) == Step(s, m)
  {
  }

  /** A completed item that is not reported is at most counted. */
  lemma ItemCounted(s: State, m: Message)
    requires m.ItemCompleted?
    ensures !Settles(s, m) ==>
              Step(s, m) == StepResult(s.(turns := if m.turn in s.turns then s.turns[m.turn := TurnUpdate(s, m).value.1] else s.turns,
                                          started := StartedNext(s, m)), [])
  {
  }

  /** What the correlator makes of a completed item, given the summary of its reviews. */
  function ItemOutcome(m: Message, startedAt: nat, c: Corr.Correlator, summary: Summary, root: Option<TurnId>): Corr.Outcome
    requires m.ItemCompleted? && TrackedKind(m.item.kind).Some? && 0 <= m.completedAt
  {
    if !Terminal(m) then Corr.Outcome(c, []) else
      var body := ToolBody(TrackedKind(m.item.kind).value, m.thread, m.turn, startedAt, m.completedAt, FieldsOf(summary));
      var emission := if m.item.kind.CollabItem? then Corr.AwaitResponse else Corr.ImmediateUnlessCorrelated;
      Corr.Apply(c, Corr.Record(m.thread, m.turn, root, NewToolEvent(body, m.item.id, None), emission))
  }

  lemma ItemSettled(s: State, m: Message)
    requires m.ItemCompleted? && Settles(s, m)
    ensures
      var key := KeyOfItem(m.thread, m.turn, m.item);
      var o := ItemOutcome(m, s.started[key], s.correlator, SummaryAt(s.ledger, key), RootOf(s.turns[m.turn]));
      var turns := s.turns[m.turn := TurnUpdate(s, m).value.1];
      Step(s, m) == StepResult(
        s.(turns := if Retires(s, m) then turns - {m.turn} else turns,
           started := s.started - {key}, correlator := o.next, ledger := OnClear(s.ledger, key)),
        ToolItems(o.out))
  {
  }
}
