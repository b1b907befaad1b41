/** What the state of a turn holds, told from the messages of a run: every field is what the last
    message about it said since the turn's present state began, and the turn event carries just that. */
module TurnHistory {
  import opened Common
  import opened Events
  import opened ThreadLineage
  import opened ReviewLedger
  import opened AcceptedLines
  import opened TurnAssembly
  import opened ReducerModel
  import opened TurnTheorems
  import opened RunHistory

  // ---- The present state of a turn ------------------------------------------------

  predicate Known(ms: seq<Message>, t: TurnId) {
    t in Run(INITIAL, ms).state.turns
  }

  /** What a message writes to turn `t`, before anything is emitted or forgotten. */
  function WrittenTo(s: State, m: Message, t: TurnId): TurnState {
    var u := TurnUpdate(s, m);
    if u.Some? && u.value.0 == t then u.value.1 else TurnAt(s.turns, t)
  }

  function Unmarked(s: TurnState): TurnState {
    s.(emitted := false)
  }

  lemma ShapeWrites(s: State, m: Message, u: Option<(TurnId, TurnState)>, n: Turns, events: nat, t: TurnId)
    requires Shape(s, m, u, n, events, t) && t in n
    ensures Unmarked(n[t]) == Unmarked(if u.Some? && u.value.0 == t then u.value.1 else TurnAt(s.turns, t))
  {
  }

  /** A turn that is still there after a step is what the message wrote, up to the emitted mark. */
  lemma StepWrites(s: State, m: Message, t: TurnId)
    requires t in Step(s, m).state.turns
    ensures Unmarked(Step(s, m).state.turns[t]) == Unmarked(WrittenTo(s, m, t))
  {
    TurnShape(s, m, t);
    ShapeWrites(s, m, TurnUpdate(s, m), Step(s, m).state.turns, TurnEvents(Step(s, m).out, t), t);
  }

  // ---- Facts of which the last counts ---------------------------------------------

  datatype Fact = ConfigFact | ProfileFact | CompletionFact | TokensFact | StartFact | DiffFact | ErrorFact | ConnectionFact

  /** The request behind an answered start of turn `t`. */
  function StartOf(ms: seq<Message>, m: Message, t: TurnId): (j: Option<nat>)
    ensures j.Some? ==> m.TurnStartAnswered? && j.value < |ms| && ms[j.value].TurnStartRequested?
  {
    if !m.TurnStartAnswered? || m.turn != t then None else
      var j := RequestedAt(ms, m.connection, m.request);
      if j.Some? && ms[j.value].TurnStartRequested? then j else None
  }

  predicate IsFact(m: Message, f: Fact) {
    match f
    case ConfigFact => m.TurnConfigResolved?
    case ProfileFact => m.TurnProfiled?
    case CompletionFact => m.TurnCompleted?
    case TokensFact => m.TurnTokensUsed?
    case StartFact => m.TurnStarted?
    case DiffFact => m.TurnDiffUpdated?
    case ErrorFact => m.TurnErrored?
    case ConnectionFact => m.TurnStartAnswered?
  }

  /** Message `m`, after the messages `ms`, gives fact `f` of turn `t`. */
  predicate Gives(ms: seq<Message>, m: Message, t: TurnId, f: Fact) {
    if f.ConnectionFact? then StartOf(ms, m, t).Some? else IsFact(m, f) && m.turn == t
  }

  /** The last message that gave the fact since the present state of the turn began. */
  function LastGiven(ms: seq<Message>, t: TurnId, f: Fact): (j: Option<nat>)
    ensures j.Some? ==> j.value < |ms| && IsFact(ms[j.value], f)
    decreases |ms|, 0
  {
    if ms == [] || !Known(ms, t) then None else LastWith(ms, t, f)
  }

  /** The same, the last message counted even if it made the reducer forget the turn. */
  function LastWith(ms: seq<Message>, t: TurnId, f: Fact): (j: Option<nat>)
    requires ms != []
    ensures j.Some? ==> j.value < |ms| && IsFact(ms[j.value], f)
    decreases |ms| - 1, 1
  {
    if Gives(ms[..|ms| - 1], ms[|ms| - 1], t, f) then Some(|ms| - 1) else LastGiven(ms[..|ms| - 1], t, f)
  }

  /** The turn holds what message `m` said about the fact, or nothing if there is none. */
  predicate Holding(s: TurnState, f: Fact, m: Option<Message>)
    requires m.Some? ==> IsFact(m.value, f)
  {
    match f
    case ConfigFact => s.config == if m.Some? then Some(m.value.config) else None
    case ProfileFact => s.profile == if m.Some? then Some(m.value.profile) else None
    case CompletionFact => s.completed == if m.Some? then Some(m.value.completion) else None
    case TokensFact => s.tokenUsage == if m.Some? then Some(m.value.usage) else None
    case StartFact => s.startedAt == if m.Some? then m.value.at else None
    case DiffFact => s.latestDiff == if m.Some? then Some(m.value.diff) else None
    case ErrorFact => s.codexError == if m.Some? then Some(m.value.error) else None
    case ConnectionFact => s.connection == if m.Some? then Some(m.value.connection) else None
  }

  function Said(ms: seq<Message>, j: Option<nat>): Option<Message>
    requires j.Some? ==> j.value < |ms|
  {
    if j.Some? then Some(ms[j.value]) else None
  }

  /** The answered start of a turn is one whose request is pending. */
  lemma StartOfIs(ms: seq<Message>, m: Message, t: TurnId)
    requires m.TurnStartAnswered? && m.turn == t
    ensures
      var r := Answered(Run(INITIAL, ms).state, m.connection, m.request);
      && (StartOf(ms, m, t).Some? <==> r.Some? && r.value.TurnStart?)
      && (StartOf(ms, m, t).Some? ==>
            r.value.thread == ms[StartOf(ms, m, t).value].thread && r.value.images == ms[StartOf(ms, m, t).value].images)
  {
    RequestsTellHistory(ms, m.connection, m.request);
  }

  lemma ConfigWritten(s: State, m: Message, t: TurnId)
    ensures WrittenTo(s, m, t).config == if m.TurnConfigResolved? && m.turn == t then Some(m.config) else TurnAt(s.turns, t).config
  {
  }

  lemma ProfileWritten(s: State, m: Message, t: TurnId)
    ensures WrittenTo(s, m, t).profile == if m.TurnProfiled? && m.turn == t then Some(m.profile) else TurnAt(s.turns, t).profile
  {
  }

  lemma CompletionWritten(s: State, m: Message, t: TurnId)
    ensures WrittenTo(s, m, t).completed == if m.TurnCompleted? && m.turn == t then Some(m.completion) else TurnAt(s.turns, t).completed
  {
  }

  lemma TokensWritten(s: State, m: Message, t: TurnId)
    ensures WrittenTo(s, m, t).tokenUsage == if m.TurnTokensUsed? && m.turn == t then Some(m.usage) else TurnAt(s.turns, t).tokenUsage
  {
  }

  lemma StartWritten(s: State, m: Message, t: TurnId)
    ensures WrittenTo(s, m, t).startedAt == if m.TurnStarted? && m.turn == t then m.at else TurnAt(s.turns, t).startedAt
  {
  }

  lemma DiffWritten(s: State, m: Message, t: TurnId)
    ensures WrittenTo(s, m, t).latestDiff == if m.TurnDiffUpdated? && m.turn == t then Some(m.diff) else TurnAt(s.turns, t).latestDiff
  {
  }

  lemma ErrorWritten(s: State, m: Message, t: TurnId)
    ensures WrittenTo(s, m, t).codexError == if m.TurnErrored? && m.turn == t then Some(m.error) else TurnAt(s.turns, t).codexError
  {
  }

  /** The message answers a pending start of the turn. */
  predicate StartsTurn(s: State, m: Message, t: TurnId) {
    && m.TurnStartAnswered? && m.turn == t
    && Answered(s, m.connection, m.request).Some? && Answered(s, m.connection, m.request).value.TurnStart?
  }

  lemma ConnectionWritten(s: State, m: Message, t: TurnId)
    ensures WrittenTo(s, m, t).connection == if StartsTurn(s, m, t) then Some(m.connection) else TurnAt(s.turns, t).connection
  {
  }

  /** The field of the fact is what `m` says if it gives the fact, and as before otherwise. */
  predicate Replaced(f: Fact, m: Message, given: bool, before: TurnState, after: TurnState)
    requires given ==> IsFact(m, f)
  {
    match f
    case ConfigFact => after.config == if given then Some(m.config) else before.config
    case ProfileFact => after.profile == if given then Some(m.profile) else before.profile
    case CompletionFact => after.completed == if given then Some(m.completion) else before.completed
    case TokensFact => after.tokenUsage == if given then Some(m.usage) else before.tokenUsage
    case StartFact => after.startedAt == if given then m.at else before.startedAt
    case DiffFact => after.latestDiff == if given then Some(m.diff) else before.latestDiff
    case ErrorFact => after.codexError == if given then Some(m.error) else before.codexError
    case ConnectionFact => after.connection == if given then Some(m.connection) else before.connection
  }

  lemma ReplacedIs(s: State, m: Message, t: TurnId, f: Fact, given: bool, after: TurnState)
    requires after == WrittenTo(s, m, t)
    requires given <==> if f.ConnectionFact? then StartsTurn(s, m, t) else IsFact(m, f) && m.turn == t
    ensures (given ==> IsFact(m, f)) && Replaced(f, m, given, TurnAt(s.turns, t), after)
  {
    match f
    case ConfigFact => ConfigWritten(s, m, t);
    case ProfileFact => ProfileWritten(s, m, t);
    case CompletionFact => CompletionWritten(s, m, t);
    case TokensFact => TokensWritten(s, m, t);
    case StartFact => StartWritten(s, m, t);
    case DiffFact => DiffWritten(s, m, t);
    case ErrorFact => ErrorWritten(s, m, t);
    case ConnectionFact => ConnectionWritten(s, m, t);
  }

  lemma HoldsReplaced(f: Fact, m: Message, given: bool, before: TurnState, after: TurnState, prior: Option<Message>)
    requires (given ==> IsFact(m, f)) && (prior.Some? ==> IsFact(prior.value, f))
    requires Replaced(f, m, given, before, after) && Holding(before, f, prior)
    ensures Holding(after, f, if given then Some(m) else prior)
  {
  }

  lemma {:induction false} FactsNext(ms: seq<Message>, t: TurnId, f: Fact)
    requires ms != []
    requires Holding(TurnAt(Run(INITIAL, ms[..|ms| - 1]).state.turns, t), f,
                     Said(ms[..|ms| - 1], LastGiven(ms[..|ms| - 1], t, f)))
    ensures Holding(WrittenTo(Run(INITIAL, ms[..|ms| - 1]).state, ms[|ms| - 1], t), f, Said(ms, LastWith(ms, t, f)))
  {
    var init, m := ms[..|ms| - 1], ms[|ms| - 1];
    if f.ConnectionFact? && m.TurnStartAnswered? && m.turn == t {
      StartOfIs(init, m, t);
    }
    var s := Run(INITIAL, init).state;
    ReplacedIs(s, m, t, f, Gives(init, m, t, f), WrittenTo(s, m, t));
    HoldsReplaced(f, m, Gives(init, m, t, f), TurnAt(s.turns, t), WrittenTo(s, m, t), Said(init, LastGiven(init, t, f)));
  }

  lemma HoldingUnmarked(a: TurnState, b: TurnState, f: Fact, m: Option<Message>)
    requires m.Some? ==> IsFact(m.value, f)
    requires Unmarked(a) == Unmarked(b) && Holding(b, f, m)
    ensures Holding(a, f, m)
  {
    assert a == b.(emitted := a.emitted);
  }

  /** In every reachable state each of these fields of a turn is what the last message about it said
      since the turn's present state began. */
  lemma {:induction false} FactsTellHistory(ms: seq<Message>, t: TurnId, f: Fact)
    ensures Holding(TurnAt(Run(INITIAL, ms).state.turns, t), f, Said(ms, LastGiven(ms, t, f)))
  {
    if ms != [] && Known(ms, t) {
      FactsTellHistory(ms[..|ms| - 1], t, f);
      FactsNext(ms, t, f);
      var s, m := Run(INITIAL, ms[..|ms| - 1]).state, ms[|ms| - 1];
      StepWrites(s, m, t);
      HoldingUnmarked(Run(INITIAL, ms).state.turns[t], WrittenTo(s, m, t), f, Said(ms, LastWith(ms, t, f)));
    }
  }

  // ---- The thread and the input images --------------------------------------------

  /** The thread a message attributes turn `t` to, whatever was known before. */
  function NamesThread(ms: seq<Message>, m: Message, t: TurnId): Option<ThreadId> {
    if StartOf(ms, m, t).Some? then Some(ms[StartOf(ms, m, t).value].thread)
    else if m.TurnConfigResolved? && m.turn == t then Some(m.config.thread)
    else if (m.TurnTokensUsed? || m.TurnDiffUpdated?) && m.turn == t then Some(m.thread)
    else None
  }

  /** The last thread named for the turn since its present state began; an error names one only while
      none is known. */
  function LastThread(ms: seq<Message>, t: TurnId): Option<ThreadId>
    decreases |ms|, 0
  {
    if ms == [] || !Known(ms, t) then None else ThreadWith(ms, t)
  }

  function ThreadWith(ms: seq<Message>, t: TurnId): Option<ThreadId>
    requires ms != []
    decreases |ms| - 1, 1
  {
    var init, m := ms[..|ms| - 1], ms[|ms| - 1];
    var error := if m.TurnErrored? && m.turn == t then Some(m.thread) else None;
    OrElse(NamesThread(init, m, t), OrElse(LastThread(init, t), error))
  }

  function NamesImages(ms: seq<Message>, m: Message, t: TurnId): Option<nat> {
    if StartOf(ms, m, t).Some? then Some(ms[StartOf(ms, m, t).value].images)
    else if m.TurnConfigResolved? && m.turn == t then Some(m.config.images)
    else None
  }

  /** The last number of input images given for the turn since its present state began. */
  function LastImages(ms: seq<Message>, t: TurnId): Option<nat>
    decreases |ms|, 0
  {
    if ms == [] || !Known(ms, t) then None else ImagesWith(ms, t)
  }

  function ImagesWith(ms: seq<Message>, t: TurnId): Option<nat>
    requires ms != []
    decreases |ms| - 1, 1
  {
    OrElse(NamesImages(ms[..|ms| - 1], ms[|ms| - 1], t), LastImages(ms[..|ms| - 1], t))
  }

  lemma ThreadWritten(s: State, m: Message, t: TurnId)
    ensures WrittenTo(s, m, t).thread ==
            if StartsTurn(s, m, t) then Some(Answered(s, m.connection, m.request).value.thread)
            else if m.TurnConfigResolved? && m.turn == t then Some(m.config.thread)
            else if (m.TurnTokensUsed? || m.TurnDiffUpdated?) && m.turn == t then Some(m.thread)
            else OrElse(TurnAt(s.turns, t).thread, if m.TurnErrored? && m.turn == t then Some(m.thread) else None)
  {
  }

  lemma ImagesWritten(s: State, m: Message, t: TurnId)
    ensures WrittenTo(s, m, t).numInputImages ==
            if StartsTurn(s, m, t) then Some(Answered(s, m.connection, m.request).value.images)
            else if m.TurnConfigResolved? && m.turn == t then Some(m.config.images)
            else TurnAt(s.turns, t).numInputImages
  {
  }

  lemma AttributionNext(ms: seq<Message>, t: TurnId)
    requires ms != []
    requires TurnAt(Run(INITIAL, ms[..|ms| - 1]).state.turns, t).thread == LastThread(ms[..|ms| - 1], t)
    requires TurnAt(Run(INITIAL, ms[..|ms| - 1]).state.turns, t).numInputImages == LastImages(ms[..|ms| - 1], t)
    ensures
      var after := WrittenTo(Run(INITIAL, ms[..|ms| - 1]).state, ms[|ms| - 1], t);
      after.thread == ThreadWith(ms, t) && after.numInputImages == ImagesWith(ms, t)
  {
    var init, m := ms[..|ms| - 1], ms[|ms| - 1];
    var s := Run(INITIAL, init).state;
    if m.TurnStartAnswered? && m.turn == t {
      StartOfIs(init, m, t);
    }
    ThreadWritten(s, m, t);
    ImagesWritten(s, m, t);
  }

  /** In every reachable state a turn is attributed to the last thread named for it, and has the last
      number of input images given for it, since its present state began. */
  lemma {:induction false} AttributionTellsHistory(ms: seq<Message>, t: TurnId)
    ensures TurnAt(Run(INITIAL, ms).state.turns, t).thread == LastThread(ms, t)
    ensures TurnAt(Run(INITIAL, ms).state.turns, t).numInputImages == LastImages(ms, t)
  {
    if ms != [] && Known(ms, t) {
      AttributionTellsHistory(ms[..|ms| - 1], t);
      AttributionNext(ms, t);
      StepWrites(Run(INITIAL, ms[..|ms| - 1]).state, ms[|ms| - 1], t);
    }
  }

  // ---- What adds up ---------------------------------------------------------------

  /** What has been seen of a turn since its present state began. */
  datatype Tally = Tally(
    commands: nat, fileChanges: nat, mcpCalls: nat, dynamicCalls: nat, webSearches: nat, images: nat,
    subAgents: set<CallId>, controlCalls: nat,
    steers: nat, interrupts: set<nat>, preparations: seq<int>, skills: set<int>)

  const NOTHING := Tally(0, 0, 0, 0, 0, 0, {}, 0, 0, {}, [], {})

  function SeenItem(y: Tally, item: Item): Tally {
    match item.kind
    case CommandItem => y.(commands := y.commands + 1)
    case FileChangeItem => y.(fileChanges := y.fileChanges + 1)
    case McpItem => y.(mcpCalls := y.mcpCalls + 1)
    case DynamicItem => y.(dynamicCalls := y.dynamicCalls + 1)
    case WebSearchItem => y.(webSearches := y.webSearches + 1)
    case ImageItem => y.(images := y.images + 1)
    case CollabItem => y.(subAgents := y.subAgents + {item.id})
    case SubAgentActivityItem(completed) => if completed then y else y.(subAgents := y.subAgents + {item.id})
    case OtherItem => y
  }

  /** The client request that an answer settles. */
  function RequestOf(ms: seq<Message>, m: Message): Option<Message>
    requires m.TurnSteerAnswered? || m.InterruptAnswered?
  {
    Said(ms, RequestedAt(ms, m.connection, m.request))
  }

  /** What message `m`, after the messages `ms`, adds to what was seen of turn `t`. */
  function Seen(ms: seq<Message>, m: Message, t: TurnId, y: Tally): Tally {
    match m
    case ItemCompleted(_, turn, item, _, _) => if turn == t && Known(ms, t) then SeenItem(y, item) else y
    case CodeModeCompleted(thread, turn, _, _, _, _, _) =>
      if turn == t && HasContext(Run(INITIAL, ms).state.lineage, thread) then y.(dynamicCalls := y.dynamicCalls + 1) else y
    case ControlToolCalled(thread, turn, _, _, _, _, _) =>
      if turn == t && HasContext(Run(INITIAL, ms).state.lineage, thread) then y.(controlCalls := y.controlCalls + 1) else y
    case TurnSteerAnswered(_, _, turn) =>
      var r := RequestOf(ms, m);
      if turn == t && Known(ms, t) && r.Some? && r.value.TurnSteerRequested? then y.(steers := y.steers + 1) else y
    case InterruptAnswered(_, _) =>
      var r := RequestOf(ms, m);
      if r.Some? && r.value.InterruptRequested? && r.value.turn == t then y.(interrupts := y.interrupts + {r.value.atMs}) else y
    case ImagePrepared(turn, image) => if turn == t then y.(preparations := y.preparations + [image]) else y
    case SkillsInvoked(turn, resources) => if turn == t then y.(skills := y.skills + set r | r in resources) else y
    case _ => y
  }

  function TallySince(ms: seq<Message>, t: TurnId): Tally
    decreases |ms|, 0
  {
    if ms == [] || !Known(ms, t) then NOTHING else TallyWith(ms, t)
  }

  function TallyWith(ms: seq<Message>, t: TurnId): Tally
    requires ms != []
    decreases |ms| - 1, 1
  {
    Seen(ms[..|ms| - 1], ms[|ms| - 1], t, TallySince(ms[..|ms| - 1], t))
  }

  /** The counts are those of the tally: each category its own, sub-agents by distinct call, control
      calls in the total only. */
  ghost predicate CountsFit(c: ToolCounts, y: Tally) {
    && c.shellCommand == y.commands && c.fileChange == y.fileChanges && c.mcpToolCall == y.mcpCalls
    && c.dynamicToolCall == y.dynamicCalls && c.webSearch == y.webSearches && c.imageGeneration == y.images
    && c.subagentToolCallIds == y.subAgents && c.subagentToolCall == |y.subAgents|
    && c.total == y.commands + y.fileChanges + y.mcpCalls + y.dynamicCalls + y.webSearches + y.images + |y.subAgents| + y.controlCalls
  }

  /** The interrupt time is the earliest one asked for. */
  ghost predicate EarliestOf(at: Option<nat>, times: set<nat>) {
    && (at.None? <==> times == {})
    && (at.Some? ==> at.value in times && forall x :: x in times ==> at.value <= x)
  }

  predicate NotesFit(s: TurnState, y: Tally) {
    s.steerCount == y.steers && s.imagePreparations == y.preparations && s.resourceSkills == y.skills
  }

  ghost predicate Fits(s: TurnState, y: Tally) {
    CountsFit(s.toolCounts, y) && EarliestOf(s.interruptRequestedAtMs, y.interrupts) && NotesFit(s, y)
  }

  lemma ItemFits(c: ToolCounts, item: Item, y: Tally)
    requires CountsFit(c, y)
    ensures CountsFit(CountItem(c, item), SeenItem(y, item))
  {
    match item.kind
    case CollabItem =>
    case SubAgentActivityItem(_) =>
    case _ =>
  }

  lemma {:induction false} SeenAfterIs(seen: set<int>, resources: seq<int>)
    ensures SeenAfter(seen, resources) == seen + set r | r in resources
  {
    if resources != [] {
      SeenAfterIs(seen, resources[..|resources| - 1]);
      assert resources == resources[..|resources| - 1] + [resources[|resources| - 1]];
    }
  }

  lemma RequestOfIs(ms: seq<Message>, m: Message)
    requires m.TurnSteerAnswered? || m.InterruptAnswered?
    ensures
      var r, kept := RequestOf(ms, m), Answered(Run(INITIAL, ms).state, m.connection, m.request);
      (r.Some? <==> kept.Some?) && (r.Some? ==> KeptOf(r.value, kept.value))
  {
    RequestsTellHistory(ms, m.connection, m.request);
  }

  /** The same addition, with the requests and the threads the reducer has at hand. */
  function SeenBy(s: State, m: Message, t: TurnId, y: Tally): Tally {
    match m
    case ItemCompleted(_, turn, item, _, _) => if turn == t && t in s.turns then SeenItem(y, item) else y
    case CodeModeCompleted(thread, turn, _, _, _, _, _) =>
      if turn == t && HasContext(s.lineage, thread) then y.(dynamicCalls := y.dynamicCalls + 1) else y
    case ControlToolCalled(thread, turn, _, _, _, _, _) =>
      if turn == t && HasContext(s.lineage, thread) then y.(controlCalls := y.controlCalls + 1) else y
    case TurnSteerAnswered(connection, request, turn) =>
      var r := Answered(s, connection, request);
      if turn == t && t in s.turns && r.Some? && r.value.TurnSteer? then y.(steers := y.steers + 1) else y
    case InterruptAnswered(connection, request) =>
      var r := Answered(s, connection, request);
      if r.Some? && r.value.Interrupt? && r.value.turn == t then y.(interrupts := y.interrupts + {r.value.atMs}) else y
    case ImagePrepared(turn, image) => if turn == t then y.(preparations := y.preparations + [image]) else y
    case SkillsInvoked(turn, resources) => if turn == t then y.(skills := y.skills + set r | r in resources) else y
    case _ => y
  }

  lemma SeenIs(ms: seq<Message>, m: Message, t: TurnId, y: Tally)
    ensures Seen(ms, m, t, y) == SeenBy(Run(INITIAL, ms).state, m, t, y)
  {
    if m.TurnSteerAnswered? || m.InterruptAnswered? {
      RequestOfIs(ms, m);
    }
  }

  // What a message writes to each field that adds up.

  lemma CountsWritten(s: State, m: Message, t: TurnId)
    ensures
      var c := TurnAt(s.turns, t).toolCounts;
      WrittenTo(s, m, t).toolCounts ==
      if m.ItemCompleted? && m.turn == t && t in s.turns then CountItem(c, m.item)
      else if m.CodeModeCompleted? && m.turn == t && HasContext(s.lineage, m.thread)
      then c.(total := c.total + 1, dynamicToolCall := c.dynamicToolCall + 1)
      else if m.ControlToolCalled? && m.turn == t && HasContext(s.lineage, m.thread) then c.(total := c.total + 1)
      else c
  {
  }

  /** The time of an interrupt of turn `t` that the message accepts. */
  function InterruptOf(s: State, m: Message, t: TurnId): Option<nat> {
    if !m.InterruptAnswered? then None else
      var r := Answered(s, m.connection, m.request);
      if r.Some? && r.value.Interrupt? && r.value.turn == t then Some(r.value.atMs) else None
  }

  lemma InterruptWritten(s: State, m: Message, t: TurnId)
    ensures
      var before, at := TurnAt(s.turns, t).interruptRequestedAtMs, InterruptOf(s, m, t);
      WrittenTo(s, m, t).interruptRequestedAtMs ==
      if at.None? then before else if before.Some? && before.value < at.value then before else at
  {
  }

  lemma SteersWritten(s: State, m: Message, t: TurnId)
    ensures WrittenTo(s, m, t).steerCount == TurnAt(s.turns, t).steerCount +
            if && m.TurnSteerAnswered? && m.turn == t && t in s.turns
               && Answered(s, m.connection, m.request).Some? && Answered(s, m.connection, m.request).value.TurnSteer?
            then 1 else 0
  {
  }

  /** Only two messages write the images and skills of a turn. */
  lemma NotesKept(s: State, m: Message, t: TurnId)
    requires !m.SkillsInvoked?
    ensures WrittenTo(s, m, t).resourceSkills == TurnAt(s.turns, t).resourceSkills
    ensures !m.ImagePrepared? ==> WrittenTo(s, m, t).imagePreparations == TurnAt(s.turns, t).imagePreparations
  {
  }

  lemma PreparationsWritten(s: State, m: Message, t: TurnId)
    ensures
      var before := TurnAt(s.turns, t).imagePreparations;
      WrittenTo(s, m, t).imagePreparations == if m.ImagePrepared? && m.turn == t then before + [m.image] else before
  {
    if !m.ImagePrepared? && !m.SkillsInvoked? {
      NotesKept(s, m, t);
    }
  }

  lemma SkillsWritten(s: State, m: Message, t: TurnId)
    ensures
      var before := TurnAt(s.turns, t).resourceSkills;
      WrittenTo(s, m, t).resourceSkills ==
      if m.SkillsInvoked? && m.turn == t then before + set r | r in m.implicitResources else before
  {
    if m.SkillsInvoked? {
      SeenAfterIs(TurnAt(s.turns, m.turn).resourceSkills, m.implicitResources);
    } else {
      NotesKept(s, m, t);
    }
  }

  lemma ItemCountsFollow(s: State, m: Message, t: TurnId, y: Tally)
    requires m.ItemCompleted? && CountsFit(TurnAt(s.turns, t).toolCounts, y)
    ensures CountsFit(WrittenTo(s, m, t).toolCounts, SeenBy(s, m, t, y))
  {
    CountsWritten(s, m, t);
    ItemFits(TurnAt(s.turns, t).toolCounts, m.item, y);
  }

  lemma OtherCountsFollow(s: State, m: Message, t: TurnId, y: Tally)
    requires !m.ItemCompleted? && CountsFit(TurnAt(s.turns, t).toolCounts, y)
    ensures CountsFit(WrittenTo(s, m, t).toolCounts, SeenBy(s, m, t, y))
  {
    CountsWritten(s, m, t);
  }

  lemma CountsFollow(s: State, m: Message, t: TurnId, y: Tally)
    requires CountsFit(TurnAt(s.turns, t).toolCounts, y)
    ensures CountsFit(WrittenTo(s, m, t).toolCounts, SeenBy(s, m, t, y))
  {
    if m.ItemCompleted? {
      ItemCountsFollow(s, m, t, y);
    } else {
      OtherCountsFollow(s, m, t, y);
    }
  }

  lemma InterruptsFollow(s: State, m: Message, t: TurnId, y: Tally)
    requires EarliestOf(TurnAt(s.turns, t).interruptRequestedAtMs, y.interrupts)
    ensures EarliestOf(WrittenTo(s, m, t).interruptRequestedAtMs, SeenBy(s, m, t, y).interrupts)
  {
    InterruptWritten(s, m, t);
    SeenInterrupts(s, m, t, y);
    if InterruptOf(s, m, t).Some? {
      EarliestWith(TurnAt(s.turns, t).interruptRequestedAtMs, y.interrupts, InterruptOf(s, m, t).value);
    }
  }

  lemma SeenInterrupts(s: State, m: Message, t: TurnId, y: Tally)
    ensures
      var at := InterruptOf(s, m, t);
      SeenBy(s, m, t, y).interrupts == if at.Some? then y.interrupts + {at.value} else y.interrupts
  {
  }

  lemma EarliestWith(before: Option<nat>, times: set<nat>, at: nat)
    requires EarliestOf(before, times)
    ensures EarliestOf(if before.Some? && before.value < at then before else Some(at), times + {at})
  {
  }

  lemma SteersFollow(s: State, m: Message, t: TurnId, y: Tally)
    requires TurnAt(s.turns, t).steerCount == y.steers
    ensures WrittenTo(s, m, t).steerCount == SeenBy(s, m, t, y).steers
  {
    SteersWritten(s, m, t);
  }

  lemma PreparationsFollow(s: State, m: Message, t: TurnId, y: Tally)
    requires TurnAt(s.turns, t).imagePreparations == y.preparations
    ensures WrittenTo(s, m, t).imagePreparations == SeenBy(s, m, t, y).preparations
  {
    PreparationsWritten(s, m, t);
  }

  lemma SkillsFollow(s: State, m: Message, t: TurnId, y: Tally)
    requires TurnAt(s.turns, t).resourceSkills == y.skills
    ensures WrittenTo(s, m, t).resourceSkills == SeenBy(s, m, t, y).skills
  {
    SkillsWritten(s, m, t);
  }

  /** The tally keeps up with the turn. */
  lemma TallyNext(s: State, m: Message, t: TurnId, y: Tally)
    requires Fits(TurnAt(s.turns, t), y)
    ensures Fits(WrittenTo(s, m, t), SeenBy(s, m, t, y))
  {
    CountsFollow(s, m, t, y);
    InterruptsFollow(s, m, t, y);
    SteersFollow(s, m, t, y);
    PreparationsFollow(s, m, t, y);
    SkillsFollow(s, m, t, y);
  }

  lemma FitsUnmarked(a: TurnState, b: TurnState, y: Tally)
    requires Unmarked(a) == Unmarked(b) && Fits(b, y)
    ensures Fits(a, y)
  {
    assert a == b.(emitted := a.emitted);
  }

  /** In every reachable state the tool counts of a turn, its steers, its interrupt time, its images
      and its skills are those of the messages since its present state began. */
  lemma {:induction false} TallyTellsHistory(ms: seq<Message>, t: TurnId)
    ensures Fits(TurnAt(Run(INITIAL, ms).state.turns, t), TallySince(ms, t))
  {
    if ms != [] && Known(ms, t) {
      var init, m := ms[..|ms| - 1], ms[|ms| - 1];
      TallyTellsHistory(init, t);
      TallyNext(Run(INITIAL, init).state, m, t, TallySince(init, t));
      SeenIs(init, m, t, TallySince(init, t));
      StepWrites(Run(INITIAL, init).state, m, t);
      FitsUnmarked(Run(INITIAL, ms).state.turns[t], WrittenTo(Run(INITIAL, init).state, m, t), TallyWith(ms, t));
    }
  }
}
