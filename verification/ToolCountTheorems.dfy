/** The tool counts of a turn in every reachable state. */
module ToolCountTheorems {
  import opened Common
  import opened ThreadLineage
  import opened TurnAssembly
  import opened ReducerModel
  import opened TurnHistory

  /** A control tool call that is counted for turn `t`. */
  predicate CountsControl(s: State, m: Message, t: TurnId) {
    m.ControlToolCalled? && m.turn == t && HasContext(s.lineage, m.thread)
  }

  /** The control calls counted since the present state of turn `t` was created. */
  function ControlCalls(ms: seq<Message>, t: TurnId): nat {
    if ms == [] || t !in Run(INITIAL, ms).state.turns then 0 else
      var init, m := ms[..|ms| - 1], ms[|ms| - 1];
      var before := Run(INITIAL, init).state;
      (if t in before.turns then ControlCalls(init, t) else 0) + (if CountsControl(before, m, t) then 1 else 0)
  }

  /** The counts add up, with `control` calls outside the seven categories. */
  ghost predicate AddsUp(c: ToolCounts, control: nat) {
    c.total == Categorised(c) + control && c.subagentToolCall == |c.subagentToolCallIds|
  }

  lemma SubAgentAddsUp(c: ToolCounts, id: CallId, control: nat)
    requires AddsUp(c, control)
    ensures AddsUp(CountSubAgent(c, id), control)
  {
    assert id !in c.subagentToolCallIds ==> |c.subagentToolCallIds + {id}| == |c.subagentToolCallIds| + 1;
  }

  lemma CountItemAddsUp(c: ToolCounts, item: Item, control: nat)
    requires AddsUp(c, control)
    ensures AddsUp(CountItem(c, item), control)
  {
    match item.kind
    case CollabItem => SubAgentAddsUp(c, item.id, control);
    case SubAgentActivityItem(_) => SubAgentAddsUp(c, item.id, control);
    case _ =>
  }

  lemma StepAddsUp(s: State, m: Message, t: TurnId, control: nat)
    requires AddsUp(TurnAt(s.turns, t).toolCounts, control)
    requires t in Step(s, m).state.turns
    ensures AddsUp(Step(s, m).state.turns[t].toolCounts, control + if CountsControl(s, m, t) then 1 else 0)
  {
    StepWrites(s, m, t);
    CountsWritten(s, m, t);
    if m.ItemCompleted? {
      CountItemAddsUp(TurnAt(s.turns, t).toolCounts, m.item, control);
    }
  }

  /** In every reachable state, the total tool count of a turn is the sum of its seven categories
      plus the control calls counted for that state of the turn, and its sub-agent count is the
      number of distinct sub-agent calls seen. */
  lemma {:induction false} CountsAddUp(ms: seq<Message>, t: TurnId)
    requires t in Run(INITIAL, ms).state.turns
    ensures AddsUp(Run(INITIAL, ms).state.turns[t].toolCounts, ControlCalls(ms, t))
  {
    if ms != [] {
      var init := ms[..|ms| - 1];
      var before := Run(INITIAL, init).state;
      var control := if t in before.turns then ControlCalls(init, t) else 0;
      if t in before.turns {
        CountsAddUp(init, t);
      }
      StepAddsUp(before, ms[|ms| - 1], t, control);
    }
  }
}
