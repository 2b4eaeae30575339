/** The `dispatch_swarm` tool: up to ten sub-agents run the same shared
    instruction on one task each, started one second apart, and their
    reports are joined in task order under a fixed header. */
module Swarm {
  import opened Text

  const MAX_AGENTS: nat := 10
  const TOO_MANY: string := "❌ " + "Too many agents requested. Max limit is 10."
  const HEADER: string := "✅ Swarm Execution Complete.\n\n"
  const SEPARATOR: string := "\n\n---\n\n"
  const STAGGER_MS: nat := 1000

  /** One sub-agent start: its delay, its agent id (1-based), its task and
      the shared instruction. */
  datatype Launch = Launch(delayMs: nat, agentId: nat, task: string, instruction: string)

  /** How a sub-agent run ended: the model's final text, or the message of
      the error the runner caught. The runner never throws. */
  datatype AgentOutcome = Finished(text: string) | Crashed(message: string)

  /** The starts `tasks.map((task, index) => ...)` schedules. */
  function Plan(tasks: seq<string>, instruction: string): (launches: seq<Launch>)
    ensures |launches| == |tasks|
    ensures forall i :: 0 <= i < |tasks| ==>
      launches[i] == Launch(i * STAGGER_MS, i + 1, tasks[i], instruction)
  {
    seq(|tasks|, i requires 0 <= i < |tasks| => Launch(i * STAGGER_MS, i + 1, tasks[i], instruction))
  }

  /** The string `runSubAgent` returns for agent `agentId`. */
  function AgentReport(agentId: nat, outcome: AgentOutcome): string
  {
    match outcome
    case Finished(text) => "[Agent #" + NatToString(agentId) + " Result]: " + text
    case Crashed(message) => "[Agent #" + NatToString(agentId) + " Error]: " + message
  }

  /** The results `Promise.all` collects: one per launch, in launch order,
      whatever order the runs finish in. */
  function Results(launches: seq<Launch>, runner: Launch -> AgentOutcome): (results: seq<string>)
    ensures |results| == |launches|
    ensures forall i :: 0 <= i < |launches| ==> results[i] == AgentReport(launches[i].agentId, runner(launches[i]))
  {
    seq(|launches|, i requires 0 <= i < |launches| => AgentReport(launches[i].agentId, runner(launches[i])))
  }

  /** What `execute` does: the reply, and the sub-agents it starts. */
  datatype Dispatched = Dispatched(reply: string, launches: seq<Launch>)

  function Dispatch(tasks: seq<string>, instruction: string, runner: Launch -> AgentOutcome): Dispatched
  {
    if |tasks| > MAX_AGENTS then Dispatched(TOO_MANY, [])
    else
      var launches := Plan(tasks, instruction);
      Dispatched(HEADER + Join(Results(launches, runner), SEPARATOR), launches)
  }

  // ---------------------------------------------------------------------
  // Properties

  /** More than ten tasks are refused and no sub-agent starts; up to ten,
      exactly ten included, the reply is the header followed by the report. */
  lemma CapCheck(tasks: seq<string>, instruction: string, runner: Launch -> AgentOutcome)
    ensures var d := Dispatch(tasks, instruction, runner);
      (|tasks| > 10 <==> d.reply == TOO_MANY)
      && (|tasks| > 10 ==> d.launches == [])
      && (|tasks| <= 10 <==> StartsWith(d.reply, HEADER))
  {
    assert !StartsWith(TOO_MANY, HEADER) by {
      assert TOO_MANY[0] == '❌';
    }
  }

  /** Agent `i + 1` starts after `i` seconds with task `i` and the shared
      instruction unchanged, and every task gets one agent. */
  lemma Staggered(tasks: seq<string>, instruction: string, runner: Launch -> AgentOutcome, i: nat)
    requires |tasks| <= 10 && i < |tasks|
    ensures var d := Dispatch(tasks, instruction, runner);
      |d.launches| == |tasks|
      && d.launches[i].delayMs == 1000 * i && d.launches[i].agentId == i + 1
      && d.launches[i].task == tasks[i] && d.launches[i].instruction == instruction
  {
  }

  /** The report holds agent `i + 1`'s report at the offset that follows the
      reports of the agents before it, each followed by the separator: the
      order is task order, independent of completion order. */
  lemma ReportInTaskOrder(tasks: seq<string>, instruction: string, runner: Launch -> AgentOutcome, i: nat)
    requires |tasks| <= 10 && i < |tasks|
    ensures var d := Dispatch(tasks, instruction, runner);
      var results := Results(Plan(tasks, instruction), runner);
      var section := AgentReport(i + 1, runner(Launch(1000 * i, i + 1, tasks[i], instruction)));
      var at := |HEADER| + JoinOffset(results, SEPARATOR, i);
      at + |section| <= |d.reply| && d.reply[at..at + |section|] == section
  {
    var results := Results(Plan(tasks, instruction), runner);
    assert Plan(tasks, instruction)[i] == Launch(1000 * i, i + 1, tasks[i], instruction) by {
      assert i * STAGGER_MS == 1000 * i;
    }
    DispatchReply(tasks, instruction, runner);
    PrefixedJoinSlice(HEADER, results, SEPARATOR, i);
  }

  /** Up to ten tasks, the reply is the header and the joined reports. */
  lemma DispatchReply(tasks: seq<string>, instruction: string, runner: Launch -> AgentOutcome)
    requires |tasks| <= 10
    ensures Dispatch(tasks, instruction, runner).reply == HEADER + Join(Results(Plan(tasks, instruction), runner), SEPARATOR)
  {
  }

  /** An empty task list gives just the header. */
  lemma EmptySwarm(instruction: string, runner: Launch -> AgentOutcome)
    ensures Dispatch([], instruction, runner) == Dispatched(HEADER, [])
  {
    assert HEADER + "" == HEADER;
  }

  /** Every agent's report opens with its own id, so the sections can be
      told apart. */
  lemma ReportNamesAgent(agentId: nat, outcome: AgentOutcome)
    ensures StartsWith(AgentReport(agentId, outcome), "[Agent #" + NatToString(agentId) + " ")
  {
    var head := "[Agent #" + NatToString(agentId) + " ";
    var r := AgentReport(agentId, outcome);
    match outcome {
      case Finished(text) =>
        assert r == head + ("Result]: " + text);
      case Crashed(message) =>
        assert r == head + ("Error]: " + message);
    }
  }
}
