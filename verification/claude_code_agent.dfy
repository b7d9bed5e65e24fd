/**
 * ClaudeCodeAgent (com.mico.agent.agents): builds the `claude` command line.
 * The prompt is passed with `-p`; `--model` is added by execute() only for a
 * non-empty model, and the process inherits the console.
 */
module ClaudeCodeAgent {
  import opened Text
  import opened BaseAgent

  const Executable := "claude"

  /** What one call appends to the command, given the model stored before it. */
  function CallArgs(c: Call, model: Option<string>): seq<string> {
    match c
    case SetModel(_) => []
    case SetDirectory(d) => ["--add-dir", d]
    case AllowAllTools => ["--dangerously-skip-permissions"]
    case SetPrompt(t) => ["-p", t]
    case Execute => OptionalModelArgs(model)
  }

  /** The argument list after a sequence of calls on a new agent. */
  function CommandAfter(calls: seq<Call>): (cmd: seq<string>)
    ensures |cmd| >= 1 && cmd[0] == Executable
    decreases |calls|
  {
    if calls == [] then [Executable]
    else
      var prefix := calls[..|calls| - 1];
      CommandAfter(prefix) + CallArgs(calls[|calls| - 1], LastModel(prefix))
  }

  /** The command only grows: earlier arguments, prompts included, are never removed. */
  lemma {:induction false} CommandGrows(calls: seq<Call>, more: seq<Call>)
    ensures CommandAfter(calls) <= CommandAfter(calls + more)
    decreases |more|
  {
    if more == [] {
      assert calls + more == calls;
    } else {
      var init := more[..|more| - 1];
      CommandGrows(calls, init);
      assert (calls + more)[..|calls + more| - 1] == calls + init;
    }
  }

  /**
   * A fresh agent configured as the agent factory does and given one phase's
   * prompt runs `claude --dangerously-skip-permissions --add-dir <dir> -p
   * <prompt>`, followed by `--model <m>` only when a non-empty model was given.
   */
  lemma FactoryPhaseCommand(model: Option<string>, directory: string, prompt: string)
    ensures CommandAfter([Call.SetModel(model), Call.AllowAllTools, Call.SetDirectory(directory), Call.SetPrompt(prompt), Call.Execute])
      == ["claude", "--dangerously-skip-permissions", "--add-dir", directory, "-p", prompt]
         + (if model.Some? && model.value != [] then ["--model", model.value] else [])
  {
    var c1 := [Call.SetModel(model)];
    var c2 := c1 + [Call.AllowAllTools];
    var c3 := c2 + [Call.SetDirectory(directory)];
    var c4 := c3 + [Call.SetPrompt(prompt)];
    var c5 := c4 + [Call.Execute];
    assert c1[..0] == [] && c2[..1] == c1 && c3[..2] == c2 && c4[..3] == c3 && c5[..4] == c4;
    assert LastModel(c1) == model && CommandAfter(c1) == ["claude"];
    assert LastModel(c2) == model && CommandAfter(c2) == ["claude", "--dangerously-skip-permissions"];
    assert LastModel(c3) == model && CommandAfter(c3) == ["claude", "--dangerously-skip-permissions", "--add-dir", directory];
    assert LastModel(c4) == model;
    assert c5 == [Call.SetModel(model), Call.AllowAllTools, Call.SetDirectory(directory), Call.SetPrompt(prompt), Call.Execute];
  }

  class ClaudeCodeAgent {
    var command: seq<string>
    var executionCommand: Option<string>
    const workingDirectory: string
    var model: Option<string>
    /** The Agent calls made so far. */
    ghost var calls: seq<Call>

    ghost predicate Valid()
      reads this
    {
      command == CommandAfter(calls) && model == LastModel(calls)
    }

    constructor (workingDirectory: string)
      ensures Valid() && calls == []
      ensures this.workingDirectory == workingDirectory && command == ["claude"]
      ensures model == None && executionCommand == None
    {
      this.workingDirectory := workingDirectory;
      command := [Executable];
      executionCommand := None;
      model := None;
      calls := [];
    }

    method SetModel(m: Option<string>)
      modifies this
      ensures old(Valid()) ==> Valid()
      ensures calls == old(calls) + [Call.SetModel(m)]
      ensures model == m && command == old(command) && executionCommand == old(executionCommand)
    {
      model := m;
      calls := calls + [Call.SetModel(m)];
      assert calls[..|calls| - 1] == old(calls);
    }

    method SetDirectory(directory: string)
      modifies this
      ensures old(Valid()) ==> Valid()
      ensures calls == old(calls) + [Call.SetDirectory(directory)]
      ensures command == old(command) + ["--add-dir", directory]
      ensures model == old(model) && executionCommand == old(executionCommand)
    {
      command := command + ["--add-dir", directory];
      calls := calls + [Call.SetDirectory(directory)];
      assert calls[..|calls| - 1] == old(calls);
    }

    method AllowAllTools()
      modifies this
      ensures old(Valid()) ==> Valid()
      ensures calls == old(calls) + [Call.AllowAllTools]
      ensures command == old(command) + ["--dangerously-skip-permissions"]
      ensures model == old(model) && executionCommand == old(executionCommand)
    {
      command := command + ["--dangerously-skip-permissions"];
      calls := calls + [Call.AllowAllTools];
      assert calls[..|calls| - 1] == old(calls);
    }

    /** The prompt goes on the command line, after whatever is there already. */
    method SetPrompt(text: string)
      modifies this
      ensures old(Valid()) ==> Valid()
      ensures calls == old(calls) + [Call.SetPrompt(text)]
      ensures command == old(command) + ["-p", text]
      ensures model == old(model) && executionCommand == old(executionCommand)
    {
      command := command + ["-p", text];
      calls := calls + [Call.SetPrompt(text)];
      assert calls[..|calls| - 1] == old(calls);
    }

    /** execute(): `--model` only for a non-empty model; the process inherits the console. */
    method Execute() returns (pb: ProcessBuilder)
      modifies this
      ensures old(Valid()) ==> Valid()
      ensures calls == old(calls) + [Call.Execute]
      ensures command == old(command) + OptionalModelArgs(model)
      ensures model == old(model)
      ensures pb == ProcessBuilder(command, workingDirectory, true)
      ensures executionCommand == Some(ListToString(command))
    {
      if model.Some? && model.value != [] {
        command := command + ["--model", model.value];
      }
      pb := ProcessBuilder(command, workingDirectory, true);
      executionCommand := Some(ListToString(pb.command));
      calls := calls + [Call.Execute];
      assert calls[..|calls| - 1] == old(calls);
    }
  }
}
