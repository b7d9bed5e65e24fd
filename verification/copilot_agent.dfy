/**
 * CopilotAgent (com.mico.agent.agents): builds the `copilot` command line.
 * Every builder call appends to one argument list that is never reset, and
 * execute() adds `--model`, falling back to gpt-4.1 when no model was set.
 */
module CopilotAgent {
  import opened Text
  import opened BaseAgent

  const Executable := "copilot"
  const DefaultModel := "gpt-4.1"

  /** The model after a sequence of calls: setModel stores, execute fills in the default for null. */
  function ModelAfter(calls: seq<Call>): (m: Option<string>)
    ensures m == LastModel(calls) || (LastModel(calls) == None && m == Some(DefaultModel))
    decreases |calls|
  {
    if calls == [] then None
    else
      var before := ModelAfter(calls[..|calls| - 1]);
      match calls[|calls| - 1]
      case SetModel(model) => model
      case Execute => if before.None? then Some(DefaultModel) else before
      case _ => before
  }

  /** What one call appends to the command, given the model stored before it. */
  function CallArgs(c: Call, model: Option<string>): seq<string> {
    match c
    case SetModel(_) => []
    case SetDirectory(d) => ["--add-dir", d]
    case AllowAllTools => ["--allow-all-tools"]
    case SetPrompt(t) => ["--prompt", t]
    case Execute => ["--model", if model.None? then DefaultModel else model.value]
  }

  /** The argument list after a sequence of calls on a new agent. */
  function CommandAfter(calls: seq<Call>): (cmd: seq<string>)
    ensures |cmd| >= 1 && cmd[0] == Executable
    decreases |calls|
  {
    if calls == [] then [Executable]
    else
      var prefix := calls[..|calls| - 1];
      CommandAfter(prefix) + CallArgs(calls[|calls| - 1], ModelAfter(prefix))
  }

  /**
   * The command only grows: whatever a later call does, the arguments of the
   * earlier calls, prompts included, stay at the front of the list.
   */
  lemma {:induction false} CommandGrows(calls: seq<Call>, more: seq<Call>)
    ensures CommandAfter(calls) <= CommandAfter(calls + more)
    decreases |more|
  {
    if more == [] {
      assert calls + more == calls;
    } else {
      var init := more[..|more| - 1];
      CommandGrows(calls, init);
      assert (calls + more)[..|calls + more| - 1] == calls + init;
    }
  }

  /**
   * A fresh agent configured as the agent factory does (model, all tools, the
   * directory) and then given one phase's prompt: execute() runs
   * `copilot --allow-all-tools --add-dir <dir> --prompt <prompt> --model <m>`,
   * where <m> is gpt-4.1 exactly when no model was given.
   */
  lemma FactoryPhaseCommand(model: Option<string>, directory: string, prompt: string)
    ensures CommandAfter([Call.SetModel(model), Call.AllowAllTools, Call.SetDirectory(directory), Call.SetPrompt(prompt), Call.Execute])
      == ["copilot", "--allow-all-tools", "--add-dir", directory, "--prompt", prompt, "--model",
          if model.None? then "gpt-4.1" else model.value]
  {
    var c1 := [Call.SetModel(model)];
    var c2 := c1 + [Call.AllowAllTools];
    var c3 := c2 + [Call.SetDirectory(directory)];
    var c4 := c3 + [Call.SetPrompt(prompt)];
    var c5 := c4 + [Call.Execute];
    assert c1[..0] == [] && c2[..1] == c1 && c3[..2] == c2 && c4[..3] == c3 && c5[..4] == c4;
    assert ModelAfter(c1) == model && CommandAfter(c1) == ["copilot"];
    assert ModelAfter(c2) == model && CommandAfter(c2) == ["copilot", "--allow-all-tools"];
    assert ModelAfter(c3) == model && CommandAfter(c3) == ["copilot", "--allow-all-tools", "--add-dir", directory];
    assert ModelAfter(c4) == model;
    assert c5 == [Call.SetModel(model), Call.AllowAllTools, Call.SetDirectory(directory), Call.SetPrompt(prompt), Call.Execute];
  }

  class CopilotAgent {
    var command: seq<string>
    var executionCommand: Option<string>
    const workingDirectory: string
    var model: Option<string>
    /** The Agent calls made so far. */
    ghost var calls: seq<Call>

    ghost predicate Valid()
      reads this
    {
      command == CommandAfter(calls) && model == ModelAfter(calls)
    }

    constructor (workingDirectory: string)
      ensures Valid() && calls == []
      ensures this.workingDirectory == workingDirectory && command == ["copilot"]
      ensures model == None && executionCommand == None
    {
      this.workingDirectory := workingDirectory;
      command := [Executable];
      executionCommand := None;
      model := None;
      calls := [];
    }

    method SetModel(m: Option<string>)
      modifies this
      ensures old(Valid()) ==> Valid()
      ensures calls == old(calls) + [Call.SetModel(m)]
      ensures model == m && command == old(command) && executionCommand == old(executionCommand)
    {
      model := m;
      calls := calls + [Call.SetModel(m)];
      assert calls[..|calls| - 1] == old(calls);
    }

    method SetDirectory(directory: string)
      modifies this
      ensures old(Valid()) ==> Valid()
      ensures calls == old(calls) + [Call.SetDirectory(directory)]
      ensures command == old(command) + ["--add-dir", directory]
      ensures model == old(model) && executionCommand == old(executionCommand)
    {
      command := command + ["--add-dir", directory];
      calls := calls + [Call.SetDirectory(directory)];
      assert calls[..|calls| - 1] == old(calls);
    }

    method AllowAllTools()
      modifies this
      ensures old(Valid()) ==> Valid()
      ensures calls == old(calls) + [Call.AllowAllTools]
      ensures command == old(command) + ["--allow-all-tools"]
      ensures model == old(model) && executionCommand == old(executionCommand)
    {
      command := command + ["--allow-all-tools"];
      calls := calls + [Call.AllowAllTools];
      assert calls[..|calls| - 1] == old(calls);
    }

    /** The prompt goes on the command line, after whatever is there already. */
    method SetPrompt(text: string)
      modifies this
      ensures old(Valid()) ==> Valid()
      ensures calls == old(calls) + [Call.SetPrompt(text)]
      ensures command == old(command) + ["--prompt", text]
      ensures model == old(model) && executionCommand == old(executionCommand)
    {
      command := command + ["--prompt", text];
      calls := calls + [Call.SetPrompt(text)];
      assert calls[..|calls| - 1] == old(calls);
    }

    /** execute(): the model, defaulted first when null, is appended on every call. */
    method Execute() returns (pb: ProcessBuilder)
      modifies this
      ensures old(Valid()) ==> Valid()
      ensures calls == old(calls) + [Call.Execute]
      ensures model == (if old(model).None? then Some(DefaultModel) else old(model))
      ensures command == old(command) + ["--model", model.value]
      ensures pb == ProcessBuilder(command, workingDirectory, true)
      ensures executionCommand == Some(ListToString(command))
    {
      if model.None? {
        SetDefaultModel();
      }
      command := command + ["--model", model.value];
      pb := ProcessBuilder(command, workingDirectory, true);
      executionCommand := Some(ListToString(pb.command));
      calls := calls + [Call.Execute];
      assert calls[..|calls| - 1] == old(calls);
    }

    method SetDefaultModel()
      modifies this
      ensures model == Some(DefaultModel)
      ensures command == old(command) && executionCommand == old(executionCommand) && calls == old(calls)
    {
      model := Some(DefaultModel);
    }
  }
}
