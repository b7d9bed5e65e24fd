/**
 * ClaudeCodeAgent (com.intershop.mico.agent.agents): the BaseAgent subclass
 * that starts `claude` (or `claude.cmd` on Windows) without inheriting the
 * console, so that BaseAgent.postExecution can write the prompt to the
 * process's standard input. The prompt never appears on the command line.
 * The subclass is modelled by composition: `base` holds the inherited fields.
 */
module IntershopClaudeAgent {
  import opened Text
  import opened BaseAgent

  /** `claude.cmd` when the lower-cased OS name contains "win", `claude` otherwise. */
  function ExecutableFor(osName: string): (exe: string)
    ensures exe == "claude.cmd" <==> Contains(ToLower(osName), "win")
    ensures exe == "claude" || exe == "claude.cmd"
  {
    if Contains(ToLower(osName), "win") then "claude.cmd" else "claude"
  }

  lemma WindowsRunsCmd()
    ensures ExecutableFor("Windows 11") == "claude.cmd"
  {
    assert ToLower("Windows 11")[0..3] == "win";
    ContainsAt(ToLower("Windows 11"), "win", 0);
  }

  /** What one call appends to the command; setModel and setPrompt only store their value. */
  function CallArgs(c: Call, model: Option<string>): seq<string> {
    match c
    case SetModel(_) => []
    case SetDirectory(d) => ["--add-dir", d]
    case AllowAllTools => ["--dangerously-skip-permissions"]
    case SetPrompt(_) => []
    case Execute => OptionalModelArgs(model)
  }

  /** The argument list after a sequence of calls on an agent started with `executable`. */
  function CommandAfter(executable: string, calls: seq<Call>): (cmd: seq<string>)
    ensures |cmd| >= 1 && cmd[0] == executable
    decreases |calls|
  {
    if calls == [] then [executable]
    else
      var prefix := calls[..|calls| - 1];
      CommandAfter(executable, prefix) + CallArgs(calls[|calls| - 1], LastModel(prefix))
  }

  /** The calls with every setPrompt removed. */
  function WithoutPrompts(calls: seq<Call>): (r: seq<Call>)
    ensures forall k :: 0 <= k < |r| ==> !r[k].SetPrompt?
    ensures |r| <= |calls|
    decreases |calls|
  {
    if calls == [] then []
    else if calls[|calls| - 1].SetPrompt? then WithoutPrompts(calls[..|calls| - 1])
    else WithoutPrompts(calls[..|calls| - 1]) + [calls[|calls| - 1]]
  }

  lemma {:induction false} ModelIgnoresPrompts(calls: seq<Call>)
    ensures LastModel(WithoutPrompts(calls)) == LastModel(calls)
    decreases |calls|
  {
    if calls != [] {
      var prefix := calls[..|calls| - 1];
      ModelIgnoresPrompts(prefix);
      if !calls[|calls| - 1].SetPrompt? {
        var r := WithoutPrompts(calls);
        assert r[..|r| - 1] == WithoutPrompts(prefix);
      }
    }
  }

  /**
   * setPrompt never reaches the command line: whatever else was called, the
   * command is the one the same calls without any setPrompt produce.
   */
  lemma {:induction false} PromptNeverOnCommandLine(executable: string, calls: seq<Call>)
    ensures CommandAfter(executable, calls) == CommandAfter(executable, WithoutPrompts(calls))
    decreases |calls|
  {
    if calls != [] {
      var prefix := calls[..|calls| - 1];
      PromptNeverOnCommandLine(executable, prefix);
      ModelIgnoresPrompts(prefix);
      if !calls[|calls| - 1].SetPrompt? {
        var r := WithoutPrompts(calls);
        assert r[..|r| - 1] == WithoutPrompts(prefix);
      }
    }
  }

  /**
   * A fresh agent configured as an agent factory does and given one phase's
   * prompt: the command holds no prompt, and the prompt is what
   * postExecution writes to the process.
   */
  lemma FactoryPhaseCommand(executable: string, model: Option<string>, directory: string, prompt: string)
    ensures var calls := [Call.SetModel(model), Call.AllowAllTools, Call.SetDirectory(directory), Call.SetPrompt(prompt), Call.Execute];
      CommandAfter(executable, calls)
        == [executable, "--dangerously-skip-permissions", "--add-dir", directory] + OptionalModelArgs(model)
      && LastPrompt(calls) == Some(prompt)
  {
    var c1 := [Call.SetModel(model)];
    var c2 := c1 + [Call.AllowAllTools];
    var c3 := c2 + [Call.SetDirectory(directory)];
    var c4 := c3 + [Call.SetPrompt(prompt)];
    var c5 := c4 + [Call.Execute];
    assert c1[..0] == [] && c2[..1] == c1 && c3[..2] == c2 && c4[..3] == c3 && c5[..4] == c4;
    assert LastModel(c1) == model && CommandAfter(executable, c1) == [executable];
    assert LastModel(c2) == model && CommandAfter(executable, c2) == [executable, "--dangerously-skip-permissions"];
    assert LastModel(c3) == model && CommandAfter(executable, c3) == [executable, "--dangerously-skip-permissions", "--add-dir", directory];
    assert LastModel(c4) == model && LastPrompt(c4) == Some(prompt);
    assert c5 == [Call.SetModel(model), Call.AllowAllTools, Call.SetDirectory(directory), Call.SetPrompt(prompt), Call.Execute];
  }

  class ClaudeCodeAgent {
    /** The fields inherited from BaseAgent. */
    const base: Agent
    const executable: string
    /** The Agent calls made so far. */
    ghost var calls: seq<Call>

    ghost predicate Valid()
      reads this, base
    {
      base.command == CommandAfter(executable, calls) &&
      base.model == LastModel(calls) &&
      base.promptText == LastPrompt(calls)
    }

    /** `osName` is the value of the os.name system property. */
    constructor (workingDirectory: string, osName: string)
      ensures fresh(base) && Valid() && calls == []
      ensures executable == ExecutableFor(osName)
      ensures base.workingDirectory == workingDirectory && base.command == [executable]
      ensures base.executionCommand == None
    {
      var lower := ToLower(osName);
      if Contains(lower, "win") {
        executable := "claude.cmd";
      } else {
        executable := "claude";
      }
      base := new Agent(workingDirectory);
      calls := [];
      new;
      base.AddArgs([executable]);
    }

    method SetModel(m: Option<string>)
      requires Valid()
      modifies this, base
      ensures Valid() && calls == old(calls) + [Call.SetModel(m)]
      ensures base.model == m && base.command == old(base.command)
    {
      base.SetModel(m);
      calls := calls + [Call.SetModel(m)];
      assert calls[..|calls| - 1] == old(calls);
    }

    method SetDirectory(directory: string)
      requires Valid()
      modifies this, base
      ensures Valid() && calls == old(calls) + [Call.SetDirectory(directory)]
      ensures base.command == old(base.command) + ["--add-dir", directory]
    {
      base.SetDirectory(directory);
      calls := calls + [Call.SetDirectory(directory)];
      assert calls[..|calls| - 1] == old(calls);
    }

    method AllowAllTools()
      requires Valid()
      modifies this, base
      ensures Valid() && calls == old(calls) + [Call.AllowAllTools]
      ensures base.command == old(base.command) + ["--dangerously-skip-permissions"]
    {
      base.AddArgs(["--dangerously-skip-permissions"]);
      calls := calls + [Call.AllowAllTools];
      assert calls[..|calls| - 1] == old(calls);
    }

    /** Inherited setPrompt: the text is stored for postExecution. */
    method SetPrompt(text: string)
      requires Valid()
      modifies this, base
      ensures Valid() && calls == old(calls) + [Call.SetPrompt(text)]
      ensures base.command == old(base.command) && base.promptText == Some(text)
    {
      base.SetPrompt(text);
      calls := calls + [Call.SetPrompt(text)];
      assert calls[..|calls| - 1] == old(calls);
    }

    /** execute(): `--model` only for a non-empty model; standard input stays with the caller. */
    method Execute() returns (pb: ProcessBuilder)
      requires Valid()
      modifies this, base
      ensures Valid() && calls == old(calls) + [Call.Execute]
      ensures base.command == old(base.command) + OptionalModelArgs(base.model)
      ensures pb == ProcessBuilder(base.command, base.workingDirectory, false)
      ensures base.executionCommand == Some(ListToString(base.command))
    {
      if base.model.Some? && base.model.value != [] {
        base.AddArgs(["--model", base.model.value]);
      }
      pb := ProcessBuilder(base.command, base.workingDirectory, false);
      base.RecordExecution();
      calls := calls + [Call.Execute];
      assert calls[..|calls| - 1] == old(calls);
    }

    /** Inherited postExecution: the last prompt set is what goes to standard input. */
    method PostExecution(p: Process) returns (outcome: PostOutcome)
      requires Valid()
      ensures outcome == PostExecutionOutcome(LastPrompt(calls), p)
    {
      outcome := base.PostExecution(p);
    }
  }
}
