/**
 * BaseAgent: the state every agent builder keeps (the argument list
 * `command`, the model, the prompt text and the rendered execution command)
 * and postExecution, which hands the prompt to a started process on its
 * standard input. Also the pieces the concrete agents share: the
 * ProcessBuilder they return, List.toString for `executionCommand`, and the
 * optional `--model` arguments.
 */
module BaseAgent {
  import opened Text

  /** A ProcessBuilder as the agents configure it. */
  datatype ProcessBuilder = ProcessBuilder(command: seq<string>, directory: string, inheritIO: bool)

  /** List.toString: the elements between `[` and `]`, separated by ", ". */
  function ListToString(xs: seq<string>): (r: string)
    ensures |r| >= 2 && r[0] == '[' && r[|r| - 1] == ']'
    ensures xs == [] ==> r == "[]"
    ensures |xs| == 1 ==> r == "[" + xs[0] + "]"
  {
    "[" + JoinWith(xs, ", ") + "]"
  }

  /** `--model <model>` when a non-empty model is set, nothing otherwise. */
  function OptionalModelArgs(model: Option<string>): (args: seq<string>)
    ensures args != [] <==> model.Some? && model.value != []
    ensures args != [] ==> args == ["--model", model.value]
  {
    if model.Some? && model.value != [] then ["--model", model.value] else []
  }

  /**
   * What postExecution observes of the started process: whether it is alive
   * before the prompt is written, the I/O error the write raises (if any)
   * and whether the process is alive after that error, its exit code, and
   * what reading its error and output streams gives.
   */
  datatype Process = Process(
    aliveBefore: bool, writeError: Option<string>, aliveAfterWrite: bool,
    exitValue: int, stderr: Result<string>, stdout: Result<string>)

  /** The outcomes of postExecution: nothing to send, the text written to standard input, or an IOException. */
  datatype PostOutcome = NothingSent | Sent(input: string) | Failed(message: string)

  function PrematureExit(exitValue: int): string {
    "Process exited prematurely with code " + IntToString(exitValue)
  }

  /**
   * The message of the IOException reportProcessFailure throws. A failure
   * while reading a stream is swallowed and ends the reading: what was
   * gathered before it is kept.
   */
  function FailureMessage(p: Process): (msg: string)
    ensures PrematureExit(p.exitValue) <= msg
    ensures p.stderr.Err? ==> msg == PrematureExit(p.exitValue)
    ensures p.stderr.Ok? && p.stdout.Ok? && Trim(p.stderr.value) == [] && Trim(p.stdout.value) == [] ==>
      msg == PrematureExit(p.exitValue)
  {
    var base := PrematureExit(p.exitValue);
    if p.stderr.Err? then base
    else
      var withErr := AddSection(base, "\nSTDERR: ", Trim(p.stderr.value));
      if p.stdout.Err? then withErr
      else AddSection(withErr, "\nSTDOUT: ", Trim(p.stdout.value))
  }

  /** A labelled section is added only for non-empty text. */
  function AddSection(msg: string, heading: string, text: string): (r: string)
    ensures msg <= r
    ensures text == [] ==> r == msg
  {
    if text == [] then msg else msg + heading + text
  }

  /** postExecution for a given prompt text and process. */
  function PostExecutionOutcome(promptText: Option<string>, p: Process): (o: PostOutcome)
  {
    if promptText.None? then NothingSent
    else if !p.aliveBefore then Failed(FailureMessage(p))
    else if p.writeError.None? then Sent(promptText.value + "\n")
    else if !p.aliveAfterWrite then Failed(FailureMessage(p))
    else Failed(p.writeError.value)
  }

  /**
   * The three outcomes: without a prompt nothing happens; a process that is
   * dead before the write, or dies while the write fails, gives the
   * premature-exit message; otherwise the prompt and a line break are
   * written, or the write's own error is rethrown.
   */
  lemma PostExecutionCases(promptText: Option<string>, p: Process)
    ensures promptText.None? <==> PostExecutionOutcome(promptText, p) == NothingSent
    ensures PostExecutionOutcome(promptText, p).Sent? <==> promptText.Some? && p.aliveBefore && p.writeError.None?
    ensures PostExecutionOutcome(promptText, p).Sent? ==> PostExecutionOutcome(promptText, p).input == promptText.value + "\n"
    ensures promptText.Some? && (!p.aliveBefore || (p.writeError.Some? && !p.aliveAfterWrite)) ==>
      PostExecutionOutcome(promptText, p).Failed? &&
      PrematureExit(p.exitValue) <= PostExecutionOutcome(promptText, p).message
    ensures promptText.Some? && p.aliveBefore && p.writeError.Some? && p.aliveAfterWrite ==>
      PostExecutionOutcome(promptText, p) == Failed(p.writeError.value)
  {
  }

  /**
   * The calls of the Agent interface, in the order a caller makes them. The
   * concrete agents are specified by the command line a sequence of calls
   * leaves behind.
   */
  datatype Call = SetModel(model: Option<string>) | SetDirectory(directory: string) | AllowAllTools | SetPrompt(text: string) | Execute

  /** The model the last setModel call stored; None (Java's null) before any. */
  function LastModel(calls: seq<Call>): (m: Option<string>)
    ensures (forall k :: 0 <= k < |calls| ==> !calls[k].SetModel?) ==> m == None
    ensures m.Some? ==> exists k :: 0 <= k < |calls| && calls[k] == Call.SetModel(m)
    decreases |calls|
  {
    if calls == [] then None
    else if calls[|calls| - 1].SetModel? then calls[|calls| - 1].model
    else LastModel(calls[..|calls| - 1])
  }

  /** The text the last setPrompt call stored; None before any. */
  function LastPrompt(calls: seq<Call>): (t: Option<string>)
    ensures (forall k :: 0 <= k < |calls| ==> !calls[k].SetPrompt?) <==> t == None
    ensures t.Some? ==> exists k :: 0 <= k < |calls| && calls[k] == Call.SetPrompt(t.value)
    decreases |calls|
  {
    if calls == [] then None
    else if calls[|calls| - 1].SetPrompt? then Some(calls[|calls| - 1].text)
    else LastPrompt(calls[..|calls| - 1])
  }

  /**
   * The fields of BaseAgent. Subclasses append to `command`; the builder
   * methods return the agent itself, which the model leaves out.
   */
  class Agent {
    var command: seq<string>
    const workingDirectory: string
    var model: Option<string>
    var promptText: Option<string>
    var executionCommand: Option<string>

    constructor (workingDirectory: string)
      ensures this.workingDirectory == workingDirectory
      ensures command == [] && model == None && promptText == None && executionCommand == None
    {
      this.workingDirectory := workingDirectory;
      command := [];
      model := None;
      promptText := None;
      executionCommand := None;
    }

    /** setModel: stores the model and touches nothing else. */
    method SetModel(m: Option<string>)
      modifies this
      ensures model == m
      ensures command == old(command) && promptText == old(promptText) && executionCommand == old(executionCommand)
    {
      model := m;
    }

    /** setDirectory: `--add-dir` and the directory at the end of the command. */
    method SetDirectory(directory: string)
      modifies this
      ensures command == old(command) + ["--add-dir", directory]
      ensures model == old(model) && promptText == old(promptText) && executionCommand == old(executionCommand)
    {
      command := command + ["--add-dir"];
      command := command + [directory];
    }

    /** setPrompt: the text is kept for postExecution, not put on the command line. */
    method SetPrompt(text: string)
      modifies this
      ensures promptText == Some(text)
      ensures command == old(command) && model == old(model) && executionCommand == old(executionCommand)
    {
      promptText := Some(text);
    }

    /** The `command.add` calls of a subclass. */
    method AddArgs(args: seq<string>)
      modifies this
      ensures command == old(command) + args
      ensures model == old(model) && promptText == old(promptText) && executionCommand == old(executionCommand)
    {
      command := command + args;
    }

    /** Records the rendered command, as `executionCommand = pb.command().toString()` does. */
    method RecordExecution()
      modifies this
      ensures executionCommand == Some(ListToString(command))
      ensures command == old(command) && model == old(model) && promptText == old(promptText)
    {
      executionCommand := Some(ListToString(command));
    }

    /** postExecution: the state of the agent is not changed. */
    method PostExecution(p: Process) returns (outcome: PostOutcome)
      ensures outcome == PostExecutionOutcome(promptText, p)
    {
      if promptText.None? {
        return NothingSent;
      }
      if !p.aliveBefore {
        outcome := ReportProcessFailure(p);
        return;
      }
      if p.writeError.None? {
        outcome := Sent(promptText.value + "\n");
      } else if !p.aliveAfterWrite {
        outcome := ReportProcessFailure(p);
      } else {
        outcome := Failed(p.writeError.value);
      }
    }

    /** reportProcessFailure: always ends in an IOException. */
    method ReportProcessFailure(p: Process) returns (outcome: PostOutcome)
      ensures outcome == Failed(FailureMessage(p))
    {
      var message := PrematureExit(p.exitValue);
      if p.stderr.Ok? {
        var err := Trim(p.stderr.value);
        if err != [] {
          message := message + "\nSTDERR: " + err;
        }
        if p.stdout.Ok? {
          var out := Trim(p.stdout.value);
          if out != [] {
            message := message + "\nSTDOUT: " + out;
          }
        }
      }
      outcome := Failed(message);
    }
  }
}
