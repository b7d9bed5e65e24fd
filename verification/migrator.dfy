/**
 * Migrator: runs every phase on every cartridge, in list order, with one
 * shared agent.
 *
 * What the outside world does is an input: whether a log header can be
 * written, how an agent process ends, the tree walks of a cartridge, and the
 * instruction files. The effect of a run is specified by pure functions
 * (the file operations on the session's logs, the calls made on the agent,
 * the phase each cartridge ends at, and the exception that ends the run).
 * Migrator.Migrate runs the cartridge loop (CartridgeLoop) and, for each
 * cartridge, the phase loop (RunPhases); both loops carry invariants that
 * tie the logger's writes, the agent's calls and every cartridge's current
 * phase to those functions.
 */
module Migrator {
  import opened Text
  import opened BaseAgent
  import CopilotAgent
  import ClaudeCodeAgent
  import JavaImportScanner
  import CodeMigrator
  import opened MigrationLogger
  import opened PhaseRepository

  /** A cartridge: a directory to migrate. Only the current phase changes during a run. */
  class Cartridge {
    const name: string
    const path: string
    var currentPhase: Option<string>

    constructor (name: string, path: string, currentPhase: Option<string>)
      ensures this.name == name && this.path == path && this.currentPhase == currentPhase
    {
      this.name := name;
      this.path := path;
      this.currentPhase := currentPhase;
    }

    method SetCurrentPhase(id: string)
      modifies this
      ensures currentPhase == Some(id)
    {
      currentPhase := Some(id);
    }
  }

  // ---------------------------------------------------------------------
  // The prompt of an agent phase
  // ---------------------------------------------------------------------

  /** The prefix the dependency list leaves out. */
  const DependencyExclusions: set<string> := {"com.intershop."}

  /** Each entry followed by a line break. */
  function Lines(xs: seq<string>): string
    decreases |xs|
  {
    if xs == [] then [] else xs[0] + "\n" + Lines(xs[1..])
  }

  lemma {:induction false} LinesAppend(xs: seq<string>, x: string)
    ensures Lines(xs + [x]) == Lines(xs) + x + "\n"
    decreases |xs|
  {
    if xs == [] {
      assert [x][1..] == [];
    } else {
      LinesAppend(xs[1..], x);
      assert (xs + [x])[1..] == xs[1..] + [x];
    }
  }

  lemma {:induction false} SplitAfterLine(a: string, rest: string)
    requires '\n' !in a
    ensures SplitOn(a + "\n" + rest, "\n") == [a] + SplitOn(rest, "\n")
    decreases |a|
  {
    var s := a + "\n" + rest;
    if a == [] {
      assert "\n" <= s && s[1..] == rest;
    } else {
      assert s[0] == a[0] && a[0] in a;
      assert !("\n" <= s);
      assert s[1..] == a[1..] + "\n" + rest;
      SplitAfterLine(a[1..], rest);
      assert [a[0]] + a[1..] == a;
    }
  }

  /** Splitting the list at line breaks gives the entries back, then the empty rest after the last break. */
  lemma {:induction false} LinesSplitBack(xs: seq<string>)
    requires forall k :: 0 <= k < |xs| ==> '\n' !in xs[k]
    ensures SplitOn(Lines(xs), "\n") == xs + [[]]
    decreases |xs|
  {
    if xs != [] {
      LinesSplitBack(xs[1..]);
      SplitAfterLine(xs[0], Lines(xs[1..]));
      assert xs == [xs[0]] + xs[1..];
    }
  }

  /** generateDependenciesList, as a value: the scanned imports outside com.intershop., one per line. */
  function DependencyText(walk: Result<seq<JavaImportScanner.WalkEntry>>): string {
    Lines(JavaImportScanner.ScanResult(walk, DependencyExclusions))
  }

  /**
   * The dependency list holds exactly the scanned imports, one per line and in
   * first-seen order: none starts with com.intershop., and splitting the
   * text at line breaks gives them back.
   */
  lemma DependencyListLines(entries: seq<JavaImportScanner.WalkEntry>)
    ensures var imports := JavaImportScanner.ScanResult(Ok(entries), DependencyExclusions);
      SplitOn(DependencyText(Ok(entries)), "\n") == imports + [[]]
      && forall k :: 0 <= k < |imports| ==> !("com.intershop." <= imports[k])
  {
    var imports := JavaImportScanner.ScanResult(Ok(entries), DependencyExclusions);
    forall k | 0 <= k < |imports|
      ensures '\n' !in imports[k] && !("com.intershop." <= imports[k])
    {
      JavaImportScanner.ScanResultMembers(entries, DependencyExclusions, imports[k]);
      assert !JavaImportScanner.Excluded(imports[k], DependencyExclusions);
      assert forall j :: 0 <= j < |imports[k]| ==> imports[k][j] != '\n';
    }
    LinesSplitBack(imports);
  }

  /** generateDependenciesList: scans the cartridge and appends each import and a line break. */
  method GenerateDependenciesList(walk: Result<seq<JavaImportScanner.WalkEntry>>) returns (text: string)
    ensures text == DependencyText(walk)
  {
    var imports, _ := JavaImportScanner.ScanImports(walk, DependencyExclusions);
    text := JoinLines(imports);
  }

  /** The loop of generateDependenciesList: each import followed by a line break. */
  method JoinLines(imports: seq<string>) returns (text: string)
    ensures text == Lines(imports)
  {
    text := "";
    var i := 0;
    while i < |imports|
      invariant i <= |imports|
      invariant text == Lines(imports[..i])
    {
      LinesAppend(imports[..i], imports[i]);
      assert imports[..i + 1] == imports[..i] + [imports[i]];
      text := text + imports[i] + "\n";
      i := i + 1;
    }
    assert imports[..i] == imports;
  }

  /** getInputValue: the value of an input, chosen by its lower-cased key; unknown keys give "". */
  function InputValue(key: string, name: string, path: string, walk: Result<seq<JavaImportScanner.WalkEntry>>): (v: string)
    ensures ToLower(key) == "cartridge_path" ==> v == path
    ensures ToLower(key) == "cartridge_name" ==> v == name
    ensures ToLower(key) == "dependencies_list" ==> v == DependencyText(walk)
    ensures ToLower(key) !in {"cartridge_path", "cartridge_name", "dependencies_list"} ==> v == ""
  {
    match ToLower(key)
    case "cartridge_path" => path
    case "cartridge_name" => name
    case "dependencies_list" => DependencyText(walk)
    case _ => ""
  }

  /** Keys are matched whatever their case: the upper-cased key (as in the placeholder) selects the same value. */
  lemma InputKeysIgnoreCase(key: string, name: string, path: string, walk: Result<seq<JavaImportScanner.WalkEntry>>)
    ensures InputValue(ToUpper(key), name, path, walk) == InputValue(key, name, path, walk)
  {
    LowerOfUpper(key);
  }

  /** getInputValue on a cartridge. */
  method GetInputValue(key: string, cartridge: Cartridge, walk: Result<seq<JavaImportScanner.WalkEntry>>) returns (v: string)
    ensures v == InputValue(key, cartridge.name, cartridge.path, walk)
  {
    var lower := ToLower(key);
    if lower == "cartridge_path" {
      v := cartridge.path;
    } else if lower == "cartridge_name" {
      v := cartridge.name;
    } else if lower == "dependencies_list" {
      v := GenerateDependenciesList(walk);
    } else {
      v := "";
    }
  }

  /** The placeholder of an input: its key upper-cased in square brackets. */
  function Placeholder(key: string): (ph: string)
    ensures |ph| == |key| + 2 && ph[0] == '[' && ph[|ph| - 1] == ']'
  {
    "[" + ToUpper(key) + "]"
  }

  /** preparePrompt, as a value: the template with each input's placeholder replaced in turn. */
  function Prompt(template: string, inputs: seq<(string, string)>, name: string, path: string,
                  walk: Result<seq<JavaImportScanner.WalkEntry>>): string
    decreases |inputs|
  {
    if inputs == [] then template
    else
      var key := inputs[|inputs| - 1].0;
      ReplaceAll(Prompt(template, inputs[..|inputs| - 1], name, path, walk), Placeholder(key), InputValue(key, name, path, walk))
  }

  /**
   * Each input splits the prompt so far at its placeholder and joins the
   * pieces with its value: no piece holds the placeholder, so every
   * occurrence is replaced, and the text between them is kept.
   */
  lemma PromptStep(template: string, inputs: seq<(string, string)>, key: string, value: string, name: string, path: string,
                   walk: Result<seq<JavaImportScanner.WalkEntry>>)
    ensures var before := Prompt(template, inputs, name, path, walk);
      Prompt(template, inputs + [(key, value)], name, path, walk)
        == JoinWith(SplitOn(before, Placeholder(key)), InputValue(key, name, path, walk))
      && JoinWith(SplitOn(before, Placeholder(key)), Placeholder(key)) == before
      && forall piece :: piece in SplitOn(before, Placeholder(key)) ==> !Contains(piece, Placeholder(key))
  {
    var before := Prompt(template, inputs, name, path, walk);
    assert (inputs + [(key, value)])[..|inputs|] == inputs;
    ReplaceAllIsJoinOfSplit(before, Placeholder(key), InputValue(key, name, path, walk));
    SplitJoinRoundTrip(before, Placeholder(key));
    SplitPiecesArePatternFree(before, Placeholder(key));
  }

  /** An input the migrator does not know removes its placeholder from the prompt. */
  lemma UnknownInputErased(template: string, key: string, value: string, name: string, path: string,
                           walk: Result<seq<JavaImportScanner.WalkEntry>>)
    requires ToLower(key) !in {"cartridge_path", "cartridge_name", "dependencies_list"}
    ensures Prompt(template, [(key, value)], name, path, walk) == JoinWith(SplitOn(template, Placeholder(key)), "")
  {
    PromptStep(template, [], key, value, name, path, walk);
  }

  /** A template without the placeholder of its only input is the prompt itself. */
  lemma TemplateWithoutPlaceholder(template: string, key: string, value: string, name: string, path: string,
                                   walk: Result<seq<JavaImportScanner.WalkEntry>>)
    requires !Contains(template, Placeholder(key))
    ensures Prompt(template, [(key, value)], name, path, walk) == template
  {
    assert [(key, value)][..0] == [];
    ReplaceAbsent(template, Placeholder(key), InputValue(key, name, path, walk));
  }

  /** preparePrompt: one replacement per input entry, in the table's order. */
  method PreparePrompt(template: string, inputs: seq<(string, string)>, cartridge: Cartridge,
                       walk: Result<seq<JavaImportScanner.WalkEntry>>) returns (result: string)
    ensures result == Prompt(template, inputs, cartridge.name, cartridge.path, walk)
  {
    result := template;
    var i := 0;
    while i < |inputs|
      invariant i <= |inputs|
      invariant result == Prompt(template, inputs[..i], cartridge.name, cartridge.path, walk)
    {
      var key := inputs[i].0;
      var placeholder := "[" + ToUpper(key) + "]";
      var value := GetInputValue(key, cartridge, walk);
      assert inputs[..i + 1][..i] == inputs[..i] && inputs[..i + 1][i] == inputs[i];
      result := ReplaceAll(result, placeholder, value);
      i := i + 1;
    }
    assert inputs[..i] == inputs;
  }

  // ---------------------------------------------------------------------
  // The shared agent
  // ---------------------------------------------------------------------

  /** The agent the migrator was given: one of the two com.mico agents. */
  datatype AgentRef =
    | CopilotRef(copilot: CopilotAgent.CopilotAgent)
    | ClaudeRef(claude: ClaudeCodeAgent.ClaudeCodeAgent)

  function AgentObject(a: AgentRef): object {
    match a
    case CopilotRef(x) => x
    case ClaudeRef(x) => x
  }

  ghost predicate AgentValid(a: AgentRef)
    reads AgentObject(a)
  {
    match a
    case CopilotRef(x) => x.Valid()
    case ClaudeRef(x) => x.Valid()
  }

  /** The calls made on the agent since it was created. */
  ghost function AgentCalls(a: AgentRef): seq<Call>
    reads AgentObject(a)
  {
    match a
    case CopilotRef(x) => x.calls
    case ClaudeRef(x) => x.calls
  }

  /** The argument list the agent builds from a sequence of calls. */
  function CommandOf(a: AgentRef, calls: seq<Call>): seq<string> {
    match a
    case CopilotRef(_) => CopilotAgent.CommandAfter(calls)
    case ClaudeRef(_) => ClaudeCodeAgent.CommandAfter(calls)
  }

  /** The agent's argument list as it stands. */
  function AgentCommand(a: AgentRef): seq<string>
    reads AgentObject(a)
  {
    match a
    case CopilotRef(x) => x.command
    case ClaudeRef(x) => x.command
  }

  /** A valid agent's argument list is the one its calls build. */
  lemma ValidCommand(a: AgentRef)
    requires AgentValid(a)
    ensures AgentCommand(a) == CommandOf(a, AgentCalls(a))
  {
  }

  /** agent.setPrompt(prompt). */
  method SetPromptOn(a: AgentRef, prompt: string)
    modifies AgentObject(a)
    ensures AgentCalls(a) == old(AgentCalls(a)) + [Call.SetPrompt(prompt)]
  {
    match a
    case CopilotRef(x) => x.SetPrompt(prompt);
    case ClaudeRef(x) => x.SetPrompt(prompt);
  }

  /** agent.execute(): the process to start runs the agent's argument list. */
  method ExecuteOn(a: AgentRef) returns (pb: ProcessBuilder)
    modifies AgentObject(a)
    ensures AgentCalls(a) == old(AgentCalls(a)) + [Call.Execute]
    ensures pb.command == AgentCommand(a)
  {
    match a
    case CopilotRef(x) => pb := x.Execute();
    case ClaudeRef(x) => pb := x.Execute();
  }

  // ---------------------------------------------------------------------
  // What a run does, as a value
  // ---------------------------------------------------------------------

  /**
   * What a stretch of the run did: the writes on the session's logs, the
   * calls on the shared agent, and the message of the exception that ended
   * the run, if one did.
   */
  datatype Trace = Trace(ops: seq<FileOp>, calls: seq<Call>, abort: Option<string>)

  function Writes(ops: seq<FileOp>): Trace {
    Trace(ops, [], None)
  }

  /** `b` after `a`: once an exception is thrown nothing after it runs. */
  function Then(a: Trace, b: Trace): (r: Trace)
    ensures a.abort.Some? ==> r == a
    ensures a.abort.None? ==> r.ops == a.ops + b.ops && r.calls == a.calls + b.calls && r.abort == b.abort
  {
    if a.abort.Some? then a else Trace(a.ops + b.ops, a.calls + b.calls, b.abort)
  }

  /** Opening writes, a body and closing writes: the closing ones only when the body did not throw. */
  lemma Framed(opening: seq<FileOp>, body: Trace, closing: seq<FileOp>)
    ensures var tr := Then(Then(Writes(opening), body), Writes(closing));
      tr.calls == body.calls && tr.abort == body.abort &&
      tr.ops == opening + body.ops + (if body.abort.None? then closing else [])
  {
    assert [] + body.calls == body.calls;
    assert body.calls + [] == body.calls;
    assert opening + body.ops + [] == opening + body.ops;
  }

  /**
   * How the agent's process ended: its exit code, a failure to open its log,
   * a failure to start it, or an interrupted wait.
   */
  datatype AiRun =
    | Exited(exitCode: int, output: string)
    | OpenFailed(message: string)
    | StartFailed(message: string)
    | Interrupted(output: string, message: string)

  /**
   * The outside world of one run. Each phase run is named by the index of
   * its cartridge and of the phase; `clock` is the time stamp of the log
   * lines and `headerTime` that of the headers.
   */
  datatype World = World(
    clock: string,
    headerTime: string,
    headerError: (nat, nat) -> Option<string>,
    logOpenError: (nat, nat) -> Option<string>,
    codeWalk: (nat, nat) -> Result<seq<CodeMigrator.WalkEntry>>,
    scanWalk: (nat, nat) -> Result<seq<JavaImportScanner.WalkEntry>>,
    instructionsDir: string,
    instructionFiles: map<string, string>,
    ai: (nat, nat) -> AiRun,
    durationMillis: int,
    completedAt: string,
    logDirAbsolute: string)

  function MasterLine(w: World, dir: string, message: string): FileOp {
    AppendOp(Resolve(dir, MasterLogName), StampedLine(w.clock, message))
  }

  function SummaryLine(w: World, dir: string, name: string, message: string): FileOp {
    AppendOp(Resolve(dir, SummaryLogName(name)), StampedLine(w.clock, message))
  }

  function PhaseLogPath(dir: string, name: string, p: Phase): string {
    Resolve(dir, PhaseLogName(name, p.order, p.id))
  }

  /** The id of the phase that runs Java code instead of the agent. */
  const NativePhaseId := "code_migration"

  /** The catch block of the phase loop: two lines, then the exception is rethrown. */
  function Caught(w: World, dir: string, name: string, p: Phase, message: string): seq<FileOp> {
    [MasterLine(w, dir, "  \U{2717} Error executing phase: " + message),
     SummaryLine(w, dir, name, "\U{2717} Phase " + IntToString(p.order) + " error: " + message)]
  }

  /** The catch block of runNativePhase. */
  function NativeFailed(w: World, dir: string, name: string, p: Phase, message: string): seq<FileOp> {
    [MasterLine(w, dir, "  \U{2717} Native phase failed: " + message),
     SummaryLine(w, dir, name, "\U{2717} Phase " + IntToString(p.order) + " failed: " + message)]
  }

  /**
   * What a fresh code migrator reports on a cartridge, and the exception
   * that escapes it: replacement text is not quoted, as in CodeMigrator.
   */
  function NativeRun(t: CodeMigrator.RuleTables, walk: Result<seq<CodeMigrator.WalkEntry>>): (CodeMigrator.MigrationStats, Option<string>) {
    if walk.Err? then (CodeMigrator.MigrationStats(0, 1), None)
    else
      var files := CodeMigrator.JavaFiles(walk.value);
      var run := CodeMigrator.RunOf(files, CodeMigrator.Outcomes(t, files, false));
      (CodeMigrator.MigrationStats(|run.processed|, |run.errors|), run.escaped)
  }

  /** The statistics block printed into the phase log. */
  function StatsText(stats: CodeMigrator.MigrationStats): string {
    "\n=== Code Migration Statistics ===\n" +
    "Files processed: " + NatToString(stats.processedCount) + "\n" +
    "Errors: " + NatToString(stats.errorCount) + "\n" +
    "===================================\n\n"
  }

  /** The statistics in the phase log, then the two lines of a native phase that completed. */
  function NativeDone(w: World, dir: string, name: string, p: Phase, stats: CodeMigrator.MigrationStats): seq<FileOp> {
    [AppendOp(PhaseLogPath(dir, name, p), StatsText(stats)),
     MasterLine(w, dir, "  \U{2713} Native phase completed: " + NatToString(stats.processedCount) + " files"),
     SummaryLine(w, dir, name, "\U{2713} Phase " + IntToString(p.order) + " completed (native)")]
  }

  /** runNativePhase */
  function NativeTrace(w: World, t: CodeMigrator.RuleTables, dir: string, name: string, ci: nat, p: Phase, pi: nat): Trace {
    match w.logOpenError(ci, pi)
    case Some(m) => Trace(NativeFailed(w, dir, name, p, m), [], Some(m))
    case None =>
      var (stats, escaped) := NativeRun(t, w.codeWalk(ci, pi));
      if escaped.Some? then Trace(NativeFailed(w, dir, name, p, escaped.value), [], escaped)
      else Writes(NativeDone(w, dir, name, p, stats))
  }

  /** The two lines that record how the agent's process exited. */
  function ExitLines(w: World, dir: string, name: string, p: Phase, code: int): seq<FileOp> {
    if code != 0 then
      [MasterLine(w, dir, "  \U{2717} Phase failed with exit code: " + IntToString(code)),
       SummaryLine(w, dir, name, "\U{2717} Phase " + IntToString(p.order) + " failed with exit code: " + IntToString(code))]
    else
      [MasterLine(w, dir, "  \U{2713} Phase completed successfully"),
       SummaryLine(w, dir, name, "\U{2713} Phase " + IntToString(p.order) + " completed successfully")]
  }

  /**
   * What executeWithLogging and waitFor leave behind: once the log is opened
   * it is emptied, the process's output is appended to it, then come the
   * lines for how the process ended.
   */
  function ProcessTrace(w: World, dir: string, name: string, p: Phase, run: AiRun): (r: Trace)
    ensures r.calls == []
    ensures r.abort.None? <==> run.Exited?
  {
    var log := PhaseLogPath(dir, name, p);
    match run
    case OpenFailed(m) => Trace(Caught(w, dir, name, p, m), [], Some(m))
    case StartFailed(m) => Trace([OverwriteOp(log, "")] + Caught(w, dir, name, p, m), [], Some(m))
    case Interrupted(out, m) => Trace([OverwriteOp(log, ""), AppendOp(log, out)] + Caught(w, dir, name, p, m), [], Some(m))
    case Exited(code, out) => Writes([OverwriteOp(log, ""), AppendOp(log, out)] + ExitLines(w, dir, name, p, code))
  }

  /** The agent path of a phase: the prompt, the two agent calls, the process and its exit code. */
  function AgentTrace(w: World, dir: string, name: string, path: string, ci: nat, p: Phase, pi: nat): Trace {
    match GetPhaseInstructions(w.instructionsDir, w.instructionFiles, p)
    case Err(m) => Trace([], [], Some(m))
    case Ok(template) => PromptTrace(w, dir, name, path, ci, p, pi, template)
  }

  /** The prompt set on the shared agent, the agent started, and its output logged. */
  function PromptTrace(w: World, dir: string, name: string, path: string, ci: nat, p: Phase, pi: nat, template: string): Trace {
    var prompt := Prompt(template, p.inputs, name, path, w.scanWalk(ci, pi));
    Then(Trace([], [Call.SetPrompt(prompt), Call.Execute], None), ProcessTrace(w, dir, name, p, w.ai(ci, pi)))
  }

  /** What the try block does after the header: the native path for the code migration phase, the agent path otherwise. */
  function WorkTrace(w: World, t: CodeMigrator.RuleTables, dir: string, name: string, path: string, ci: nat, p: Phase, pi: nat): Trace {
    if p.id == NativePhaseId then NativeTrace(w, t, dir, name, ci, p, pi) else AgentTrace(w, dir, name, path, ci, p, pi)
  }

  /** The try block of the phase loop: the header, then the work of the phase. */
  function PhaseBody(w: World, t: CodeMigrator.RuleTables, dir: string, name: string, path: string, ci: nat, p: Phase, pi: nat): Trace {
    match w.headerError(ci, pi)
    case Some(m) => Trace(Caught(w, dir, name, p, m), [], Some(m))
    case None =>
      var header := OverwriteOp(PhaseLogPath(dir, name, p), Header(name, path, p.order, p.name, p.id, w.headerTime));
      Then(Writes([header]), WorkTrace(w, t, dir, name, path, ci, p, pi))
  }

  /** The try block taken apart: a header that could not be written, or the header and the work. */
  lemma PhaseBodyParts(w: World, t: CodeMigrator.RuleTables, dir: string, name: string, path: string, ci: nat, p: Phase, pi: nat)
    ensures var tr := PhaseBody(w, t, dir, name, path, ci, p, pi);
      match w.headerError(ci, pi)
      case Some(m) => tr.ops == Caught(w, dir, name, p, m) && tr.calls == [] && tr.abort == Some(m)
      case None =>
        var work := WorkTrace(w, t, dir, name, path, ci, p, pi);
        tr.ops == [OverwriteOp(PhaseLogPath(dir, name, p), Header(name, path, p.order, p.name, p.id, w.headerTime))] + work.ops &&
        tr.calls == work.calls && tr.abort == work.abort
  {
    assert [] + WorkTrace(w, t, dir, name, path, ci, p, pi).calls == WorkTrace(w, t, dir, name, path, ci, p, pi).calls;
  }

  /** One phase on one cartridge: the two announcing lines, then the try block. */
  function PhaseTrace(w: World, t: CodeMigrator.RuleTables, dir: string, name: string, path: string, ci: nat, p: Phase, pi: nat): Trace {
    var order := IntToString(p.order);
    Then(Writes([MasterLine(w, dir, "  Phase " + order + ": " + p.name), SummaryLine(w, dir, name, "Starting Phase " + order + ": " + p.name)]),
         PhaseBody(w, t, dir, name, path, ci, p, pi))
  }

  // ---------------------------------------------------------------------
  // Loops over traces: one step after the other, nothing after an exception
  // ---------------------------------------------------------------------

  /** The steps of a loop run in order; the first one that throws ends the loop. */
  function Chain(ts: seq<Trace>): Trace
    decreases |ts|
  {
    if ts == [] then Writes([]) else Then(Chain(ts[..|ts| - 1]), ts[|ts| - 1])
  }

  /**
   * The value a loop leaves in a field that each step which completes sets
   * to its own id: the id of the last step, or, once a step threw, what the
   * field held before that step.
   */
  function LastSet(ts: seq<Trace>, ids: seq<string>, initial: Option<string>): Option<string>
    requires |ts| == |ids|
    decreases |ts|
  {
    if ts == [] then initial
    else if Chain(ts).abort.Some? then LastSet(ts[..|ts| - 1], ids[..|ids| - 1], initial)
    else Some(ids[|ids| - 1])
  }

  /** One more turn of the loop. */
  lemma ChainSnoc(ts: seq<Trace>, i: nat)
    requires i < |ts|
    ensures Chain(ts[..i + 1]) == Then(Chain(ts[..i]), ts[i])
  {
    assert ts[..i + 1][..i] == ts[..i];
  }

  /** One more turn of the loop, for the field it sets. */
  lemma LastSetSnoc(ts: seq<Trace>, ids: seq<string>, i: nat, initial: Option<string>)
    requires i < |ts| == |ids|
    ensures LastSet(ts[..i + 1], ids[..i + 1], initial)
      == if Chain(ts[..i + 1]).abort.Some? then LastSet(ts[..i], ids[..i], initial) else Some(ids[i])
  {
    assert ts[..i + 1][..i] == ts[..i];
    assert ids[..i + 1][..i] == ids[..i];
  }

  /** Once a step throws, no later step runs. */
  lemma {:induction false} ChainStop(ts: seq<Trace>, k: nat)
    requires k <= |ts| && Chain(ts[..k]).abort.Some?
    ensures Chain(ts) == Chain(ts[..k])
    decreases |ts| - k
  {
    if k == |ts| {
      assert ts[..k] == ts;
    } else {
      var n := |ts| - 1;
      assert ts[..n][..k] == ts[..k];
      ChainStop(ts[..n], k);
    }
  }

  /** An exception ends the loop for good: every longer prefix ends with it too. */
  lemma ChainAborted(ts: seq<Trace>, j: nat, k: nat)
    requires j <= k <= |ts| && Chain(ts[..j]).abort.Some?
    ensures Chain(ts[..k]) == Chain(ts[..j])
  {
    assert ts[..k][..j] == ts[..j];
    ChainStop(ts[..k], j);
  }

  /** Once a step throws, the field keeps the value it had before that step. */
  lemma {:induction false} LastSetStop(ts: seq<Trace>, ids: seq<string>, k: nat, initial: Option<string>)
    requires k <= |ts| == |ids| && Chain(ts[..k]).abort.Some?
    ensures LastSet(ts, ids, initial) == LastSet(ts[..k], ids[..k], initial)
    decreases |ts| - k
  {
    if k == |ts| {
      assert ts[..k] == ts && ids[..k] == ids;
    } else {
      var n := |ts| - 1;
      assert ts[..n][..k] == ts[..k];
      assert ids[..n][..k] == ids[..k];
      ChainAborted(ts, k, |ts|);
      assert ts[..|ts|] == ts;
      LastSetStop(ts[..n], ids[..n], k, initial);
    }
  }

  /** How many steps of a loop run: all of them, or those up to and including the first that throws. */
  function Ran(ts: seq<Trace>): (n: nat)
    ensures n <= |ts|
    decreases |ts|
  {
    if ts == [] then 0
    else if Chain(ts[..|ts| - 1]).abort.Some? then Ran(ts[..|ts| - 1])
    else |ts|
  }

  /** When the first `m` steps complete and step `m`, if any, throws, `m + 1` steps (or all `m`) run. */
  lemma {:induction false} RanAt(ts: seq<Trace>, m: nat)
    requires m <= |ts| && Chain(ts[..m]).abort.None? && (m < |ts| ==> Chain(ts[..m + 1]).abort.Some?)
    ensures Ran(ts) == if m < |ts| then m + 1 else m
    decreases |ts|
  {
    if ts != [] {
      var p := ts[..|ts| - 1];
      if m == |ts| {
        assert ts[..m] == ts;
        if Chain(p).abort.Some? {
          ChainAborted(ts, |ts| - 1, |ts|);
        }
      } else if m + 1 < |ts| {
        ChainAborted(ts, m + 1, |ts| - 1);
        assert p[..m] == ts[..m] && p[..m + 1] == ts[..m + 1];
        RanAt(p, m);
      }
    }
  }

  /** When no step throws, every step's writes and calls are there, in order. */
  lemma {:induction false} ChainComplete(ts: seq<Trace>)
    requires forall k :: 0 <= k < |ts| ==> ts[k].abort.None?
    ensures Chain(ts).abort.None?
    ensures |Chain(ts).ops| == Sum(ts)
    decreases |ts|
  {
    if ts != [] {
      ChainComplete(ts[..|ts| - 1]);
    }
  }

  /** The number of writes of all the steps. */
  function Sum(ts: seq<Trace>): nat
    decreases |ts|
  {
    if ts == [] then 0 else Sum(ts[..|ts| - 1]) + |ts[|ts| - 1].ops|
  }

  // ---------------------------------------------------------------------
  // The phase loop and the cartridge loop
  // ---------------------------------------------------------------------

  /** The phases of one cartridge as the steps of its loop. */
  function PhaseSteps(w: World, t: CodeMigrator.RuleTables, dir: string, name: string, path: string, ci: nat, phases: seq<Phase>): (r: seq<Trace>)
    ensures |r| == |phases|
  {
    seq(|phases|, i requires 0 <= i < |phases| => PhaseTrace(w, t, dir, name, path, ci, phases[i], i))
  }

  function Ids(phases: seq<Phase>): (r: seq<string>)
    ensures |r| == |phases| && forall i :: 0 <= i < |phases| ==> r[i] == phases[i].id
  {
    seq(|phases|, i requires 0 <= i < |phases| => phases[i].id)
  }

  /** The phases of one cartridge, in list order. */
  function PhasesTrace(w: World, t: CodeMigrator.RuleTables, dir: string, name: string, path: string, ci: nat, phases: seq<Phase>): Trace {
    Chain(PhaseSteps(w, t, dir, name, path, ci, phases))
  }

  /** The current phase of the cartridge after its phases ran: the id of the last phase that completed. */
  function EndPhase(w: World, t: CodeMigrator.RuleTables, dir: string, name: string, path: string, ci: nat, phases: seq<Phase>, initial: Option<string>): Option<string> {
    LastSet(PhaseSteps(w, t, dir, name, path, ci, phases), Ids(phases), initial)
  }

  /** One cartridge: the opening lines, its phases, the closing lines. */
  function CartridgeTrace(w: World, t: CodeMigrator.RuleTables, dir: string, name: string, path: string, ci: nat, phases: seq<Phase>): Trace {
    Then(Then(Writes([MasterLine(w, dir, "Starting cartridge: " + name), SummaryLine(w, dir, name, "Migration started for: " + name)]),
              PhasesTrace(w, t, dir, name, path, ci, phases)),
         Writes([MasterLine(w, dir, "Completed cartridge: " + name), SummaryLine(w, dir, name, "Migration completed for: " + name)]))
  }

  /** Cartridge `k` of the session. */
  function CartridgeStep(w: World, t: CodeMigrator.RuleTables, dir: string, cs: seq<Cartridge>, phases: seq<Phase>, k: nat): Trace
    requires k < |cs|
  {
    CartridgeTrace(w, t, dir, cs[k].name, cs[k].path, k, phases)
  }

  /** The cartridges as the steps of the session's loop. */
  function CartridgeSteps(w: World, t: CodeMigrator.RuleTables, dir: string, cs: seq<Cartridge>, phases: seq<Phase>): (r: seq<Trace>)
    ensures |r| == |cs|
  {
    seq(|cs|, k requires 0 <= k < |cs| => CartridgeStep(w, t, dir, cs, phases, k))
  }

  /** `ts` holds the trace of each cartridge of the session. */
  predicate StepsOf(ts: seq<Trace>, w: World, t: CodeMigrator.RuleTables, dir: string, cs: seq<Cartridge>, phases: seq<Phase>) {
    |ts| == |cs| &&
    forall k {:trigger CartridgeStep(w, t, dir, cs, phases, k)} :: 0 <= k < |cs| ==> ts[k] == CartridgeStep(w, t, dir, cs, phases, k)
  }

  lemma CartridgeStepsOf(w: World, t: CodeMigrator.RuleTables, dir: string, cs: seq<Cartridge>, phases: seq<Phase>)
    ensures StepsOf(CartridgeSteps(w, t, dir, cs, phases), w, t, dir, cs, phases)
  {
  }

  /** The session's opening lines in the master log. */
  function SessionOpening(w: World, dir: string, cartridges: nat, phases: nat): seq<FileOp> {
    [MasterLine(w, dir, "Migration session started"),
     MasterLine(w, dir, "Total cartridges: " + NatToString(cartridges)),
     MasterLine(w, dir, "Total phases: " + NatToString(phases))]
  }

  /** The session's closing line and its summary report. */
  function SessionClosing(w: World, sessionId: string, cartridges: nat, phases: nat): seq<FileOp> {
    var dir := SessionLogDir(sessionId);
    [MasterLine(w, dir, "Migration session completed"),
     OverwriteOp(Resolve(dir, "SUMMARY.txt"), SummaryReport(sessionId, cartridges, phases, w.durationMillis, w.completedAt, w.logDirAbsolute))]
  }

  /** The session once its phases are loaded: opening, every cartridge, closing. */
  function SessionRun(w: World, t: CodeMigrator.RuleTables, sessionId: string, cs: seq<Cartridge>, phases: seq<Phase>): Trace {
    Then(Then(Writes(SessionOpening(w, SessionLogDir(sessionId), |cs|, |phases|)),
              Chain(CartridgeSteps(w, t, SessionLogDir(sessionId), cs, phases))),
         Writes(SessionClosing(w, sessionId, |cs|, |phases|)))
  }

  /** migrate: the phases are loaded first; then the session's opening lines, the cartridges, the closing line and the summary. */
  function SessionTrace(w: World, t: CodeMigrator.RuleTables, sessionId: string, cs: seq<Cartridge>, config: Result<seq<Phase>>): Trace {
    match GetPhases(config)
    case Err(m) => Trace([], [], Some(m))
    case Ok(phases) => SessionRun(w, t, sessionId, cs, phases)
  }

  /**
   * The current phase of every cartridge after the cartridge loop: each
   * cartridge that ran, up to and including the first that threw, ends
   * where its own phases leave it; every later one keeps its current phase.
   */
  function CartridgeEnds(w: World, t: CodeMigrator.RuleTables, dir: string, cs: seq<Cartridge>, phases: seq<Phase>, initial: seq<Option<string>>): (r: seq<Option<string>>)
    requires |initial| == |cs|
    ensures |r| == |cs|
  {
    var n := Ran(CartridgeSteps(w, t, dir, cs, phases));
    PhaseEnds(w, t, dir, cs, phases, initial)[..n] + initial[n..]
  }

  /** The current phase of every cartridge at the end of the session: unchanged when the phases could not be loaded. */
  function SessionEnds(w: World, t: CodeMigrator.RuleTables, sessionId: string, cs: seq<Cartridge>, config: Result<seq<Phase>>, initial: seq<Option<string>>): (r: seq<Option<string>>)
    requires |initial| == |cs|
    ensures |r| == |cs|
  {
    match GetPhases(config)
    case Err(_) => initial
    case Ok(phases) => CartridgeEnds(w, t, SessionLogDir(sessionId), cs, phases, initial)
  }

  /** The current phase cartridge `k` ends with when it runs all its phases. */
  function CartridgeFinal(w: World, t: CodeMigrator.RuleTables, dir: string, cs: seq<Cartridge>, phases: seq<Phase>, initial: seq<Option<string>>, k: nat): Option<string>
    requires k < |cs| == |initial|
  {
    EndPhase(w, t, dir, cs[k].name, cs[k].path, k, phases, initial[k])
  }

  /** The current phase each cartridge ends with when it runs all its phases. */
  function PhaseEnds(w: World, t: CodeMigrator.RuleTables, dir: string, cs: seq<Cartridge>, phases: seq<Phase>, initial: seq<Option<string>>): (r: seq<Option<string>>)
    requires |initial| == |cs|
    ensures |r| == |cs|
  {
    seq(|cs|, k requires 0 <= k < |cs| => CartridgeFinal(w, t, dir, cs, phases, initial, k))
  }

  /** `fin` holds the current phase each cartridge ends with. */
  predicate EndsOf(fin: seq<Option<string>>, w: World, t: CodeMigrator.RuleTables, dir: string, cs: seq<Cartridge>, phases: seq<Phase>, initial: seq<Option<string>>) {
    |fin| == |cs| == |initial| &&
    forall k {:trigger CartridgeFinal(w, t, dir, cs, phases, initial, k)} :: 0 <= k < |cs| ==> fin[k] == CartridgeFinal(w, t, dir, cs, phases, initial, k)
  }

  lemma PhaseEndsOf(w: World, t: CodeMigrator.RuleTables, dir: string, cs: seq<Cartridge>, phases: seq<Phase>, initial: seq<Option<string>>)
    requires |initial| == |cs|
    ensures EndsOf(PhaseEnds(w, t, dir, cs, phases, initial), w, t, dir, cs, phases, initial)
  {
  }

  // ---------------------------------------------------------------------
  // What a session promises
  // ---------------------------------------------------------------------

  /** Calls on the agent that come in pairs: a prompt set, then the agent started with it. */
  predicate Paired(calls: seq<Call>)
    decreases |calls|
  {
    calls == [] || (|calls| >= 2 && calls[0].SetPrompt? && calls[1] == Call.Execute && Paired(calls[2..]))
  }

  lemma {:induction false} PairedConcat(a: seq<Call>, b: seq<Call>)
    requires Paired(a) && Paired(b)
    ensures Paired(a + b)
    decreases |a|
  {
    if a == [] {
      assert a + b == b;
    } else {
      PairedConcat(a[2..], b);
      assert (a + b)[2..] == a[2..] + b;
    }
  }

  lemma ThenPaired(a: Trace, b: Trace)
    requires Paired(a.calls) && Paired(b.calls)
    ensures Paired(Then(a, b).calls)
  {
    if a.abort.None? {
      PairedConcat(a.calls, b.calls);
    }
  }

  /** One phase sets a prompt and starts the agent once, or makes no call on it. */
  lemma PhasePaired(w: World, t: CodeMigrator.RuleTables, dir: string, name: string, path: string, ci: nat, p: Phase, pi: nat)
    ensures Paired(PhaseTrace(w, t, dir, name, path, ci, p, pi).calls)
  {
    var body := PhaseBody(w, t, dir, name, path, ci, p, pi);
    if w.headerError(ci, pi).None? {
      var work := WorkTrace(w, t, dir, name, path, ci, p, pi);
      if p.id != NativePhaseId && GetPhaseInstructions(w.instructionsDir, w.instructionFiles, p).Ok? {
        var pair := [Call.SetPrompt(Prompt(GetPhaseInstructions(w.instructionsDir, w.instructionFiles, p).value, p.inputs, name, path, w.scanWalk(ci, pi))), Call.Execute];
        assert pair[2..] == [];
        assert work.calls == pair + [];
        PairedConcat(pair, []);
      }
      ThenPaired(Writes([OverwriteOp(PhaseLogPath(dir, name, p), Header(name, path, p.order, p.name, p.id, w.headerTime))]), work);
    }
    ThenPaired(Writes([MasterLine(w, dir, "  Phase " + IntToString(p.order) + ": " + p.name), SummaryLine(w, dir, name, "Starting Phase " + IntToString(p.order) + ": " + p.name)]), body);
  }

  lemma {:induction false} ChainPaired(ts: seq<Trace>)
    requires forall k :: 0 <= k < |ts| ==> Paired(ts[k].calls)
    ensures Paired(Chain(ts).calls)
    decreases |ts|
  {
    if ts != [] {
      ChainPaired(ts[..|ts| - 1]);
      ThenPaired(Chain(ts[..|ts| - 1]), ts[|ts| - 1]);
    }
  }

  lemma CartridgePaired(w: World, t: CodeMigrator.RuleTables, dir: string, name: string, path: string, ci: nat, phases: seq<Phase>)
    ensures Paired(CartridgeTrace(w, t, dir, name, path, ci, phases).calls)
  {
    var steps := PhaseSteps(w, t, dir, name, path, ci, phases);
    forall k | 0 <= k < |steps|
      ensures Paired(steps[k].calls)
    {
      PhasePaired(w, t, dir, name, path, ci, phases[k], k);
    }
    ChainPaired(steps);
    var opening := Writes([MasterLine(w, dir, "Starting cartridge: " + name), SummaryLine(w, dir, name, "Migration started for: " + name)]);
    ThenPaired(opening, Chain(steps));
    ThenPaired(Then(opening, Chain(steps)), Writes([MasterLine(w, dir, "Completed cartridge: " + name), SummaryLine(w, dir, name, "Migration completed for: " + name)]));
  }

  /**
   * The shared agent is only ever started right after a prompt was set on
   * it: a session's calls on the agent are setPrompt, execute, setPrompt,
   * execute, and so on.
   */
  lemma SessionCallsPaired(w: World, t: CodeMigrator.RuleTables, sessionId: string, cs: seq<Cartridge>, config: Result<seq<Phase>>)
    ensures Paired(SessionTrace(w, t, sessionId, cs, config).calls)
  {
    if GetPhases(config).Ok? {
      var phases := GetPhases(config).value;
      var dir := SessionLogDir(sessionId);
      var steps := CartridgeSteps(w, t, dir, cs, phases);
      forall k | 0 <= k < |steps|
        ensures Paired(steps[k].calls)
      {
        CartridgePaired(w, t, dir, cs[k].name, cs[k].path, k, phases);
      }
      ChainPaired(steps);
      Framed(SessionOpening(w, dir, |cs|, |phases|), Chain(steps), SessionClosing(w, sessionId, |cs|, |phases|));
    }
  }

  /** A loop that does not throw: none of its steps threw (the converse of ChainComplete). */
  lemma {:induction false} ChainNoneAll(ts: seq<Trace>)
    requires Chain(ts).abort.None?
    ensures forall k :: 0 <= k < |ts| ==> ts[k].abort.None?
    decreases |ts|
  {
    if ts != [] {
      var n := |ts| - 1;
      ChainNoneAll(ts[..n]);
      assert forall k :: 0 <= k < n ==> ts[..n][k] == ts[k];
    }
  }

  /** A cartridge whose phases all complete ends at the id of the last phase, or untouched when there are none. */
  lemma CartridgeCompleted(w: World, t: CodeMigrator.RuleTables, dir: string, cs: seq<Cartridge>, phases: seq<Phase>, initial: seq<Option<string>>, k: nat)
    requires k < |cs| == |initial|
    requires CartridgeStep(w, t, dir, cs, phases, k).abort.None?
    ensures CartridgeFinal(w, t, dir, cs, phases, initial, k) == if phases == [] then initial[k] else Some(phases[|phases| - 1].id)
  {
    var steps := PhaseSteps(w, t, dir, cs[k].name, cs[k].path, k, phases);
    assert Chain(steps).abort.None?;
  }

  /** A loop that does not throw runs all its steps. */
  lemma RanAll(ts: seq<Trace>)
    requires Chain(ts).abort.None?
    ensures Ran(ts) == |ts|
  {
  }

  /** A cartridge loop that does not throw leaves every cartridge at the id of the last phase, or untouched when there are none. */
  lemma LoopCompleted(w: World, t: CodeMigrator.RuleTables, dir: string, cs: seq<Cartridge>, phases: seq<Phase>, initial: seq<Option<string>>)
    requires |initial| == |cs|
    requires Chain(CartridgeSteps(w, t, dir, cs, phases)).abort.None?
    ensures forall k :: 0 <= k < |cs| ==>
      CartridgeEnds(w, t, dir, cs, phases, initial)[k] == if phases == [] then initial[k] else Some(phases[|phases| - 1].id)
  {
    var steps := CartridgeSteps(w, t, dir, cs, phases);
    ChainNoneAll(steps);
    RanAll(steps);
    var ends := PhaseEnds(w, t, dir, cs, phases, initial);
    assert CartridgeEnds(w, t, dir, cs, phases, initial) == ends[..|cs|] + initial[|cs|..];
    forall k | 0 <= k < |cs|
      ensures ends[k] == if phases == [] then initial[k] else Some(phases[|phases| - 1].id)
    {
      assert steps[k] == CartridgeStep(w, t, dir, cs, phases, k);
      CartridgeCompleted(w, t, dir, cs, phases, initial, k);
    }
  }

  /**
   * A session that ends without an exception took every cartridge through
   * every phase: each cartridge's current phase is the id of the last phase
   * in the configuration's order, and is untouched when there are no phases.
   */
  lemma CompletedSessionEndsAtLastPhase(w: World, t: CodeMigrator.RuleTables, sessionId: string, cs: seq<Cartridge>, config: Result<seq<Phase>>, initial: seq<Option<string>>)
    requires |initial| == |cs|
    requires SessionTrace(w, t, sessionId, cs, config).abort.None?
    ensures GetPhases(config).Ok?
    ensures var phases := GetPhases(config).value;
      forall k :: 0 <= k < |cs| ==>
        SessionEnds(w, t, sessionId, cs, config, initial)[k] == if phases == [] then initial[k] else Some(phases[|phases| - 1].id)
  {
    var phases := GetPhases(config).value;
    var dir := SessionLogDir(sessionId);
    Framed(SessionOpening(w, dir, |cs|, |phases|), Chain(CartridgeSteps(w, t, dir, cs, phases)), SessionClosing(w, sessionId, |cs|, |phases|));
    LoopCompleted(w, t, dir, cs, phases, initial);
  }

  /** The lines for how the agent's process exited go to the master and summary logs, never to the phase log. */
  lemma ExitLinesElsewhere(w: World, dir: string, name: string, p: Phase, code: int)
    ensures forall k :: 0 <= k < |ExitLines(w, dir, name, p, code)| ==> ExitLines(w, dir, name, p, code)[k].path != PhaseLogPath(dir, name, p)
  {
    var log := PhaseLogPath(dir, name, p);
    LogKindsDistinct(name, p.order, p.id, name);
    if Resolve(dir, MasterLogName) == log {
      ResolveInjective(dir, MasterLogName, PhaseLogName(name, p.order, p.id));
    }
    if Resolve(dir, SummaryLogName(name)) == log {
      ResolveInjective(dir, SummaryLogName(name), PhaseLogName(name, p.order, p.id));
    }
  }

  /** A file emptied, then appended to, then left alone holds what was appended. */
  lemma TruncatedThenAppended(files: map<string, string>, before: seq<FileOp>, log: string, out: string, after: seq<FileOp>)
    requires forall k :: 0 <= k < |after| ==> after[k].path != log
    ensures Content(Perform(files, before + [OverwriteOp(log, ""), AppendOp(log, out)] + after), log) == out
  {
    var upto := before + [OverwriteOp(log, ""), AppendOp(log, out)];
    assert upto == (before + [OverwriteOp(log, "")]) + [AppendOp(log, out)];
    PerformConcat(files, upto, after);
    PerformSnoc(files, before + [OverwriteOp(log, "")], AppendOp(log, out));
    PerformSnoc(files, before, OverwriteOp(log, ""));
    PerformElsewhere(Perform(files, upto), after, log);
  }

  /** The writes of an agent phase whose process exits: the log is emptied right after its header, then gets the output. */
  lemma AgentPhaseOps(w: World, t: CodeMigrator.RuleTables, dir: string, name: string, path: string, ci: nat, p: Phase, pi: nat)
    requires p.id != NativePhaseId && w.headerError(ci, pi).None? && w.ai(ci, pi).Exited?
    requires GetPhaseInstructions(w.instructionsDir, w.instructionFiles, p).Ok?
    ensures exists before: seq<FileOp> ::
              (PhaseTrace(w, t, dir, name, path, ci, p, pi).ops ==
               before + [OverwriteOp(PhaseLogPath(dir, name, p), ""), AppendOp(PhaseLogPath(dir, name, p), w.ai(ci, pi).output)] + ExitLines(w, dir, name, p, w.ai(ci, pi).exitCode))
  {
    var log := PhaseLogPath(dir, name, p);
    var order := IntToString(p.order);
    var before := [MasterLine(w, dir, "  Phase " + order + ": " + p.name), SummaryLine(w, dir, name, "Starting Phase " + order + ": " + p.name),
                   OverwriteOp(log, Header(name, path, p.order, p.name, p.id, w.headerTime))];
    PhaseBodyParts(w, t, dir, name, path, ci, p, pi);
    assert PhaseTrace(w, t, dir, name, path, ci, p, pi).ops ==
      before + [OverwriteOp(log, ""), AppendOp(log, w.ai(ci, pi).output)] + ExitLines(w, dir, name, p, w.ai(ci, pi).exitCode);
  }

  /**
   * As written, an agent phase whose process exits leaves in its log only
   * the process's output: the header written just before it is lost when
   * executeWithLogging opens the log without appending.
   */
  lemma AgentPhaseLogIsOutput(w: World, t: CodeMigrator.RuleTables, dir: string, name: string, path: string, ci: nat, p: Phase, pi: nat, files: map<string, string>)
    requires p.id != NativePhaseId && w.headerError(ci, pi).None? && w.ai(ci, pi).Exited?
    requires GetPhaseInstructions(w.instructionsDir, w.instructionFiles, p).Ok?
    ensures Content(Perform(files, PhaseTrace(w, t, dir, name, path, ci, p, pi).ops), PhaseLogPath(dir, name, p)) == w.ai(ci, pi).output
  {
    AgentPhaseOps(w, t, dir, name, path, ci, p, pi);
    var before: seq<FileOp> :| PhaseTrace(w, t, dir, name, path, ci, p, pi).ops ==
      before + [OverwriteOp(PhaseLogPath(dir, name, p), ""), AppendOp(PhaseLogPath(dir, name, p), w.ai(ci, pi).output)] + ExitLines(w, dir, name, p, w.ai(ci, pi).exitCode);
    ExitLinesElsewhere(w, dir, name, p, w.ai(ci, pi).exitCode);
    TruncatedThenAppended(files, before, PhaseLogPath(dir, name, p), w.ai(ci, pi).output, ExitLines(w, dir, name, p, w.ai(ci, pi).exitCode));
  }

  // ---------------------------------------------------------------------
  // The migrator
  // ---------------------------------------------------------------------

  /** Appending in two steps is appending once. */
  lemma AppendAssoc<T>(a: seq<T>, b: seq<T>, c: seq<T>)
    ensures a + b + c == a + (b + c)
  {
  }

  lemma Snoc2<T>(s: seq<T>, a: T, b: T)
    ensures s + [a] + [b] == s + [a, b]
  {
  }

  lemma Snoc3<T>(s: seq<T>, a: T, b: T, c: T)
    ensures s + [a] + [b] + [c] == s + [a, b, c]
  {
  }

  /** A prompt trace is the two agent calls with the process's writes and outcome. */
  lemma PromptTraceSplit(w: World, dir: string, name: string, path: string, ci: nat, p: Phase, pi: nat, template: string)
    ensures var proc := ProcessTrace(w, dir, name, p, w.ai(ci, pi));
      var prompt := Prompt(template, p.inputs, name, path, w.scanWalk(ci, pi));
      PromptTrace(w, dir, name, path, ci, p, pi, template) == Trace(proc.ops, [Call.SetPrompt(prompt), Call.Execute], proc.abort)
  {
    StartedThen(Prompt(template, p.inputs, name, path, w.scanWalk(ci, pi)), ProcessTrace(w, dir, name, p, w.ai(ci, pi)));
  }

  /** The two agent calls, then a process that makes none. */
  lemma StartedThen(prompt: string, proc: Trace)
    requires proc.calls == []
    ensures Then(Trace([], [Call.SetPrompt(prompt), Call.Execute], None), proc)
      == Trace(proc.ops, [Call.SetPrompt(prompt), Call.Execute], proc.abort)
  {
    assert [] + proc.ops == proc.ops;
    assert [Call.SetPrompt(prompt), Call.Execute] + proc.calls == [Call.SetPrompt(prompt), Call.Execute];
  }

  /** The agent is neither the logger nor a cartridge, so writing a log or a current phase leaves it as it was. */
  lemma AgentNotLogger(a: AgentRef, logger: Logger)
    ensures AgentObject(a) != logger
  {
  }

  lemma AgentApart(a: AgentRef, logger: Logger, c: Cartridge)
    ensures AgentObject(a) != logger && AgentObject(a) != c
  {
  }

  /** Moving the boundary between a finished prefix and an untouched rest one place on. */
  lemma Replaced<T>(fin: seq<T>, rest: seq<T>, i: nat)
    requires i < |fin| == |rest|
    ensures (fin[..i] + rest[i..])[i := fin[i]] == fin[..i + 1] + rest[i + 1..]
  {
  }

  /** An agent whose object is untouched has made no further calls. */
  twostate lemma AgentKept(a: AgentRef)
    requires unchanged(AgentObject(a))
    ensures AgentCalls(a) == old(AgentCalls(a))
  {
  }

  /** Nor is it any of the cartridges. */
  lemma AgentApartAll(a: AgentRef, cs: seq<Cartridge>)
    ensures forall k :: 0 <= k < |cs| ==> AgentObject(a) != cs[k]
  {
  }

  /**
   * The migrator: the cartridges, the phase configuration, the one agent
   * every phase uses, and the logger it creates.
   */
  class Migrator {
    const cartridges: seq<Cartridge>
    const phaseConfig: Result<seq<Phase>>
    const agent: AgentRef
    const logger: Logger
    /** The rule tables of the code migrator. */
    const tables: CodeMigrator.RuleTables

    ghost predicate Valid()
      reads logger
    {
      logger.Valid() && logger.sessionLogDir == SessionLogDir(logger.sessionId)
    }

    /** The logger of a new migrator starts a session with the given id on the given files. */
    constructor (cartridges: seq<Cartridge>, phaseConfig: Result<seq<Phase>>, agent: AgentRef, sessionId: string, files: map<string, string>)
      ensures Valid() && fresh(logger) && logger.sessionId == sessionId && logger.files == files && logger.writes == []
      ensures this.cartridges == cartridges && this.phaseConfig == phaseConfig && this.agent == agent
      ensures tables == CodeMigrator.StandardTables
    {
      CodeMigrator.StandardTablesWellFormed();
      tables := CodeMigrator.StandardTables;
      this.cartridges := cartridges;
      this.phaseConfig := phaseConfig;
      this.agent := agent;
      logger := new Logger(sessionId, files);
    }

    /** A line in the master log, then one in the cartridge's summary. */
    method Announce(w: World, name: string, master: string, summary: string)
      requires logger.Valid()
      modifies logger
      ensures logger.Valid()
      ensures logger.writes == old(logger.writes) + [MasterLine(w, logger.sessionLogDir, master), SummaryLine(w, logger.sessionLogDir, name, summary)]
    {
      ghost var w0 := logger.writes;
      Master(w, master);
      Summary(w, name, summary);
      Snoc2(w0, MasterLine(w, logger.sessionLogDir, master), SummaryLine(w, logger.sessionLogDir, name, summary));
    }

    /** logger.logToMaster(message) */
    method Master(w: World, message: string)
      requires logger.Valid()
      modifies logger
      ensures logger.Valid() && logger.writes == old(logger.writes) + [MasterLine(w, logger.sessionLogDir, message)]
    {
      logger.LogToMaster(message, w.clock, false);
    }

    /** logger.logToCartridgeSummary(cartridge, message) */
    method Summary(w: World, name: string, message: string)
      requires logger.Valid()
      modifies logger
      ensures logger.Valid() && logger.writes == old(logger.writes) + [SummaryLine(w, logger.sessionLogDir, name, message)]
    {
      logger.LogToCartridgeSummary(name, message, w.clock, false);
    }

    /** The catch block of the phase loop. */
    method LogCaught(w: World, name: string, p: Phase, message: string) returns (abort: Option<string>)
      requires logger.Valid()
      modifies logger
      ensures logger.Valid() && logger.writes == old(logger.writes) + Caught(w, logger.sessionLogDir, name, p, message)
      ensures abort == Some(message)
    {
      Master(w, "  \U{2717} Error executing phase: " + message);
      Summary(w, name, "\U{2717} Phase " + IntToString(p.order) + " error: " + message);
      abort := Some(message);
    }

    /** The catch block of runNativePhase. */
    method LogNativeFailed(w: World, name: string, p: Phase, message: string) returns (abort: Option<string>)
      requires logger.Valid()
      modifies logger
      ensures logger.Valid() && logger.writes == old(logger.writes) + NativeFailed(w, logger.sessionLogDir, name, p, message)
      ensures abort == Some(message)
    {
      Master(w, "  \U{2717} Native phase failed: " + message);
      Summary(w, name, "\U{2717} Phase " + IntToString(p.order) + " failed: " + message);
      abort := Some(message);
    }

    /**
     * runNativePhase: a new code migrator on the cartridge, then the
     * statistics appended to the phase log and the two result lines.
     */
    method RunNativePhase(w: World, c: Cartridge, ci: nat, p: Phase, pi: nat, logFile: string) returns (abort: Option<string>)
      requires logger.Valid() && logFile == PhaseLogPath(logger.sessionLogDir, c.name, p)
      modifies logger
      ensures logger.Valid()
      ensures var tr := NativeTrace(w, tables, logger.sessionLogDir, c.name, ci, p, pi);
        logger.writes == old(logger.writes) + tr.ops && tr.calls == [] && abort == tr.abort
    {
      if w.logOpenError(ci, pi).Some? {
        abort := LogNativeFailed(w, c.name, p, w.logOpenError(ci, pi).value);
        return;
      }
      var migration := new CodeMigrator.Migration(tables);
      var escaped := migration.Migrate(w.codeWalk(ci, pi), false);
      if escaped.Some? {
        abort := LogNativeFailed(w, c.name, p, escaped.value);
        return;
      }
      var stats := migration.GetStats();
      assert (stats, escaped) == NativeRun(tables, w.codeWalk(ci, pi));
      LogNativeDone(w, c.name, p, logFile, stats);
      abort := None;
    }

    /** The end of runNativePhase when the code migrator returned. */
    method LogNativeDone(w: World, name: string, p: Phase, logFile: string, stats: CodeMigrator.MigrationStats)
      requires logger.Valid() && logFile == PhaseLogPath(logger.sessionLogDir, name, p)
      modifies logger
      ensures logger.Valid() && logger.writes == old(logger.writes) + NativeDone(w, logger.sessionLogDir, name, p, stats)
    {
      ghost var w0 := logger.writes;
      logger.Write(AppendOp(logFile, StatsText(stats)));
      Master(w, "  \U{2713} Native phase completed: " + NatToString(stats.processedCount) + " files");
      Summary(w, name, "\U{2713} Phase " + IntToString(p.order) + " completed (native)");
      ghost var ops := NativeDone(w, logger.sessionLogDir, name, p, stats);
      Snoc3(w0, ops[0], ops[1], ops[2]);
    }

    /** The two lines for the agent's exit code. */
    method LogExit(w: World, name: string, p: Phase, code: int)
      requires logger.Valid()
      modifies logger
      ensures logger.Valid() && logger.writes == old(logger.writes) + ExitLines(w, logger.sessionLogDir, name, p, code)
    {
      if code != 0 {
        Announce(w, name, "  \U{2717} Phase failed with exit code: " + IntToString(code),
                 "\U{2717} Phase " + IntToString(p.order) + " failed with exit code: " + IntToString(code));
      } else {
        Announce(w, name, "  \U{2713} Phase completed successfully", "\U{2713} Phase " + IntToString(p.order) + " completed successfully");
      }
    }

    /** The output of the agent's process into the phase log, and the lines for how it ended. */
    method LogProcess(w: World, c: Cartridge, p: Phase, logFile: string, run: AiRun) returns (abort: Option<string>)
      requires logger.Valid() && logFile == PhaseLogPath(logger.sessionLogDir, c.name, p)
      modifies logger
      ensures logger.Valid()
      ensures var tr := ProcessTrace(w, logger.sessionLogDir, c.name, p, run);
        logger.writes == old(logger.writes) + tr.ops && abort == tr.abort
    {
      ghost var w0 := logger.writes;
      ghost var dir := logger.sessionLogDir;
      match run {
        case OpenFailed(m) =>
          var _ := logger.ExecuteWithLogging(logFile, "", true, false);
          assert logger.writes == w0;
          abort := LogCaught(w, c.name, p, m);
        case StartFailed(m) =>
          var _ := logger.ExecuteWithLogging(logFile, "", false, true);
          abort := LogCaught(w, c.name, p, m);
          AppendAssoc(w0, [OverwriteOp(logFile, "")], Caught(w, dir, c.name, p, m));
        case Interrupted(out, m) =>
          var _ := logger.ExecuteWithLogging(logFile, out, false, false);
          abort := LogCaught(w, c.name, p, m);
          AppendAssoc(w0, [OverwriteOp(logFile, ""), AppendOp(logFile, out)], Caught(w, dir, c.name, p, m));
        case Exited(code, out) =>
          var _ := logger.ExecuteWithLogging(logFile, out, false, false);
          LogExit(w, c.name, p, code);
          AppendAssoc(w0, [OverwriteOp(logFile, ""), AppendOp(logFile, out)], ExitLines(w, dir, c.name, p, code));
          abort := None;
      }
    }

    /**
     * The agent path: the instructions, the prompt, setPrompt and execute on
     * the shared agent, then the process.
     */
    method RunAgentPhase(w: World, c: Cartridge, ci: nat, p: Phase, pi: nat, logFile: string) returns (abort: Option<string>)
      requires Valid() && logFile == PhaseLogPath(logger.sessionLogDir, c.name, p)
      modifies logger, AgentObject(agent)
      ensures Valid()
      ensures var tr := AgentTrace(w, logger.sessionLogDir, c.name, c.path, ci, p, pi);
        logger.writes == old(logger.writes) + tr.ops && AgentCalls(agent) == old(AgentCalls(agent)) + tr.calls && abort == tr.abort
    {
      AgentApart(agent, logger, c);
      var instructions := GetPhaseInstructions(w.instructionsDir, w.instructionFiles, p);
      if instructions.Err? {
        abort := Some(instructions.error);
        return;
      }
      abort := PromptAndRun(w, c, ci, p, pi, logFile, instructions.value);
    }

    /** The agent path once the instructions are read. */
    method PromptAndRun(w: World, c: Cartridge, ci: nat, p: Phase, pi: nat, logFile: string, template: string) returns (abort: Option<string>)
      requires Valid() && logFile == PhaseLogPath(logger.sessionLogDir, c.name, p)
      modifies logger, AgentObject(agent)
      ensures Valid()
      ensures var tr := PromptTrace(w, logger.sessionLogDir, c.name, c.path, ci, p, pi, template);
        logger.writes == old(logger.writes) + tr.ops && AgentCalls(agent) == old(AgentCalls(agent)) + tr.calls && abort == tr.abort
    {
      assert allocated(AgentObject(agent));
      ghost var k0 := AgentCalls(agent);
      var prompt := PreparePrompt(template, p.inputs, c, w.scanWalk(ci, pi));
      StartAgent(prompt);
      ghost var k1 := AgentCalls(agent);
      AgentNotLogger(agent, logger);
      abort := LogProcess(w, c, p, logFile, w.ai(ci, pi));
      assert AgentCalls(agent) == k1 == k0 + [Call.SetPrompt(prompt), Call.Execute];
      PromptTraceSplit(w, logger.sessionLogDir, c.name, c.path, ci, p, pi, template);
    }

    /** agent.setPrompt(prompt), then agent.execute(); the logs are untouched. */
    method StartAgent(prompt: string)
      requires Valid()
      modifies AgentObject(agent)
      ensures Valid() && logger.writes == old(logger.writes)
      ensures AgentCalls(agent) == old(AgentCalls(agent)) + [Call.SetPrompt(prompt), Call.Execute]
    {
      AgentNotLogger(agent, logger);
      ghost var k0 := AgentCalls(agent);
      SetPromptOn(agent, prompt);
      var _ := ExecuteOn(agent);
      Snoc2(k0, Call.SetPrompt(prompt), Call.Execute);
    }

    /** The native path leaves the agent as it was. */
    method NativeAside(w: World, c: Cartridge, ci: nat, p: Phase, pi: nat, logFile: string) returns (abort: Option<string>)
      requires Valid() && logFile == PhaseLogPath(logger.sessionLogDir, c.name, p)
      modifies logger
      ensures Valid() && unchanged(AgentObject(agent))
      ensures var tr := NativeTrace(w, tables, logger.sessionLogDir, c.name, ci, p, pi);
        logger.writes == old(logger.writes) + tr.ops && tr.calls == [] && abort == tr.abort
    {
      AgentNotLogger(agent, logger);
      assert allocated(AgentObject(agent));
      abort := RunNativePhase(w, c, ci, p, pi, logFile);
    }

    /** The work of a phase after its header, on the native or the agent path. */
    method RunWork(w: World, c: Cartridge, ci: nat, p: Phase, pi: nat, logFile: string) returns (abort: Option<string>)
      requires Valid() && logFile == PhaseLogPath(logger.sessionLogDir, c.name, p)
      modifies logger, AgentObject(agent)
      ensures Valid()
      ensures var tr := WorkTrace(w, tables, logger.sessionLogDir, c.name, c.path, ci, p, pi);
        logger.writes == old(logger.writes) + tr.ops && AgentCalls(agent) == old(AgentCalls(agent)) + tr.calls && abort == tr.abort
    {
      if p.id == NativePhaseId {
        abort := NativeAside(w, c, ci, p, pi, logFile);
        AgentKept(agent);
        assert WorkTrace(w, tables, logger.sessionLogDir, c.name, c.path, ci, p, pi) == NativeTrace(w, tables, logger.sessionLogDir, c.name, ci, p, pi);
      } else {
        abort := RunAgentPhase(w, c, ci, p, pi, logFile);
        assert WorkTrace(w, tables, logger.sessionLogDir, c.name, c.path, ci, p, pi) == AgentTrace(w, logger.sessionLogDir, c.name, c.path, ci, p, pi);
      }
    }

    /** The phase log's name and its header; an I/O error is caught by the phase loop. */
    method OpenPhaseLog(w: World, c: Cartridge, ci: nat, p: Phase, pi: nat) returns (logFile: string, abort: Option<string>)
      requires Valid()
      modifies logger
      ensures Valid() && logFile == PhaseLogPath(logger.sessionLogDir, c.name, p)
      ensures logger.writes == old(logger.writes) + match w.headerError(ci, pi)
        case Some(m) => Caught(w, logger.sessionLogDir, c.name, p, m)
        case None => [OverwriteOp(logFile, Header(c.name, c.path, p.order, p.name, p.id, w.headerTime))]
      ensures abort == w.headerError(ci, pi)
      ensures AgentCalls(agent) == old(AgentCalls(agent)) && c.currentPhase == old(c.currentPhase)
    {
      AgentNotLogger(agent, logger);
      logFile := logger.LogFile(c.name, p.order, p.id);
      var ok := logger.WriteLogHeader(logFile, c.name, c.path, p.order, p.name, p.id, w.headerTime, w.headerError(ci, pi).Some?);
      if !ok {
        abort := LogCaught(w, c.name, p, w.headerError(ci, pi).value);
      } else {
        abort := None;
      }
    }

    /** The try block of the phase loop, with setCurrentPhase once it finished. */
    method RunPhaseBody(w: World, c: Cartridge, ci: nat, p: Phase, pi: nat) returns (abort: Option<string>)
      requires Valid()
      modifies logger, AgentObject(agent), c
      ensures Valid()
      ensures var tr := PhaseBody(w, tables, logger.sessionLogDir, c.name, c.path, ci, p, pi);
        logger.writes == old(logger.writes) + tr.ops && AgentCalls(agent) == old(AgentCalls(agent)) + tr.calls && abort == tr.abort
      ensures c.currentPhase == if abort.None? then Some(p.id) else old(c.currentPhase)
    {
      var logFile;
      logFile, abort := OpenPhaseLog(w, c, ci, p, pi);
      PhaseBodyParts(w, tables, logger.sessionLogDir, c.name, c.path, ci, p, pi);
      if abort.Some? {
        assert AgentCalls(agent) == old(AgentCalls(agent)) + [];
        return;
      }
      ghost var header := OverwriteOp(logFile, Header(c.name, c.path, p.order, p.name, p.id, w.headerTime));
      abort := WorkAndMark(w, c, ci, p, pi, logFile);
      AppendAssoc(old(logger.writes), [header], WorkTrace(w, tables, logger.sessionLogDir, c.name, c.path, ci, p, pi).ops);
    }

    /** The work of a phase, and setCurrentPhase when it did not throw. */
    method WorkAndMark(w: World, c: Cartridge, ci: nat, p: Phase, pi: nat, logFile: string) returns (abort: Option<string>)
      requires Valid() && logFile == PhaseLogPath(logger.sessionLogDir, c.name, p)
      modifies logger, AgentObject(agent), c
      ensures Valid()
      ensures var tr := WorkTrace(w, tables, logger.sessionLogDir, c.name, c.path, ci, p, pi);
        logger.writes == old(logger.writes) + tr.ops && AgentCalls(agent) == old(AgentCalls(agent)) + tr.calls && abort == tr.abort
      ensures c.currentPhase == if abort.None? then Some(p.id) else old(c.currentPhase)
    {
      AgentApart(agent, logger, c);
      assert allocated(AgentObject(agent));
      abort := RunWork(w, c, ci, p, pi, logFile);
      if abort.None? {
        MarkDone(c, p.id);
      }
    }

    /** setCurrentPhase on a cartridge: nothing else changes. */
    method MarkDone(c: Cartridge, id: string)
      modifies c
      ensures c.currentPhase == Some(id)
      ensures AgentCalls(agent) == old(AgentCalls(agent)) && logger.writes == old(logger.writes)
    {
      AgentApart(agent, logger, c);
      assert allocated(AgentObject(agent));
      c.SetCurrentPhase(id);
    }

    /** One turn of the phase loop. */
    method RunPhase(w: World, c: Cartridge, ci: nat, p: Phase, pi: nat) returns (abort: Option<string>)
      requires Valid()
      modifies logger, AgentObject(agent), c
      ensures Valid()
      ensures var tr := PhaseTrace(w, tables, logger.sessionLogDir, c.name, c.path, ci, p, pi);
        logger.writes == old(logger.writes) + tr.ops && AgentCalls(agent) == old(AgentCalls(agent)) + tr.calls && abort == tr.abort
      ensures c.currentPhase == if abort.None? then Some(p.id) else old(c.currentPhase)
    {
      AgentApart(agent, logger, c);
      var order := IntToString(p.order);
      ghost var w0 := logger.writes;
      ghost var k0 := AgentCalls(agent);
      Announce(w, c.name, "  Phase " + order + ": " + p.name, "Starting Phase " + order + ": " + p.name);
      ghost var announce := [MasterLine(w, logger.sessionLogDir, "  Phase " + order + ": " + p.name),
                             SummaryLine(w, logger.sessionLogDir, c.name, "Starting Phase " + order + ": " + p.name)];
      assert AgentCalls(agent) == k0;
      abort := RunPhaseBody(w, c, ci, p, pi);
      ghost var body := PhaseBody(w, tables, logger.sessionLogDir, c.name, c.path, ci, p, pi);
      assert AgentCalls(agent) == k0 + body.calls;
      AppendAssoc(w0, announce, body.ops);
      ghost var tr := PhaseTrace(w, tables, logger.sessionLogDir, c.name, c.path, ci, p, pi);
      assert tr == Then(Writes(announce), body);
      assert tr.calls == body.calls;
    }

    /** The phase loop of one cartridge; it ends at the first phase that throws. */
    method RunPhases(w: World, c: Cartridge, ci: nat, phases: seq<Phase>) returns (abort: Option<string>)
      requires Valid()
      modifies logger, AgentObject(agent), c
      ensures Valid()
      ensures var tr := PhasesTrace(w, tables, logger.sessionLogDir, c.name, c.path, ci, phases);
        logger.writes == old(logger.writes) + tr.ops && AgentCalls(agent) == old(AgentCalls(agent)) + tr.calls && abort == tr.abort
      ensures c.currentPhase == EndPhase(w, tables, logger.sessionLogDir, c.name, c.path, ci, phases, old(c.currentPhase))
    {
      AgentApart(agent, logger, c);
      ghost var ts := PhaseSteps(w, tables, logger.sessionLogDir, c.name, c.path, ci, phases);
      ghost var ids := Ids(phases);
      ghost var w0 := logger.writes;
      ghost var k0 := AgentCalls(agent);
      ghost var initial := c.currentPhase;
      assert ts[..0] == [] && ids[..0] == [];
      abort := None;
      var i := 0;
      while i < |phases|
        invariant i <= |phases| && Valid()
        invariant Chain(ts[..i]).abort.None? && abort.None?
        invariant logger.writes == w0 + Chain(ts[..i]).ops
        invariant AgentCalls(agent) == k0 + Chain(ts[..i]).calls
        invariant c.currentPhase == LastSet(ts[..i], ids[..i], initial)
      {
        ghost var before := Chain(ts[..i]);
        abort := RunPhase(w, c, ci, phases[i], i);
        ChainSnoc(ts, i);
        LastSetSnoc(ts, ids, i, initial);
        AppendAssoc(w0, before.ops, ts[i].ops);
        AppendAssoc(k0, before.calls, ts[i].calls);
        if abort.Some? {
          ChainStop(ts, i + 1);
          LastSetStop(ts, ids, i + 1, initial);
          return;
        }
        i := i + 1;
      }
      assert ts[..i] == ts && ids[..i] == ids;
    }

    /** One turn of the cartridge loop: its opening lines, its phases, its closing lines. */
    method RunCartridge(w: World, c: Cartridge, ci: nat, phases: seq<Phase>) returns (abort: Option<string>)
      requires Valid()
      modifies logger, AgentObject(agent), c
      ensures Valid()
      ensures var tr := CartridgeTrace(w, tables, logger.sessionLogDir, c.name, c.path, ci, phases);
        logger.writes == old(logger.writes) + tr.ops && AgentCalls(agent) == old(AgentCalls(agent)) + tr.calls && abort == tr.abort
      ensures c.currentPhase == EndPhase(w, tables, logger.sessionLogDir, c.name, c.path, ci, phases, old(c.currentPhase))
    {
      AgentApart(agent, logger, c);
      ghost var w0 := logger.writes;
      ghost var k0 := AgentCalls(agent);
      ghost var dir := logger.sessionLogDir;
      ghost var opening := [MasterLine(w, dir, "Starting cartridge: " + c.name), SummaryLine(w, dir, c.name, "Migration started for: " + c.name)];
      ghost var closing := [MasterLine(w, dir, "Completed cartridge: " + c.name), SummaryLine(w, dir, c.name, "Migration completed for: " + c.name)];
      Announce(w, c.name, "Starting cartridge: " + c.name, "Migration started for: " + c.name);
      assert AgentCalls(agent) == k0;
      abort := RunPhases(w, c, ci, phases);
      ghost var body := PhasesTrace(w, tables, dir, c.name, c.path, ci, phases);
      ghost var inner := Then(Writes(opening), body);
      AppendAssoc(w0, opening, body.ops);
      assert [] + body.calls == body.calls;
      assert inner.calls == body.calls && inner.ops == opening + body.ops && inner.abort == abort;
      assert CartridgeTrace(w, tables, dir, c.name, c.path, ci, phases) == Then(inner, Writes(closing));
      if abort.Some? {
        return;
      }
      ghost var w1 := logger.writes;
      ghost var k1 := AgentCalls(agent);
      Announce(w, c.name, "Completed cartridge: " + c.name, "Migration completed for: " + c.name);
      assert AgentCalls(agent) == k1;
      AppendAssoc(w0, inner.ops, closing);
      assert inner.calls + [] == inner.calls;
    }

    /** The current phase of every cartridge, in list order. */
    ghost function CurrentPhases(): seq<Option<string>>
      reads cartridges
    {
      seq(|cartridges|, k requires 0 <= k < |cartridges| reads cartridges => cartridges[k].currentPhase)
    }

    /** The current phases, read cartridge by cartridge. */
    lemma PhasesSplit(fin: seq<Option<string>>, initial: seq<Option<string>>, n: nat)
      requires n <= |cartridges| == |fin| == |initial|
      requires forall k :: 0 <= k < n ==> cartridges[k].currentPhase == fin[k]
      requires forall k :: n <= k < |cartridges| ==> cartridges[k].currentPhase == initial[k]
      ensures CurrentPhases() == fin[..n] + initial[n..]
    {
    }

    /** Cartridge `i` runs after the first `i` completed. */
    method RunOne(w: World, phases: seq<Phase>, i: nat, ghost ts: seq<Trace>, ghost w0: seq<FileOp>, ghost k0: seq<Call>, ghost fin: seq<Option<string>>, ghost initial: seq<Option<string>>)
      returns (abort: Option<string>)
      requires Valid() && i < |cartridges| == |initial|
      requires |ts| == |fin| == |cartridges|
      requires ts[i] == CartridgeStep(w, tables, logger.sessionLogDir, cartridges, phases, i)
      requires fin[i] == CartridgeFinal(w, tables, logger.sessionLogDir, cartridges, phases, initial, i)
      requires Chain(ts[..i]).abort.None?
      requires logger.writes == w0 + Chain(ts[..i]).ops && AgentCalls(agent) == k0 + Chain(ts[..i]).calls
      requires cartridges[i].currentPhase == initial[i]
      requires forall k :: 0 <= k < |cartridges| && k != i ==> cartridges[k] != cartridges[i]
      modifies logger, AgentObject(agent), cartridges[i]
      ensures Valid()
      ensures logger.writes == w0 + Chain(ts[..i + 1]).ops && AgentCalls(agent) == k0 + Chain(ts[..i + 1]).calls
      ensures abort == Chain(ts[..i + 1]).abort
      ensures cartridges[i].currentPhase == fin[i]
      ensures forall k :: 0 <= k < |cartridges| && k != i ==> cartridges[k].currentPhase == old(cartridges[k].currentPhase)
    {
      ghost var before := Chain(ts[..i]);
      abort := RunAlone(w, phases, i);
      ChainSnoc(ts, i);
      AppendAssoc(w0, before.ops, ts[i].ops);
      AppendAssoc(k0, before.calls, ts[i].calls);
    }

    /** In a list of distinct cartridges, none other than the `i`-th is that cartridge. */
    static lemma OthersApart(cs: seq<Cartridge>, i: nat)
      requires i < |cs|
      requires forall i, j :: 0 <= i < j < |cs| ==> cs[i] != cs[j]
      ensures forall k :: 0 <= k < |cs| && k != i ==> cs[k] != cs[i]
    {
    }

    /** Cartridge `i` runs; the other cartridges, distinct from it, keep their current phase. */
    method RunAlone(w: World, phases: seq<Phase>, i: nat) returns (abort: Option<string>)
      requires Valid() && i < |cartridges|
      requires forall k :: 0 <= k < |cartridges| && k != i ==> cartridges[k] != cartridges[i]
      modifies logger, AgentObject(agent), cartridges[i]
      ensures Valid()
      ensures var tr := CartridgeTrace(w, tables, logger.sessionLogDir, cartridges[i].name, cartridges[i].path, i, phases);
        logger.writes == old(logger.writes) + tr.ops && AgentCalls(agent) == old(AgentCalls(agent)) + tr.calls && abort == tr.abort
      ensures cartridges[i].currentPhase == EndPhase(w, tables, logger.sessionLogDir, cartridges[i].name, cartridges[i].path, i, phases, old(cartridges[i].currentPhase))
      ensures forall k :: 0 <= k < |cartridges| && k != i ==> cartridges[k].currentPhase == old(cartridges[k].currentPhase)
    {
      AgentApartAll(agent, cartridges);
      abort := RunCartridge(w, cartridges[i], i, phases);
    }

    /** One turn of the cartridge loop: cartridge `i` runs, and no other cartridge changes. */
    method RunCartridgeAt(w: World, phases: seq<Phase>, i: nat, ghost ts: seq<Trace>, ghost w0: seq<FileOp>, ghost k0: seq<Call>, ghost fin: seq<Option<string>>, ghost initial: seq<Option<string>>)
      returns (abort: Option<string>)
      requires Valid() && i < |cartridges| == |initial|
      requires |ts| == |fin| == |cartridges|
      requires ts[i] == CartridgeStep(w, tables, logger.sessionLogDir, cartridges, phases, i)
      requires fin[i] == CartridgeFinal(w, tables, logger.sessionLogDir, cartridges, phases, initial, i)
      requires Chain(ts[..i]).abort.None?
      requires logger.writes == w0 + Chain(ts[..i]).ops && AgentCalls(agent) == k0 + Chain(ts[..i]).calls
      requires forall k :: 0 <= k < |cartridges| && k != i ==> cartridges[k] != cartridges[i]
      requires forall k :: 0 <= k < i ==> cartridges[k].currentPhase == fin[k]
      requires forall k :: i <= k < |cartridges| ==> cartridges[k].currentPhase == initial[k]
      modifies logger, AgentObject(agent), cartridges[i]
      ensures Valid()
      ensures logger.writes == w0 + Chain(ts[..i + 1]).ops && AgentCalls(agent) == k0 + Chain(ts[..i + 1]).calls
      ensures abort == Chain(ts[..i + 1]).abort
      ensures forall k :: 0 <= k < i + 1 ==> cartridges[k].currentPhase == fin[k]
      ensures forall k :: i + 1 <= k < |cartridges| ==> cartridges[k].currentPhase == initial[k]
    {
      abort := RunOne(w, phases, i, ts, w0, k0, fin, initial);
    }

    /**
     * The cartridge loop; it ends at the first cartridge that throws. The
     * first `m` cartridges complete and `n` of them run.
     */
    method CartridgeLoop(w: World, phases: seq<Phase>, ghost ts: seq<Trace>, ghost fin: seq<Option<string>>, ghost initial: seq<Option<string>>)
      returns (abort: Option<string>, ghost m: nat, ghost n: nat)
      requires Valid() && |initial| == |cartridges|
      requires forall i, j :: 0 <= i < j < |cartridges| ==> cartridges[i] != cartridges[j]
      requires StepsOf(ts, w, tables, logger.sessionLogDir, cartridges, phases)
      requires EndsOf(fin, w, tables, logger.sessionLogDir, cartridges, phases, initial)
      requires forall k :: 0 <= k < |cartridges| ==> cartridges[k].currentPhase == initial[k]
      modifies logger, AgentObject(agent), cartridges
      ensures Valid()
      ensures m <= |cartridges| && n == (if m < |cartridges| then m + 1 else m)
      ensures Chain(ts[..m]).abort.None? && (m < |cartridges| ==> Chain(ts[..m + 1]).abort.Some?)
      ensures logger.writes == old(logger.writes) + Chain(ts[..n]).ops
      ensures AgentCalls(agent) == old(AgentCalls(agent)) + Chain(ts[..n]).calls
      ensures abort == Chain(ts[..n]).abort
      ensures forall k :: 0 <= k < n ==> cartridges[k].currentPhase == fin[k]
      ensures forall k :: n <= k < |cartridges| ==> cartridges[k].currentPhase == initial[k]
    {
      ghost var w0 := logger.writes;
      ghost var k0 := AgentCalls(agent);
      AgentApartAll(agent, cartridges);
      assert ts[..0] == [];
      abort := None;
      var i := 0;
      while i < |cartridges| && abort.None?
        invariant i <= |cartridges| && Valid()
        invariant abort == Chain(ts[..i]).abort
        invariant abort.Some? ==> 0 < i && Chain(ts[..i - 1]).abort.None?
        invariant logger.writes == w0 + Chain(ts[..i]).ops
        invariant AgentCalls(agent) == k0 + Chain(ts[..i]).calls
        invariant forall k :: 0 <= k < i ==> cartridges[k].currentPhase == fin[k]
        invariant forall k :: i <= k < |cartridges| ==> cartridges[k].currentPhase == initial[k]
      {
        OthersApart(cartridges, i);
        abort := RunCartridgeAt(w, phases, i, ts, w0, k0, fin, initial);
        i := i + 1;
      }
      n := i;
      m := if abort.Some? then i - 1 else i;
    }

    /** The cartridge loop, and where it leaves each cartridge's current phase. */
    method RunCartridges(w: World, phases: seq<Phase>) returns (abort: Option<string>)
      requires Valid()
      requires forall i, j :: 0 <= i < j < |cartridges| ==> cartridges[i] != cartridges[j]
      modifies logger, AgentObject(agent), cartridges
      ensures Valid()
      ensures var tr := Chain(CartridgeSteps(w, tables, logger.sessionLogDir, cartridges, phases));
        logger.writes == old(logger.writes) + tr.ops && AgentCalls(agent) == old(AgentCalls(agent)) + tr.calls && abort == tr.abort
      ensures CurrentPhases() == CartridgeEnds(w, tables, logger.sessionLogDir, cartridges, phases, old(CurrentPhases()))
    {
      ghost var dir := logger.sessionLogDir;
      ghost var ts := CartridgeSteps(w, tables, dir, cartridges, phases);
      ghost var initial := CurrentPhases();
      ghost var fin := PhaseEnds(w, tables, dir, cartridges, phases, initial);
      PhaseEndsOf(w, tables, dir, cartridges, phases, initial);
      CartridgeStepsOf(w, tables, dir, cartridges, phases);
      ghost var m, n;
      abort, m, n := CartridgeLoop(w, phases, ts, fin, initial);
      if m < |cartridges| {
        ChainStop(ts, n);
      } else {
        assert ts[..n] == ts;
      }
      RanAt(ts, m);
      PhasesSplit(fin, initial, n);
    }

    /** The session's opening lines, written to the master log. */
    method OpenSession(w: World, phases: nat)
      requires logger.Valid()
      modifies logger
      ensures logger.Valid()
      ensures logger.writes == old(logger.writes) + SessionOpening(w, logger.sessionLogDir, |cartridges|, phases)
      ensures AgentCalls(agent) == old(AgentCalls(agent)) && CurrentPhases() == old(CurrentPhases())
    {
      AgentNotLogger(agent, logger);
      ghost var w0 := logger.writes;
      ghost var opening := SessionOpening(w, logger.sessionLogDir, |cartridges|, phases);
      Master(w, "Migration session started");
      Master(w, "Total cartridges: " + NatToString(|cartridges|));
      Master(w, "Total phases: " + NatToString(phases));
      Snoc3(w0, opening[0], opening[1], opening[2]);
    }

    /** The session's closing line and the summary report. */
    method CloseSession(w: World, phases: nat)
      requires logger.Valid() && logger.sessionLogDir == SessionLogDir(logger.sessionId)
      modifies logger
      ensures logger.Valid()
      ensures logger.writes == old(logger.writes) + SessionClosing(w, logger.sessionId, |cartridges|, phases)
      ensures AgentCalls(agent) == old(AgentCalls(agent)) && CurrentPhases() == old(CurrentPhases())
    {
      AgentNotLogger(agent, logger);
      WriteClosing(w, phases);
    }

    /** The closing master line, then the summary report. */
    method WriteClosing(w: World, phases: nat)
      requires logger.Valid() && logger.sessionLogDir == SessionLogDir(logger.sessionId)
      modifies logger
      ensures logger.Valid()
      ensures logger.writes == old(logger.writes) + SessionClosing(w, logger.sessionId, |cartridges|, phases)
    {
      ghost var w0 := logger.writes;
      ghost var closing := SessionClosing(w, logger.sessionId, |cartridges|, phases);
      Master(w, "Migration session completed");
      logger.CreateSummaryReport(|cartridges|, phases, w.durationMillis, w.completedAt, w.logDirAbsolute, false);
      Snoc2(w0, closing[0], closing[1]);
    }

    /** The session once its phases are loaded. */
    method RunSession(w: World, phases: seq<Phase>) returns (abort: Option<string>)
      requires Valid()
      requires forall i, j :: 0 <= i < j < |cartridges| ==> cartridges[i] != cartridges[j]
      modifies logger, AgentObject(agent), cartridges
      ensures Valid()
      ensures var tr := SessionRun(w, tables, logger.sessionId, cartridges, phases);
        logger.writes == old(logger.writes) + tr.ops && AgentCalls(agent) == old(AgentCalls(agent)) + tr.calls && abort == tr.abort
      ensures CurrentPhases() == CartridgeEnds(w, tables, logger.sessionLogDir, cartridges, phases, old(CurrentPhases()))
    {
      AgentApartAll(agent, cartridges);
      AgentNotLogger(agent, logger);
      ghost var w0 := logger.writes;
      ghost var k0 := AgentCalls(agent);
      ghost var opening := SessionOpening(w, logger.sessionLogDir, |cartridges|, |phases|);
      ghost var closing := SessionClosing(w, logger.sessionId, |cartridges|, |phases|);
      OpenSession(w, |phases|);
      abort := RunCartridges(w, phases);
      ghost var body := Chain(CartridgeSteps(w, tables, logger.sessionLogDir, cartridges, phases));
      Framed(opening, body, closing);
      AppendAssoc(w0, opening, body.ops);
      if abort.Some? {
        return;
      }
      CloseSession(w, |phases|);
      AppendAssoc(w0, opening + body.ops, closing);
    }

    /** migrate: the whole session over every cartridge and every phase. */
    method Migrate(w: World) returns (abort: Option<string>)
      requires Valid()
      requires forall i, j :: 0 <= i < j < |cartridges| ==> cartridges[i] != cartridges[j]
      modifies logger, AgentObject(agent), cartridges
      ensures Valid()
      ensures var tr := SessionTrace(w, tables, logger.sessionId, cartridges, phaseConfig);
        logger.writes == old(logger.writes) + tr.ops && AgentCalls(agent) == old(AgentCalls(agent)) + tr.calls && abort == tr.abort
      ensures CurrentPhases() == SessionEnds(w, tables, logger.sessionId, cartridges, phaseConfig, old(CurrentPhases()))
    {
      var loaded := GetPhases(phaseConfig);
      if loaded.Err? {
        abort := Some(loaded.error);
        assert logger.writes == old(logger.writes) + [];
        assert AgentCalls(agent) == old(AgentCalls(agent)) + [];
        return;
      }
      abort := RunSession(w, loaded.value);
    }
  }
}
