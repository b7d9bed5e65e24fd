/**
 * The command line of the migration tool: `-p <path> -a <agent> [-m <model>] [-s]`.
 *
 * The parsing loop walks the arguments once; a flag that takes a value
 * consumes the next argument whatever it looks like. The loop is specified
 * by a split of the arguments into tokens (what each step of the loop
 * consumes) and a left fold of the tokens over the flag values.
 */
module CommandLine {
  import opened Text

  datatype AgentType = Copilot | ClaudeCode

  /** The four locals the loop assigns; `None` stands for Java's null. */
  datatype Flags = Flags(path: Option<string>, single: bool, agent: Option<AgentType>, model: Option<string>)

  const Initial := Flags(None, false, None, None)

  /** What one step of the loop consumes. */
  datatype Token =
    | PathFlag(path: string)
    | SingleFlag
    | AgentFlag(name: string)
    | ModelFlag(model: string)
    | Skipped(arg: string)

  predicate TakesValue(arg: string) {
    arg == "-p" || arg == "-a" || arg == "-m"
  }

  /** How many arguments the step at the front of `args` consumes. */
  function Width(args: seq<string>): (w: nat)
    requires args != []
    ensures 1 <= w <= |args|
  {
    if TakesValue(args[0]) && 1 < |args| then 2 else 1
  }

  /** The token at the front of `args`: a flag with its value, `-s`, or a skipped argument. */
  function Head(args: seq<string>): Token
    requires args != []
  {
    if args[0] == "-p" && 1 < |args| then PathFlag(args[1])
    else if args[0] == "-s" then SingleFlag
    else if args[0] == "-a" && 1 < |args| then AgentFlag(args[1])
    else if args[0] == "-m" && 1 < |args| then ModelFlag(args[1])
    else Skipped(args[0])
  }

  /** The arguments split as the loop consumes them, front to back. */
  function Tokens(args: seq<string>): (ts: seq<Token>)
    ensures |ts| <= |args|
    decreases |args|
  {
    if args == [] then [] else [Head(args)] + Tokens(args[Width(args)..])
  }

  /** The arguments a token consumed. */
  function Consumed(t: Token): seq<string> {
    match t
    case PathFlag(v) => ["-p", v]
    case SingleFlag => ["-s"]
    case AgentFlag(v) => ["-a", v]
    case ModelFlag(v) => ["-m", v]
    case Skipped(a) => [a]
  }

  function Flatten(ts: seq<Token>): seq<string>
    decreases |ts|
  {
    if ts == [] then [] else Consumed(ts[0]) + Flatten(ts[1..])
  }

  /** The front token consumed exactly the first `Width(args)` arguments. */
  lemma HeadConsumed(args: seq<string>)
    requires args != []
    ensures Consumed(Head(args)) == args[..Width(args)]
  {
  }

  /** Every argument is consumed exactly once, in order: flattening the tokens gives the arguments back. */
  lemma {:induction false} TokensCover(args: seq<string>)
    ensures Flatten(Tokens(args)) == args
    decreases |args|
  {
    if args != [] {
      var width := Width(args);
      var ts := Tokens(args);
      TokensCover(args[width..]);
      HeadConsumed(args);
      assert ts[0] == Head(args) && ts[1..] == Tokens(args[width..]);
      assert Flatten(ts) == args[..width] + Flatten(ts[1..]);
      assert args == args[..width] + args[width..];
    }
  }

  /** `-a` keeps the agent type for a name it does not know. */
  function AgentNamed(name: string, current: Option<AgentType>): Option<AgentType> {
    if name == "copilot" then Some(Copilot)
    else if name == "claude_code" then Some(ClaudeCode)
    else current
  }

  /** The effect of one token on the flag values. */
  function Step(t: Token, f: Flags): Flags {
    match t
    case PathFlag(v) => f.(path := Some(v))
    case SingleFlag => f.(single := true)
    case AgentFlag(v) => f.(agent := AgentNamed(v, f.agent))
    case ModelFlag(v) => f.(model := Some(v))
    case Skipped(_) => f
  }

  function Apply(ts: seq<Token>, f: Flags): Flags
    decreases |ts|
  {
    if ts == [] then f else Apply(ts[1..], Step(ts[0], f))
  }

  /** The flag values the loop ends with. */
  function Parse(args: seq<string>): Flags {
    Apply(Tokens(args), Initial)
  }

  /**
   * The parsing loop of main. `i` is advanced inside a branch when a value
   * is consumed, and once more at the end of every round.
   */
  method ParseArgs(args: seq<string>) returns (path: Option<string>, single: bool, agent: Option<AgentType>, model: Option<string>)
    ensures Flags(path, single, agent, model) == Parse(args)
  {
    path, single, agent, model := None, false, None, None;
    var i := 0;
    while i < |args|
      invariant i <= |args|
      invariant Apply(Tokens(args[i..]), Flags(path, single, agent, model)) == Parse(args)
      decreases |args| - i
    {
      ghost var before := Flags(path, single, agent, model);
      ghost var rest := args[i..];
      ghost var start := i;
      ParseStep(args, i, before);
      assert rest[0] == args[i];
      assert 1 < |rest| ==> rest[1] == args[i + 1];
      if args[i] == "-p" && i + 1 < |args| {
        path := Some(args[i + 1]);
        i := i + 1;
      } else if args[i] == "-s" {
        single := true;
      } else if args[i] == "-a" && i + 1 < |args| {
        var agentArg := args[i + 1];
        i := i + 1;
        if agentArg == "copilot" {
          agent := Some(Copilot);
        } else if agentArg == "claude_code" {
          agent := Some(ClaudeCode);
        }
      } else if args[i] == "-m" && i + 1 < |args| {
        model := Some(args[i + 1]);
        i := i + 1;
      }
      assert Flags(path, single, agent, model) == Step(Head(rest), before);
      assert i + 1 == start + Width(rest);
      i := i + 1;
    }
  }

  /** One round of the loop: the token at `i` applied, then the rest from the next token on. */
  lemma ParseStep(args: seq<string>, i: nat, f: Flags)
    requires i < |args|
    ensures Apply(Tokens(args[i..]), f) == Apply(Tokens(args[i + Width(args[i..])..]), Step(Head(args[i..]), f))
  {
    var rest := args[i..];
    assert rest[Width(rest)..] == args[i + Width(rest)..];
    assert Tokens(rest)[0] == Head(rest) && Tokens(rest)[1..] == Tokens(rest[Width(rest)..]);
  }

  // ---------------------------------------------------------------------
  // What the flags end up as
  // ---------------------------------------------------------------------

  lemma {:induction false} ApplyConcat(ts1: seq<Token>, ts2: seq<Token>, f: Flags)
    ensures Apply(ts1 + ts2, f) == Apply(ts2, Apply(ts1, f))
    decreases |ts1|
  {
    if ts1 == [] {
      assert ts1 + ts2 == ts2;
    } else {
      assert (ts1 + ts2)[1..] == ts1[1..] + ts2;
      ApplyConcat(ts1[1..], ts2, Step(ts1[0], f));
    }
  }

  /** Tokens other than `-p` leave the path alone. */
  lemma {:induction false} PathUntouched(ts: seq<Token>, f: Flags)
    requires forall k :: 0 <= k < |ts| ==> !ts[k].PathFlag?
    ensures Apply(ts, f).path == f.path
    decreases |ts|
  {
    if ts != [] {
      PathUntouched(ts[1..], Step(ts[0], f));
    }
  }

  /** Tokens other than `-m` leave the model alone. */
  lemma {:induction false} ModelUntouched(ts: seq<Token>, f: Flags)
    requires forall k :: 0 <= k < |ts| ==> !ts[k].ModelFlag?
    ensures Apply(ts, f).model == f.model
    decreases |ts|
  {
    if ts != [] {
      ModelUntouched(ts[1..], Step(ts[0], f));
    }
  }

  /** Single-cartridge mode is on exactly when it was on already or some token is `-s`. */
  lemma {:induction false} SingleIsSticky(ts: seq<Token>, f: Flags)
    ensures Apply(ts, f).single <==> f.single || exists k :: 0 <= k < |ts| && ts[k] == SingleFlag
    decreases |ts|
  {
    if ts != [] {
      SingleIsSticky(ts[1..], Step(ts[0], f));
      if exists k :: 0 <= k < |ts| && ts[k] == SingleFlag {
        var k :| 0 <= k < |ts| && ts[k] == SingleFlag;
        if k > 0 {
          assert ts[1..][k - 1] == SingleFlag;
        }
      }
      if exists k :: 0 <= k < |ts[1..]| && ts[1..][k] == SingleFlag {
        var k :| 0 <= k < |ts[1..]| && ts[1..][k] == SingleFlag;
        assert ts[k + 1] == SingleFlag;
      }
    }
  }

  /** The last `-p` wins: a later occurrence overwrites every earlier one. */
  lemma LastPathWins(before: seq<Token>, v: string, after: seq<Token>, f: Flags)
    requires forall k :: 0 <= k < |after| ==> !after[k].PathFlag?
    ensures Apply(before + [PathFlag(v)] + after, f).path == Some(v)
  {
    ApplyConcat(before + [PathFlag(v)], after, f);
    ApplyConcat(before, [PathFlag(v)], f);
    PathUntouched(after, Apply(before + [PathFlag(v)], f));
  }

  /** The last `-m` wins. */
  lemma LastModelWins(before: seq<Token>, v: string, after: seq<Token>, f: Flags)
    requires forall k :: 0 <= k < |after| ==> !after[k].ModelFlag?
    ensures Apply(before + [ModelFlag(v)] + after, f).model == Some(v)
  {
    ApplyConcat(before + [ModelFlag(v)], after, f);
    ApplyConcat(before, [ModelFlag(v)], f);
    ModelUntouched(after, Apply(before + [ModelFlag(v)], f));
  }

  /** `-a` with a name other than copilot or claude_code changes nothing at all. */
  lemma UnknownAgentIgnored(before: seq<Token>, name: string, after: seq<Token>, f: Flags)
    requires name != "copilot" && name != "claude_code"
    ensures Apply(before + [AgentFlag(name)] + after, f) == Apply(before + after, f)
  {
    ApplyConcat(before + [AgentFlag(name)], after, f);
    ApplyConcat(before, [AgentFlag(name)], f);
    ApplyConcat(before, after, f);
  }

  // ---------------------------------------------------------------------
  // The same on the arguments
  // ---------------------------------------------------------------------

  /** A value-taking flag with nothing after it, skipped as an unknown argument. */
  predicate Dangling(t: Token) {
    t.Skipped? && TakesValue(t.arg)
  }

  /** The loop ends exactly at the end of `args`, with no flag waiting for a value. */
  predicate Complete(args: seq<string>) {
    forall k :: 0 <= k < |Tokens(args)| ==> !Dangling(Tokens(args)[k])
  }

  /** The step at the front does not look past a token that is not dangling. */
  lemma HeadAppend(args: seq<string>, more: seq<string>)
    requires args != [] && !Dangling(Head(args))
    ensures Head(args + more) == Head(args) && Width(args + more) == Width(args)
  {
    assert (args + more)[0] == args[0];
    if 1 < |args| {
      assert (args + more)[1] == args[1];
    }
  }

  /** Arguments that end cleanly can be followed by anything: the split of the rest starts afresh. */
  lemma {:induction false} TokensAppend(args: seq<string>, more: seq<string>)
    requires Complete(args)
    ensures Tokens(args + more) == Tokens(args) + Tokens(more)
    decreases |args|
  {
    if args == [] {
      assert args + more == more;
    } else {
      var ts := Tokens(args);
      var width := Width(args);
      assert ts[0] == Head(args) && ts[1..] == Tokens(args[width..]);
      HeadAppend(args, more);
      assert Complete(args[width..]) by {
        assert forall k :: 0 <= k < |ts[1..]| ==> ts[1..][k] == ts[k + 1];
      }
      TokensAppend(args[width..], more);
      assert (args + more)[width..] == args[width..] + more;
    }
  }

  /** Whatever came before, a `-p <v>` with no later `-p` decides the path. */
  lemma LaterPathOverrides(args: seq<string>, v: string, more: seq<string>)
    requires Complete(args)
    requires forall k :: 0 <= k < |Tokens(more)| ==> !Tokens(more)[k].PathFlag?
    ensures Parse(args + ["-p", v] + more).path == Some(v)
  {
    assert Tokens(["-p", v] + more) == [PathFlag(v)] + Tokens(more) by {
      var flagged := ["-p", v] + more;
      assert flagged[0] == "-p" && flagged[1] == v && flagged[2..] == more;
    }
    TokensAppend(args, ["-p", v] + more);
    assert args + ["-p", v] + more == args + (["-p", v] + more);
    assert Tokens(args) + ([PathFlag(v)] + Tokens(more)) == Tokens(args) + [PathFlag(v)] + Tokens(more);
    LastPathWins(Tokens(args), v, Tokens(more), Initial);
  }

  /** A value-taking flag in the last position is ignored. */
  lemma TrailingFlagIgnored(args: seq<string>, flag: string)
    requires Complete(args) && TakesValue(flag)
    ensures Parse(args + [flag]) == Parse(args)
  {
    TokensAppend(args, [flag]);
    assert Tokens([flag]) == [Skipped(flag)];
    ApplyConcat(Tokens(args), [Skipped(flag)], Initial);
  }

  /** An argument that is no flag is skipped. */
  lemma UnknownArgumentSkipped(args: seq<string>, arg: string)
    requires Complete(args) && !TakesValue(arg) && arg != "-s"
    ensures Parse(args + [arg]) == Parse(args)
  {
    TokensAppend(args, [arg]);
    assert Tokens([arg]) == [Skipped(arg)];
    ApplyConcat(Tokens(args), [Skipped(arg)], Initial);
  }

  /** A flag's value is taken verbatim, even when it looks like a flag itself. */
  lemma ValueMayLookLikeAFlag()
    ensures Parse(["-m", "-p", "x"]) == Flags(None, false, None, Some("-p"))
  {
    var args := ["-m", "-p", "x"];
    assert args[2..] == ["x"] && ["x"][1..] == [];
    assert Tokens(["x"]) == [Skipped("x")];
    assert Tokens(args) == [ModelFlag("-p"), Skipped("x")];
  }

  // ---------------------------------------------------------------------
  // Validation
  // ---------------------------------------------------------------------

  const UsageLines := [
    "Usage: MiCo -p <path> -a <agent> [-m <model>] [-s]",
    "  -p <path>    : Path to cartridge(s)",
    "  -a <agent>   : Agent type (copilot or claude_code)",
    "  -m <model>   : Model to use (optional)",
    "  -s           : Single cartridge mode (optional)"]

  /** What main does after parsing: print the usage and exit, or run with a configuration. */
  datatype Launch =
    | Usage(stderr: seq<string>, exitStatus: int)
    | Run(path: string, single: bool, agent: AgentType, model: Option<string>)

  /** A missing path or agent type stops the program with the usage text and status 1. */
  function Validate(f: Flags): (r: Launch)
    ensures r.Run? <==> f.path.Some? && f.agent.Some?
    ensures r.Usage? ==> r.exitStatus == 1 && r.stderr == UsageLines
    ensures r.Run? ==> r == Run(f.path.value, f.single, f.agent.value, f.model)
  {
    if f.path.None? || f.agent.None? then Usage(UsageLines, 1)
    else Run(f.path.value, f.single, f.agent.value, f.model)
  }

  /** The shortest complete command line runs copilot on the path with no model and in multi-cartridge mode. */
  lemma MinimalCommandLine(path: string)
    ensures Validate(Parse(["-p", path, "-a", "copilot"])) == Run(path, false, Copilot, None)
  {
    var args := ["-p", path, "-a", "copilot"];
    var rest := ["-a", "copilot"];
    assert args[2..] == rest && rest[2..] == [];
    assert Tokens(rest) == [AgentFlag("copilot")];
    assert Tokens(args) == [PathFlag(path), AgentFlag("copilot")];
    var ts := Tokens(args);
    assert ts[1..] == [AgentFlag("copilot")] && ts[1..][1..] == [];
    assert Apply(ts, Initial) == Apply(ts[1..], Flags(Some(path), false, None, None));
    assert Apply(ts[1..], Flags(Some(path), false, None, None)) == Apply([], Flags(Some(path), false, Some(Copilot), None));
  }
}
