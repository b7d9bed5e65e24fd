/**
 * CodeMigrator: the six-stage content transform (migrateContent) and the
 * per-file bookkeeping of migrate / migrateFile / getStats.
 *
 * The stages hand text taken from the file to appendReplacement as a
 * replacement string. `quote` = false models the code as written (a `$` or
 * `\` in such text makes Java throw); `quote` = true is the corrected
 * transform, which passes that text through Matcher.quoteReplacement.
 */
module CodeMigrator {
  import opened Text
  import opened Matcher
  import opened RewriteRules
  import opened ImportCleanup

  /** The rewrite tables the stages draw on. */
  datatype Tables = Tables(
    packages: seq<(string, string)>, staticImports: seq<Rule>, classes: seq<(string, string)>,
    annotations: seq<Rule>, methods: seq<Rule>)

  /** The rewrite tables of CodeMigrator. */
  const StandardTables: Tables :=
    Tables(PackageTable, StaticImportRules, ClassTable, AnnotationRules(AnnotationTable), MethodRules)

  /** Package prefixes are matched literally, so none may be empty. */
  predicate WellFormed(t: Tables) {
    forall k :: 0 <= k < |t.packages| ==> t.packages[k].0 != []
  }

  /** Rule tables a migration can run with. */
  type RuleTables = t: Tables | WellFormed(t) witness Tables([], [], [], [], [])

  /**
   * The six stages, each applied to the previous stage's output: package
   * prefixes, static imports, imported class names, annotations, method
   * calls, and the regrouping of the import block.
   */
  function Transform(t: Tables, content: string, quote: bool): Result<string>
    requires WellFormed(t)
  {
    var packages := MigratePackages(t.packages, content);
    var staticImports :- ApplyRules(t.staticImports, packages, quote);
    var classes :- Scan(ImportedClass(t.classes), staticImports, quote, 0);
    var annotations :- ApplyRules(t.annotations, classes, quote);
    var methods :- ApplyRules(t.methods, annotations, quote);
    CleanupImports(methods, quote)
  }

  /** migrateContent. */
  function MigrateContent(content: string, quote: bool): Result<string>
  {
    StandardTablesWellFormed();
    Transform(StandardTables, content, quote)
  }

  lemma StandardTablesWellFormed()
    ensures WellFormed(StandardTables)
    ensures forall k :: 0 <= k < |StandardTables.packages| ==> |StandardTables.packages[k].0| > 11
  {
    PackageKeysLong();
  }

  /** A constant replacement of a rule holds no `$` or `\`. */
  predicate SafeRule(rule: Rule) {
    (!rule.Annotation? || !HasSpecial(rule.value)) && (!rule.MethodCall? || !HasSpecial(rule.replacement))
  }

  predicate SafeRules(rules: seq<Rule>) {
    forall k :: 0 <= k < |rules| ==> SafeRule(rules[k])
  }

  predicate Safe(t: Tables) {
    SafeRules(t.staticImports) && SafeRules(t.annotations) && SafeRules(t.methods)
  }

  /** The replacements of the annotation and method tables of CodeMigrator hold no `$` or `\`. */
  lemma SourceRulesSafe(t: Tables)
    requires t.staticImports == StaticImportRules && t.annotations == AnnotationRules(AnnotationTable)
    requires t.methods == MethodRules
    ensures Safe(t)
  {
    AnnotationRulesSafe();
    MethodRulesSafe();
  }

  lemma AnnotationRulesSafe()
    ensures SafeRules(AnnotationRules(AnnotationTable))
  {
    AnnotationValuesSafe();
    var rules := AnnotationRules(AnnotationTable);
    forall k | 0 <= k < |rules| ensures SafeRule(rules[k]) {
      assert rules[k].value == AnnotationTable[k].1;
    }
  }

  lemma AnnotationValuesSafe()
    ensures forall k :: 0 <= k < |AnnotationTable| ==> !HasSpecial(AnnotationTable[k].1)
  {
    AnnotationValuePlain0();
    AnnotationValuePlain1();
    AnnotationValuePlain2();
    AnnotationValuePlain3();
    AnnotationValuePlain4();
    AnnotationValuePlain5();
    AnnotationValuePlain6();
  }

  lemma AnnotationValuePlain0() ensures !HasSpecial(AnnotationTable[0].1) { }
  lemma AnnotationValuePlain1() ensures !HasSpecial(AnnotationTable[1].1) { }
  lemma AnnotationValuePlain2() ensures !HasSpecial(AnnotationTable[2].1) { }
  lemma AnnotationValuePlain3() ensures !HasSpecial(AnnotationTable[3].1) { }
  lemma AnnotationValuePlain4() ensures !HasSpecial(AnnotationTable[4].1) { }
  lemma AnnotationValuePlain5() ensures !HasSpecial(AnnotationTable[5].1) { }
  lemma AnnotationValuePlain6() ensures !HasSpecial(AnnotationTable[6].1) { }

  lemma MethodRulesSafe()
    ensures SafeRules(MethodRules)
  {
    MethodRulePlain0();
    MethodRulePlain1();
    MethodRulePlain2();
    MethodRulePlain3();
  }

  // One literal per lemma keeps each proof small.
  lemma MethodRulePlain0() ensures !HasSpecial(MethodRules[0].replacement) { }
  lemma MethodRulePlain1() ensures !HasSpecial(MethodRules[1].replacement) { }
  lemma MethodRulePlain2() ensures !HasSpecial(MethodRules[2].replacement) { }
  lemma MethodRulePlain3() ensures !HasSpecial(MethodRules[3].replacement) { }

  lemma {:induction false} ApplyRulesQuotedSucceeds(rules: seq<Rule>, s: string)
    requires SafeRules(rules)
    ensures ApplyRules(rules, s, true).Ok?
    decreases |rules|
  {
    if rules != [] {
      ScanQuotedTotal(rules[0], s, 0);
      ApplyRulesQuotedSucceeds(rules[1..], Scan(rules[0], s, true, 0).value);
    }
  }

  /** The corrected transform never fails, whatever the file holds. */
  lemma TransformQuotedSucceeds(t: Tables, content: string)
    requires WellFormed(t) && Safe(t)
    ensures Transform(t, content, true).Ok?
  {
    var packages := MigratePackages(t.packages, content);
    ApplyRulesQuotedSucceeds(t.staticImports, packages);
    var staticImports := ApplyRules(t.staticImports, packages, true).value;
    ScanQuotedTotal(ImportedClass(t.classes), staticImports, 0);
    var classes := Scan(ImportedClass(t.classes), staticImports, true, 0).value;
    ApplyRulesQuotedSucceeds(t.annotations, classes);
    var annotations := ApplyRules(t.annotations, classes, true).value;
    ApplyRulesQuotedSucceeds(t.methods, annotations);
    CleanupQuotedSucceeds(ApplyRules(t.methods, annotations, true).value);
  }

  lemma MigrateContentQuotedSucceeds(content: string)
    ensures MigrateContent(content, true).Ok?
  {
    StandardTablesWellFormed();
    SourceRulesSafe(StandardTables);
    TransformQuotedSucceeds(StandardTables, content);
  }

  lemma {:induction false} ShortTextLacks(s: string, t: string)
    requires |s| < |t|
    ensures !Contains(s, t)
    decreases |s|
  {
    if s != [] {
      ShortTextLacks(s[1..], t);
    }
  }

  /** A failure after a prefix without `$` and `\` is a failure of the whole replacement. */
  lemma {:induction false} ExpandErrAfterPlain(rep: string, k: nat, groups: seq<string>)
    requires |groups| >= 1 && k <= |rep| && Expand(rep[k..], groups).Err?
    requires forall i :: 0 <= i < k ==> !IsSpecial(rep[i])
    ensures Expand(rep, groups).Err?
    decreases k
  {
    if k > 0 {
      assert rep[1..][k - 1..] == rep[k..];
      ExpandErrAfterPlain(rep[1..], k - 1, groups);
    }
  }

  /**
   * As written, one import line holding a `$` aborts the transform: the
   * static-import stage hands the line itself to appendReplacement, which
   * reads "$B" as a malformed group reference. Holds for any tables whose
   * first static-import rule is a line rewrite and whose package prefixes
   * are longer than the line.
   */
  lemma DollarImportFailsWith(t: Tables)
    requires WellFormed(t) && t.staticImports != [] && t.staticImports[0].StaticImport?
    requires forall k :: 0 <= k < |t.packages| ==> |t.packages[k].0| > 11
    ensures Transform(t, "import a$B;", false).Err?
  {
    var s := "import a$B;";
    forall k | 0 <= k < |t.packages| ensures t.packages[k].0 != [] && !Contains(s, t.packages[k].0) {
      ShortTextLacks(s, t.packages[k].0);
    }
    PackagesAbsent(t.packages, s);
    DollarLineFails(t.staticImports[0]);
  }

  /** The static-import stage fails on the line "import a$B;", whatever its target. */
  lemma DollarLineFails(rule: Rule)
    requires rule.StaticImport?
    ensures Scan(rule, "import a$B;", false, 0).Err?
  {
    var s := "import a$B;";
    DollarLineMatch(rule);
    DollarLineExpand();
    assert Emit(Hit(|s|, [s], s, true), false).Err?;
  }

  /** The static-import pattern matches the whole line, which does not mention `org.junit.jupiter`. */
  lemma DollarLineMatch(rule: Rule)
    requires rule.StaticImport?
    ensures MatchAt(rule, "import a$B;", 0) == Some(Hit(|"import a$B;"|, ["import a$B;"], "import a$B;", true))
  {
    var s := "import a$B;";
    assert forall k :: 0 <= k < |s| ==> !IsLineTerminator(s[k]);
    ShortLineMatch(rule, s);
  }

  /** A one-line text starting with `import` and too short to hold `org.junit.jupiter` is re-emitted as it is. */
  lemma ShortLineMatch(rule: Rule, s: string)
    requires rule.StaticImport? && "import" <= s && |s| < |"org.junit.jupiter"|
    requires forall k :: 0 <= k < |s| ==> !IsLineTerminator(s[k])
    ensures MatchAt(rule, s, 0) == Some(Hit(|s|, [s], s, true))
  {
    assert LineStart(s, 0) && s[0..] == s;
    assert LineEnd(s, 6) == |s|;
    assert s[0..|s|] == s;
    ShortTextLacks(s, "org.junit.jupiter");
  }

  /** Handed to appendReplacement, the line "import a$B;" reads "$B" as a group reference. */
  lemma DollarLineExpand()
    ensures Expand("import a$B;", ["import a$B;"]).Err?
  {
    var s := "import a$B;";
    assert s[8..] == "$B;";
    assert Expand(s[8..], [s]).Err?;
    ExpandErrAfterPlain(s, 8, [s]);
  }

  /** The input "import a$B;" makes the transform as written fail and the corrected one succeed. */
  lemma DollarImportFails()
    ensures MigrateContent("import a$B;", false).Err?
    ensures MigrateContent("import a$B;", true).Ok?
  {
    StandardTablesWellFormed();
    DollarImportFailsWith(StandardTables);
    MigrateContentQuotedSucceeds("import a$B;");
  }

  // ---------------------------------------------------------------------
  // Files and bookkeeping
  // ---------------------------------------------------------------------

  /**
   * A file the directory walk visits: its path, whether it is a regular
   * file, what reading it gives (the text or an I/O error message), and
   * the I/O error writing it would raise, if any.
   */
  datatype WalkEntry = WalkEntry(path: string, regular: bool, read: Result<string>, writeError: Option<string>)

  /** What migrateFile does with one file. */
  datatype FileOutcome =
    | Processed(newContent: Option<string>)  // added to processedFiles; written back when Some
    | Failed(error: string)                  // an IOException, recorded in errors
    | Escaped(message: string)               // an unchecked exception leaves migrate

  function FileOutcomeOf(t: Tables, f: WalkEntry, quote: bool): FileOutcome
    requires WellFormed(t)
  {
    match f.read
    case Err(m) => Failed("Failed to migrate " + f.path + ": " + m)
    case Ok(original) =>
      match Transform(t, original, quote)
      case Err(m) => Escaped(m)
      case Ok(migrated) =>
        if migrated == original then Processed(None)
        else if f.writeError.Some? then Failed("Failed to migrate " + f.path + ": " + f.writeError.value)
        else Processed(Some(migrated))
  }

  /** A file is written back only with its migrated text, and only when that text differs from what was read. */
  lemma WriteIsMigratedText(t: Tables, f: WalkEntry, quote: bool)
    requires WellFormed(t) && FileOutcomeOf(t, f, quote).Processed? && FileOutcomeOf(t, f, quote).newContent.Some?
    ensures f.read.Ok? && f.writeError.None?
    ensures Transform(t, f.read.value, quote) == Ok(FileOutcomeOf(t, f, quote).newContent.value)
    ensures FileOutcomeOf(t, f, quote).newContent.value != f.read.value
  {
  }

  /** With the corrected transform no file lets an exception escape. */
  lemma QuotedFileNeverEscapes(t: Tables, f: WalkEntry)
    requires WellFormed(t) && Safe(t)
    ensures !FileOutcomeOf(t, f, true).Escaped?
  {
    if f.read.Ok? {
      TransformQuotedSucceeds(t, f.read.value);
    }
  }

  /** The files migrate hands to migrateFile: regular files whose path ends in ".java". */
  function JavaFiles(entries: seq<WalkEntry>): (files: seq<WalkEntry>)
    ensures forall k :: 0 <= k < |files| ==> files[k] in entries && files[k].regular && EndsWith(files[k].path, ".java")
    ensures forall e :: e in entries && e.regular && EndsWith(e.path, ".java") ==> e in files
  {
    if entries == [] then []
    else
      var rest := JavaFiles(entries[1..]);
      if entries[0].regular && EndsWith(entries[0].path, ".java") then [entries[0]] + rest else rest
  }

  /** The outcome of each file, in walk order. */
  function Outcomes(t: Tables, files: seq<WalkEntry>, quote: bool): (outs: seq<FileOutcome>)
    requires WellFormed(t)
    ensures |outs| == |files|
  {
    seq(|files|, k requires 0 <= k < |files| => FileOutcomeOf(t, files[k], quote))
  }

  /** The bookkeeping of a run: processedFiles, errors, the files written, and an exception that ended it. */
  datatype Run = Run(processed: seq<string>, errors: seq<string>, writes: seq<(string, string)>, escaped: Option<string>)

  /** One migrateFile call: nothing more happens once an exception has escaped. */
  function Step(before: Run, f: WalkEntry, o: FileOutcome): Run
  {
    if before.escaped.Some? then before
    else match o
      case Processed(None) => before.(processed := before.processed + [f.path])
      case Processed(Some(c)) => before.(processed := before.processed + [f.path], writes := before.writes + [(f.path, c)])
      case Failed(e) => before.(errors := before.errors + [e])
      case Escaped(m) => before.(escaped := Some(m))
  }

  /** The files migrated in order, each with its outcome. */
  function RunOf(files: seq<WalkEntry>, outs: seq<FileOutcome>): Run
    requires |outs| == |files|
  {
    if files == [] then Run([], [], [], None)
    else Step(RunOf(files[..|files| - 1], outs[..|outs| - 1]), files[|files| - 1], outs[|outs| - 1])
  }

  /**
   * When no file lets an exception escape, every file ends up in exactly
   * one of processedFiles and errors.
   */
  lemma {:induction false} RunAccountsForEveryFile(files: seq<WalkEntry>, outs: seq<FileOutcome>)
    requires |outs| == |files|
    requires forall k :: 0 <= k < |outs| ==> !outs[k].Escaped?
    ensures RunOf(files, outs).escaped.None?
    ensures |RunOf(files, outs).processed| + |RunOf(files, outs).errors| == |files|
    decreases |files|
  {
    if files != [] {
      RunAccountsForEveryFile(files[..|files| - 1], outs[..|outs| - 1]);
    }
  }

  /** With the corrected transform, processedFiles and errors together count every Java file. */
  lemma QuotedRunAccountsForEveryFile(t: Tables, files: seq<WalkEntry>)
    requires WellFormed(t) && Safe(t)
    ensures RunOf(files, Outcomes(t, files, true)).escaped.None?
    ensures |RunOf(files, Outcomes(t, files, true)).processed| + |RunOf(files, Outcomes(t, files, true)).errors| == |files|
  {
    var outs := Outcomes(t, files, true);
    forall k | 0 <= k < |outs| ensures !outs[k].Escaped? {
      QuotedFileNeverEscapes(t, files[k]);
    }
    RunAccountsForEveryFile(files, outs);
  }

  /** Every write of a run comes from a file whose outcome wrote that text. */
  lemma {:induction false} RunWritesComeFromFiles(files: seq<WalkEntry>, outs: seq<FileOutcome>, w: (string, string))
    requires |outs| == |files| && w in RunOf(files, outs).writes
    ensures exists k :: 0 <= k < |files| && files[k].path == w.0 && outs[k] == Processed(Some(w.1))
    decreases |files|
  {
    var n := |files| - 1;
    var before := RunOf(files[..n], outs[..n]);
    if w in before.writes {
      RunWritesComeFromFiles(files[..n], outs[..n], w);
      var k :| 0 <= k < n && files[..n][k].path == w.0 && outs[..n][k] == Processed(Some(w.1));
      assert files[k] == files[..n][k] && outs[k] == outs[..n][k];
    } else {
      assert files[n].path == w.0 && outs[n] == Processed(Some(w.1));
    }
  }

  /** A run writes a file only with its migrated text, and only when that text differs from what was read. */
  lemma WritesOnlyChangedFiles(t: Tables, files: seq<WalkEntry>, quote: bool, w: (string, string))
    requires WellFormed(t) && w in RunOf(files, Outcomes(t, files, quote)).writes
    ensures exists k :: (0 <= k < |files| && files[k].path == w.0 && files[k].read.Ok? &&
      Transform(t, files[k].read.value, quote) == Ok(w.1) && w.1 != files[k].read.value)
  {
    var outs := Outcomes(t, files, quote);
    RunWritesComeFromFiles(files, outs, w);
    var k :| 0 <= k < |files| && files[k].path == w.0 && outs[k] == Processed(Some(w.1));
    WriteIsMigratedText(t, files[k], quote);
  }

  /** Once an exception has escaped, the files after it change nothing. */
  lemma {:induction false} RunStopsAfterEscape(files: seq<WalkEntry>, outs: seq<FileOutcome>, i: nat)
    requires |outs| == |files| && i <= |files| && RunOf(files[..i], outs[..i]).escaped.Some?
    ensures RunOf(files, outs) == RunOf(files[..i], outs[..i])
    decreases |files| - i
  {
    if i < |files| {
      var n := |files| - 1;
      assert files[..n][..i] == files[..i] && outs[..n][..i] == outs[..i];
      RunStopsAfterEscape(files[..n], outs[..n], i);
    } else {
      assert files[..i] == files && outs[..i] == outs;
    }
  }

  lemma RunAppend(files: seq<WalkEntry>, outs: seq<FileOutcome>, o: FileOutcome)
    requires |outs| < |files|
    ensures RunOf(files[..|outs| + 1], outs + [o]) == Step(RunOf(files[..|outs|], outs), files[|outs|], o)
  {
    var n := |outs|;
    var fs := files[..n + 1];
    assert fs[..n] == files[..n];
    assert (outs + [o])[..n] == outs;
    assert fs[n] == files[n] && (outs + [o])[n] == o;
  }

  /** The statistics getStats reports. */
  datatype MigrationStats = MigrationStats(processedCount: nat, errorCount: nat)

  /** The migrator of one cartridge: the lists it appends to, and what it wrote. */
  class Migration {
    const tables: Tables
    var processedFiles: seq<string>
    var errors: seq<string>
    var writes: seq<(string, string)>

    /** The bookkeeping as a Run value. */
    function State(): Run
      reads this
    {
      Run(processedFiles, errors, writes, None)
    }

    /** The rule tables are static fields of CodeMigrator; here they are given, and the migrator gives StandardTables. */
    constructor (tables: Tables)
      requires WellFormed(tables)
      ensures this.tables == tables
      ensures processedFiles == [] && errors == [] && writes == []
    {
      this.tables := tables;
      processedFiles, errors, writes := [], [], [];
    }

    /**
     * migrateFile. Returns the message of an unchecked exception that leaves
     * the method (the state is then unchanged), or None.
     */
    method MigrateFile(f: WalkEntry, quote: bool) returns (escaped: Option<string>)
      requires WellFormed(tables)
      modifies this
      ensures Step(old(State()), f, FileOutcomeOf(tables, f, quote)) == Run(processedFiles, errors, writes, escaped)
    {
      escaped := None;
      match f.read {
        case Err(m) =>
          errors := errors + ["Failed to migrate " + f.path + ": " + m];
        case Ok(original) =>
          var result := Transform(tables, original, quote);
          match result {
            case Err(m) =>
              escaped := Some(m);
            case Ok(migrated) =>
              if migrated != original {
                if f.writeError.Some? {
                  errors := errors + ["Failed to migrate " + f.path + ": " + f.writeError.value];
                  return;
                }
                writes := writes + [(f.path, migrated)];
              }
              processedFiles := processedFiles + [f.path];
          }
      }
    }

    /**
     * migrate: walks the cartridge and migrates every regular ".java" file
     * in walk order. A failing walk adds one error; an unchecked exception
     * from a file ends the run and is returned.
     */
    method Migrate(walk: Result<seq<WalkEntry>>, quote: bool) returns (escaped: Option<string>)
      requires WellFormed(tables)
      modifies this
      ensures walk.Err? ==>
        processedFiles == old(processedFiles) && writes == old(writes) && escaped.None? &&
        errors == old(errors) + ["Failed to walk directory tree: " + walk.error]
      ensures walk.Ok? ==>
        var files := JavaFiles(walk.value);
        var run := RunOf(files, Outcomes(tables, files, quote));
        processedFiles == old(processedFiles) + run.processed && errors == old(errors) + run.errors &&
        writes == old(writes) + run.writes && escaped == run.escaped
    {
      if walk.Err? {
        errors := errors + ["Failed to walk directory tree: " + walk.error];
        return None;
      }
      var files := JavaFiles(walk.value);
      ghost var outcomes;
      escaped, outcomes := MigrateFiles(files, quote);
      RunOfDoneFiles(tables, files, quote, outcomes);
    }

    /**
     * The loop of migrate over the files the walk selected. `outcomes` holds
     * the outcome of each file migrateFile was called on, in order.
     */
    method MigrateFiles(files: seq<WalkEntry>, quote: bool) returns (escaped: Option<string>, ghost outcomes: seq<FileOutcome>)
      requires WellFormed(tables)
      modifies this
      ensures |outcomes| <= |files|
      ensures forall k {:trigger FileOutcomeOf(tables, files[k], quote)} ::
        0 <= k < |outcomes| ==> outcomes[k] == FileOutcomeOf(tables, files[k], quote)
      ensures |outcomes| < |files| ==> RunOf(files[..|outcomes|], outcomes).escaped.Some?
      ensures processedFiles == old(processedFiles) + RunOf(files[..|outcomes|], outcomes).processed
      ensures errors == old(errors) + RunOf(files[..|outcomes|], outcomes).errors
      ensures writes == old(writes) + RunOf(files[..|outcomes|], outcomes).writes
      ensures escaped == RunOf(files[..|outcomes|], outcomes).escaped
    {
      escaped := None;
      outcomes := [];
      var p0, e0, w0 := processedFiles, errors, writes;
      var i := 0;
      while i < |files|
        invariant 0 <= i <= |files| && |outcomes| == i
        invariant forall k {:trigger FileOutcomeOf(tables, files[k], quote)} ::
          0 <= k < i ==> outcomes[k] == FileOutcomeOf(tables, files[k], quote)
        invariant RunOf(files[..i], outcomes).escaped.None?
        invariant processedFiles == p0 + RunOf(files[..i], outcomes).processed
        invariant errors == e0 + RunOf(files[..i], outcomes).errors
        invariant writes == w0 + RunOf(files[..i], outcomes).writes
        invariant escaped.None?
      {
        escaped, outcomes := MigrateNext(files, quote, i, outcomes, p0, e0, w0);
        i := i + 1;
        if escaped.Some? {
          return;
        }
      }
    }

    /** One turn of migrate's loop: migrateFile on the next file, and what it adds to the lists. */
    method MigrateNext(files: seq<WalkEntry>, quote: bool, i: nat, ghost outcomes: seq<FileOutcome>,
                       ghost p0: seq<string>, ghost e0: seq<string>, ghost w0: seq<(string, string)>)
      returns (escaped: Option<string>, ghost next: seq<FileOutcome>)
      requires WellFormed(tables) && i < |files| && |outcomes| == i
      requires RunOf(files[..i], outcomes).escaped.None?
      requires processedFiles == p0 + RunOf(files[..i], outcomes).processed
      requires errors == e0 + RunOf(files[..i], outcomes).errors
      requires writes == w0 + RunOf(files[..i], outcomes).writes
      modifies this
      ensures next == outcomes + [FileOutcomeOf(tables, files[i], quote)]
      ensures escaped == RunOf(files[..i + 1], next).escaped
      ensures processedFiles == p0 + RunOf(files[..i + 1], next).processed
      ensures errors == e0 + RunOf(files[..i + 1], next).errors
      ensures writes == w0 + RunOf(files[..i + 1], next).writes
    {
      ghost var before := RunOf(files[..i], outcomes);
      ghost var o;
      escaped, o := MigrateFileOutcome(files[i], quote);
      RunAppend(files, outcomes, o);
      next := outcomes + [o];
      StepAppends(p0, e0, w0, before, files[i], o, processedFiles, errors, writes, escaped);
    }

    /** migrateFile, also naming the outcome it realised. */
    method MigrateFileOutcome(f: WalkEntry, quote: bool) returns (escaped: Option<string>, ghost outcome: FileOutcome)
      requires WellFormed(tables)
      modifies this
      ensures outcome == FileOutcomeOf(tables, f, quote)
      ensures Step(old(State()), f, outcome) == Run(processedFiles, errors, writes, escaped)
    {
      outcome := FileOutcomeOf(tables, f, quote);
      escaped := MigrateFile(f, quote);
    }

    /** getStats. */
    method GetStats() returns (stats: MigrationStats)
      ensures stats == MigrationStats(|processedFiles|, |errors|)
    {
      stats := MigrationStats(|processedFiles|, |errors|);
    }
  }

  /**
   * The outcomes of a run that stopped early, or went through every file,
   * give the same bookkeeping as the outcomes of all files.
   */
  lemma RunOfDoneFiles(t: Tables, files: seq<WalkEntry>, quote: bool, outcomes: seq<FileOutcome>)
    requires WellFormed(t) && |outcomes| <= |files|
    requires forall k {:trigger FileOutcomeOf(t, files[k], quote)} ::
      0 <= k < |outcomes| ==> outcomes[k] == FileOutcomeOf(t, files[k], quote)
    requires |outcomes| < |files| ==> RunOf(files[..|outcomes|], outcomes).escaped.Some?
    ensures RunOf(files, Outcomes(t, files, quote)) == RunOf(files[..|outcomes|], outcomes)
  {
    var outs := Outcomes(t, files, quote);
    var n := |outcomes|;
    assert outs[..n] == outcomes by {
      forall k | 0 <= k < n ensures outs[k] == outcomes[k] {
        assert outs[k] == FileOutcomeOf(t, files[k], quote);
      }
    }
    if n < |files| {
      RunStopsAfterEscape(files, outs, n);
    } else {
      assert files[..n] == files && outs[..n] == outs;
    }
  }

  /** A step taken on lists that already hold earlier entries appends the same entries. */
  lemma StepAppends(p0: seq<string>, e0: seq<string>, w0: seq<(string, string)>, before: Run, f: WalkEntry, o: FileOutcome,
                    p: seq<string>, e: seq<string>, w: seq<(string, string)>, escaped: Option<string>)
    requires before.escaped.None?
    requires Step(Run(p0 + before.processed, e0 + before.errors, w0 + before.writes, None), f, o) == Run(p, e, w, escaped)
    ensures escaped == Step(before, f, o).escaped
    ensures escaped.None? ==> (p == p0 + Step(before, f, o).processed && e == e0 + Step(before, f, o).errors &&
      w == w0 + Step(before, f, o).writes)
  {
    assert forall x: seq<string>, y: seq<string>, z: seq<string> :: x + y + z == x + (y + z);
  }
}
