/**
 * The first five stages of CodeMigrator.migrateContent: the rewrite tables
 * and the regular expressions that apply them, each written out as a matcher
 * that says whether (and how) its pattern matches at one position of the
 * file text. `Scan` is the find/appendReplacement/appendTail loop that every
 * stage runs with its own matcher.
 */
module RewriteRules {
  import opened Text
  import opened Matcher

  // ---------------------------------------------------------------------
  // Positions in the text
  // ---------------------------------------------------------------------

  /**
   * Where `^` matches in MULTILINE mode: at the start of the input or after a
   * line terminator, never between `\r` and `\n`, and never at the very end
   * of the input.
   */
  predicate LineStart(s: string, i: nat) {
    i < |s| && (i == 0 || (IsLineTerminator(s[i - 1]) && !(s[i - 1] == '\r' && s[i] == '\n')))
  }

  /** The first line terminator at or after `i`, or the end of the text. */
  function LineEnd(s: string, i: nat): (e: nat)
    requires i <= |s|
    ensures i <= e <= |s|
    ensures forall k :: i <= k < e ==> !IsLineTerminator(s[k])
    ensures e < |s| ==> IsLineTerminator(s[e])
    decreases |s| - i
  {
    if i == |s| || IsLineTerminator(s[i]) then i else LineEnd(s, i + 1)
  }

  /** The first `c` at or after `i`, or the end of the text. */
  function IndexOf(s: string, c: char, i: nat): (p: nat)
    requires i <= |s|
    ensures i <= p <= |s|
    ensures forall k :: i <= k < p ==> s[k] != c
    ensures p < |s| ==> s[p] == c
    decreases |s| - i
  {
    if i == |s| || s[i] == c then i else IndexOf(s, c, i + 1)
  }

  /** `\b` as java.util.regex has it since JDK 19: a boundary between an ASCII word character of `\w` and anything else. */
  predicate WordBoundary(s: string, i: nat) {
    (0 < i <= |s| && IsWordChar(s[i - 1])) != (i < |s| && IsWordChar(s[i]))
  }

  /**
   * `^kw\s+[^;]+;` at `i` (MULTILINE): the keyword at a line start, at least
   * one whitespace character, at least one further character, all up to the
   * first `;`. Returns the index of that `;`.
   */
  function StatementEnd(s: string, i: nat, kw: string): (p: Option<nat>)
    ensures p.Some? ==> i + |kw| + 2 <= p.value < |s| && s[p.value] == ';'
    ensures p.Some? ==> kw <= s[i..] && IsJavaWhitespace(s[i + |kw|])
    ensures p.Some? ==> forall k :: i + |kw| <= k < p.value ==> s[k] != ';'
  {
    if !LineStart(s, i) || !(kw <= s[i..]) then None
    else
      var g := i + |kw|;
      var p := IndexOf(s, ';', g);
      if p == |s| || p < g + 2 || !IsJavaWhitespace(s[g]) then None
      else Some(p)
  }

  /**
   * Capture group 1 of `^import\s+([^;]+);` when the statement ends at `p`:
   * the greedy `\s+` takes the whole whitespace run unless that would leave
   * nothing for `[^;]+`, in which case it gives back one character.
   */
  function StatementBody(s: string, i: nat, kw: string, p: nat): (g1: string)
    requires i + |kw| + 2 <= p < |s| && s[p] == ';'
    ensures 0 < |g1| <= p && g1 == s[p - |g1|..p]
    ensures |g1| > 1 ==> !IsJavaWhitespace(g1[0])
  {
    var g := i + |kw|;
    var w := WsRun(s, g);
    if g + w < p then s[g + w..p] else s[p - 1..p]
  }

  // ---------------------------------------------------------------------
  // The rewrite tables, in the order the model applies them
  // ---------------------------------------------------------------------

  /** PACKAGE_MIGRATIONS: a literal import prefix and its replacement. */
  const PackageTable: seq<(string, string)> := [
    ("import javax.inject.", "import jakarta.inject."),
    ("import javax.ws.rs.", "import jakarta.ws.rs."),
    ("import javax.xml.bind.", "import jakarta.xml.bind."),
    ("import javax.annotation.", "import jakarta.annotation."),
    ("import javax.servlet.", "import jakarta.servlet."),
    ("import org.apache.commons.lang.", "import org.apache.commons.lang3."),
    ("import org.apache.commons.collections.", "import org.apache.commons.collections4."),
    ("import com.jayway.restassured.", "import io.restassured."),
    ("import com.intershop.beehive.objectgraph.guice.test.", "import com.intershop.platform.objectgraph.testrule.")
  ]

  /** Every package prefix is longer than eleven characters (so none is empty). */
  lemma PackageKeysLong()
    ensures forall k :: 0 <= k < |PackageTable| ==> |PackageTable[k].0| > 11
  {
    assert |PackageTable[0].0| > 11 && |PackageTable[1].0| > 11 && |PackageTable[2].0| > 11;
    assert |PackageTable[3].0| > 11 && |PackageTable[4].0| > 11 && |PackageTable[5].0| > 11;
    assert |PackageTable[6].0| > 11 && |PackageTable[7].0| > 11 && |PackageTable[8].0| > 11;
  }

  /** CLASS_MIGRATIONS: a fully qualified name and the name it becomes. */
  const ClassTable: seq<(string, string)> := [
    ("org.junit.jupiter.api.Test", "org.junit.Test"),
    ("org.junit.jupiter.api.BeforeEach", "org.junit.Before"),
    ("org.junit.jupiter.api.AfterEach", "org.junit.After"),
    ("org.junit.jupiter.api.BeforeAll", "org.junit.BeforeClass"),
    ("org.junit.jupiter.api.AfterAll", "org.junit.AfterClass"),
    ("org.junit.jupiter.api.Disabled", "org.junit.Ignore"),
    ("org.junit.jupiter.api.extension.ExtendWith", "org.junit.runner.RunWith"),
    ("org.junit.jupiter.api.extension.RegisterExtension", "org.junit.rules.TestName"),
    ("org.junit.jupiter.api.Assertions", "org.junit.Assert"),
    ("org.junit.jupiter.api.Assumptions", "org.junit.Assume"),
    ("org.hamcrest.MatcherAssert.assertThat", "org.junit.Assert.assertThat"),
    ("org.mockito.runners.MockitoJUnitRunner", "org.mockito.junit.jupiter.MockitoExtension"),
    ("org.mockito.junit.MockitoJUnitRunner", "org.mockito.junit.jupiter.MockitoExtension"),
    ("org.mockito.MockitoAnnotations", "org.mockito.MockitoAnnotations"),
    ("org.mockito.Mock", "org.mockito.Mock"),
    ("org.mockito.InjectMocks", "org.mockito.InjectMocks"),
    ("com.intershop.sellside.rest.common.patch.PATCH", "jakarta.ws.rs.PATCH"),
    ("com.intershop.sellside.rest.common.v1.capi.resourceobject.common.MoneyRO",
     "com.intershop.component.rest.resources.v1.capi.resourceobject.MoneyRO"),
    ("com.intershop.soennecken.sellside.rest.basket.v1.capi.request.basket.BasketItemGetRequest",
     "com.intershop.sellside.rest.basket.v1.capi.request.basket.BasketItemGetRequest"),
    ("com.intershop.beehive.orm.internal.jdbc.JDBCConnection",
     "com.intershop.beehive.orm.capi.jdbc.JDBCConnection"),
    ("com.intershop.beehive.core.internal.process.xml.Chain",
     "com.intershop.xsd.processchain.v1.Chain")
  ]

  /** ANNOTATION_MIGRATIONS. */
  const AnnotationTable: seq<(string, string)> := [
    ("@BeforeEach", "@Before"),
    ("@AfterEach", "@After"),
    ("@BeforeAll", "@BeforeClass"),
    ("@AfterAll", "@AfterClass"),
    ("@Disabled", "@Ignore"),
    ("@ExtendWith", "@RunWith"),
    ("@RegisterExtension", "@Rule")
  ]

  /**
   * A rule of the later stages, one per regular expression CodeMigrator
   * compiles:
   *  - StaticImport: the line pattern `^import.*$` (MULTILINE) whose lines
   *    containing `org.junit.jupiter` are rewritten by
   *    `^import static\s+<target>` -> `replacement`;
   *  - ImportedClass: `^import\s+([^;]+);` (MULTILINE), rewriting the name through its class table;
   *  - Annotation: `(\s)<key>(\s|\()` -> `$1<value>$2`;
   *  - MethodCall: `\b<name>` (followed by `\s*\(` when `spaceThenParen`)
   *    -> `replacement`.
   */
  datatype Rule =
    | StaticImport(target: string, replacement: string)
    | ImportedClass(classes: seq<(string, string)>)
    | Annotation(key: string, value: string)
    | MethodCall(name: string, spaceThenParen: bool, replacement: string)

  /** STATIC_IMPORT_MIGRATIONS. */
  const StaticImportRules: seq<Rule> := [
    StaticImport("org.junit.jupiter.api.Assertions.", "import static org.junit.Assert."),
    StaticImport("org.junit.jupiter.api.Assumptions.", "import static org.junit.Assume.")
  ]

  /** METHOD_MIGRATIONS. */
  const MethodRules: seq<Rule> := [
    MethodCall("verifyZeroInteractions", true, "verifyNoInteractions("),
    MethodCall("MockitoAnnotations.initMocks(", false, "MockitoAnnotations.openMocks("),
    MethodCall("Assertions.assert", false, "Assert.assert"),
    MethodCall("Assumptions.assume", false, "Assume.assume")
  ]

  /** One Annotation rule per ANNOTATION_MIGRATIONS entry. */
  function AnnotationRules(table: seq<(string, string)>): (rules: seq<Rule>)
    ensures |rules| == |table|
    ensures forall k :: 0 <= k < |table| ==> rules[k] == Annotation(table[k].0, table[k].1)
  {
    if table == [] then [] else [Annotation(table[0].0, table[0].1)] + AnnotationRules(table[1..])
  }

  // ---------------------------------------------------------------------
  // Stage 2: static imports
  // ---------------------------------------------------------------------

  /**
   * `^import static\s+<target>` replaced (replaceAll, but `^` without
   * MULTILINE only matches at the start) within one import line.
   */
  function RewriteStaticLine(line: string, target: string, replacement: string): (r: string)
    ensures r != line ==> |line| > 13 && "import static" <= line && IsJavaWhitespace(line[13])
    ensures r != line ==> replacement <= r
  {
    if "import static" <= line then
      var w := WsRun(line, 13);
      if w > 0 && target <= line[13 + w..] then replacement + line[13 + w + |target|..]
      else line
    else line
  }

  // ---------------------------------------------------------------------
  // Stage 3: imported class names
  // ---------------------------------------------------------------------

  /** A table entry applies to a name that equals its key or extends it by `.`. */
  predicate KeyCovers(key: string, name: string) {
    name == key || key + "." <= name
  }

  /** The first entry that covers the name decides; no entry: unchanged. */
  function LookupClass(table: seq<(string, string)>, name: string): string
  {
    if table == [] then name
    else if name == table[0].0 then table[0].1
    else if table[0].0 + "." <= name then table[0].1 + name[|table[0].0|..]
    else LookupClass(table[1..], name)
  }

  /** JUnit 4 names (`org.junit.` but not `org.junit.jupiter`) and `jakarta.` names are left alone. */
  predicate SkippedName(name: string) {
    ("org.junit." <= name && !("org.junit.jupiter" <= name)) || "jakarta." <= name
  }

  function MigrateClassName(classes: seq<(string, string)>, name: string): string {
    if SkippedName(name) then name else LookupClass(classes, name)
  }

  // ---------------------------------------------------------------------
  // Matching a rule at one position
  // ---------------------------------------------------------------------

  /**
   * A match: where it ends, its groups (group 0 first), the replacement
   * string handed to appendReplacement, and whether that string carries text
   * taken from the file (as opposed to a constant of CodeMigrator).
   */
  datatype Hit = Hit(end: nat, groups: seq<string>, replacement: string, fromText: bool)

  /** The match the regex engine finds when it tries the rule's pattern at `i`. */
  function MatchAt(rule: Rule, s: string, i: nat): (h: Option<Hit>)
    ensures h.Some? ==> i < h.value.end <= |s| && |h.value.groups| >= 1
    ensures h.Some? ==> h.value.groups[0] == s[i..h.value.end]
  {
    match rule
    case StaticImport(target, replacement) => StaticImportAt(target, replacement, s, i)
    case ImportedClass(classes) => ClassImportAt(classes, s, i)
    case Annotation(key, value) => AnnotationAt(key, value, s, i)
    case MethodCall(name, spaceThenParen, replacement) => MethodCallAt(name, spaceThenParen, replacement, s, i)
  }

  /** `^import.*$` (MULTILINE): the whole line, rewritten when it mentions `org.junit.jupiter`. */
  function StaticImportAt(target: string, replacement: string, s: string, i: nat): (h: Option<Hit>)
    ensures h.Some? ==> i < h.value.end <= |s| && |h.value.groups| >= 1
    ensures h.Some? ==> h.value.groups[0] == s[i..h.value.end]
  {
    if LineStart(s, i) && "import" <= s[i..] then
      var e := LineEnd(s, i + 6);
      var line := s[i..e];
      var rep := if Contains(line, "org.junit.jupiter") then RewriteStaticLine(line, target, replacement) else line;
      Some(Hit(e, [line], rep, true))
    else None
  }

  /** `^import\s+([^;]+);` (MULTILINE), replaced by the statement with its name migrated. */
  function ClassImportAt(classes: seq<(string, string)>, s: string, i: nat): (h: Option<Hit>)
    ensures h.Some? ==> i < h.value.end <= |s| && |h.value.groups| >= 1
    ensures h.Some? ==> h.value.groups[0] == s[i..h.value.end]
  {
    var p := StatementEnd(s, i, "import");
    if p.None? then None
    else
      var body := StatementBody(s, i, "import", p.value);
      Some(Hit(p.value + 1, [s[i..p.value + 1], body], ClassImportText(classes, body), true))
  }

  /** The statement an import of `body` is rewritten to. */
  function ClassImportText(classes: seq<(string, string)>, body: string): string {
    "import " + MigrateClassName(classes, Trim(body)) + ";"
  }

  /** `(\s)<key>(\s|\()` replaced by `$1<value>$2`. */
  function AnnotationAt(key: string, value: string, s: string, i: nat): (h: Option<Hit>)
    ensures h.Some? ==> i < h.value.end <= |s| && |h.value.groups| >= 1
    ensures h.Some? ==> h.value.groups[0] == s[i..h.value.end]
  {
    var k := i + 1 + |key|;
    if k < |s| && IsJavaWhitespace(s[i]) && key <= s[i + 1..] && (IsJavaWhitespace(s[k]) || s[k] == '(') then
      Some(Hit(k + 1, [s[i..k + 1], [s[i]], [s[k]]], "$1" + value + "$2", false))
    else None
  }

  /** `\b<name>`, followed by `\s*\(` when `spaceThenParen`. */
  function MethodCallAt(name: string, spaceThenParen: bool, replacement: string, s: string, i: nat): (h: Option<Hit>)
    ensures h.Some? ==> i < h.value.end <= |s| && |h.value.groups| >= 1
    ensures h.Some? ==> h.value.groups[0] == s[i..h.value.end]
  {
    if name != [] && WordBoundary(s, i) && name <= s[i..] then
      var j := i + |name|;
      if !spaceThenParen then Some(Hit(j, [s[i..j]], replacement, false))
      else
        var w := WsRun(s, j);
        if j + w < |s| && s[j + w] == '(' then Some(Hit(j + w + 1, [s[i..j + w + 1]], replacement, false))
        else None
    else None
  }

  /**
   * What appendReplacement appends for a hit. With `quote` the replacement
   * is first passed through Matcher.quoteReplacement when it carries file
   * text; without it, exactly as CodeMigrator hands it over.
   */
  function Emit(h: Hit, quote: bool): Result<string>
    requires |h.groups| >= 1
  {
    Expand(if quote && h.fromText then QuoteReplacement(h.replacement) else h.replacement, h.groups)
  }

  /**
   * The find/appendReplacement/appendTail loop from position `i`: the text
   * between matches is copied, each match is replaced by what Emit gives,
   * and the search resumes where the match ended.
   */
  function Scan(rule: Rule, s: string, quote: bool, i: nat): Result<string>
    requires i <= |s|
    decreases |s| - i
  {
    if i == |s| then Ok([])
    else match MatchAt(rule, s, i)
      case Some(h) =>
        var out :- Emit(h, quote);
        var rest :- Scan(rule, s, quote, h.end);
        Ok(out + rest)
      case None =>
        var rest :- Scan(rule, s, quote, i + 1);
        Ok([s[i]] + rest)
  }

  /** One replaceAll (or line loop) per rule, each on the previous result. */
  function ApplyRules(rules: seq<Rule>, s: string, quote: bool): Result<string>
    decreases |rules|
  {
    if rules == [] then Ok(s)
    else
      var t :- Scan(rules[0], s, quote, 0);
      ApplyRules(rules[1..], t, quote)
  }

  /** Stage 1: each package prefix replaced literally, entry after entry. */
  function MigratePackages(table: seq<(string, string)>, s: string): string
    requires forall k :: 0 <= k < |table| ==> table[k].0 != []
  {
    if table == [] then s else MigratePackages(table[1..], ReplaceAll(s, table[0].0, table[0].1))
  }

  // ---------------------------------------------------------------------
  // Properties
  // ---------------------------------------------------------------------

  /** A hit at `j`, if any, is replaced by its own text. */
  predicate ReEmitsAt(rule: Rule, s: string, quote: bool, j: nat)
  {
    var m := MatchAt(rule, s, j);
    m.Some? ==> Emit(m.value, quote) == Ok(s[j..m.value.end])
  }

  /** Where no rule matches, Scan copies the text; more generally, hits that re-emit their own text leave it unchanged. */
  lemma {:induction false} ScanKeepsText(rule: Rule, s: string, quote: bool, i: nat)
    requires i <= |s|
    requires forall j: nat :: i <= j < |s| ==> ReEmitsAt(rule, s, quote, j)
    ensures Scan(rule, s, quote, i) == Ok(s[i..])
    decreases |s| - i
  {
    if i < |s| {
      var n := NextPos(rule, s, i);
      ScanKeepsText(rule, s, quote, n);
      KeepStep(rule, s, quote, i);
    } else {
      assert s[i..] == [];
    }
  }

  /** Where Scan resumes after looking at `i`. */
  function NextPos(rule: Rule, s: string, i: nat): (n: nat)
    requires i < |s|
    ensures i < n <= |s|
  {
    var m := MatchAt(rule, s, i);
    if m.Some? then m.value.end else i + 1
  }

  lemma KeepStep(rule: Rule, s: string, quote: bool, i: nat)
    requires i < |s| && ReEmitsAt(rule, s, quote, i)
    requires Scan(rule, s, quote, NextPos(rule, s, i)) == Ok(s[NextPos(rule, s, i)..])
    ensures Scan(rule, s, quote, i) == Ok(s[i..])
  {
    var m := MatchAt(rule, s, i);
    if m.Some? {
      SliceSplit(s, i, m.value.end);
    } else {
      SliceSplit(s, i, i + 1);
      assert s[i..i + 1] == [s[i]];
    }
  }

  /** Scan succeeds when every hit from `i` on expands without error. */
  lemma {:induction false} ScanOk(rule: Rule, s: string, quote: bool, i: nat)
    requires i <= |s|
    requires forall j :: i <= j < |s| && MatchAt(rule, s, j).Some? ==> Emit(MatchAt(rule, s, j).value, quote).Ok?
    ensures Scan(rule, s, quote, i).Ok?
    decreases |s| - i
  {
    if i < |s| {
      var m := MatchAt(rule, s, i);
      if m.Some? {
        ScanOk(rule, s, quote, m.value.end);
      } else {
        ScanOk(rule, s, quote, i + 1);
      }
    }
  }

  lemma SliceSplit(s: string, i: nat, e: nat)
    requires i <= e <= |s|
    ensures s[i..] == s[i..e] + s[e..]
  {
  }

  /** With quoteReplacement applied, Scan never fails, whatever the text. */
  lemma ScanQuotedTotal(rule: Rule, s: string, i: nat)
    requires i <= |s|
    requires !rule.Annotation? || !HasSpecial(rule.value)
    requires !rule.MethodCall? || !HasSpecial(rule.replacement)
    ensures Scan(rule, s, true, i).Ok?
  {
    forall j | i <= j < |s| && MatchAt(rule, s, j).Some?
      ensures Emit(MatchAt(rule, s, j).value, true).Ok?
    {
      EmitQuotedTotal(rule, s, j);
    }
    ScanOk(rule, s, true, i);
  }

  /** Every hit of every rule expands without error once file text is quoted. */
  lemma EmitQuotedTotal(rule: Rule, s: string, i: nat)
    requires MatchAt(rule, s, i).Some?
    requires !rule.Annotation? || !HasSpecial(rule.value)
    requires !rule.MethodCall? || !HasSpecial(rule.replacement)
    ensures Emit(MatchAt(rule, s, i).value, true).Ok?
  {
    var h := MatchAt(rule, s, i).value;
    match rule
    case StaticImport(_, _) => ExpandQuoted(h.replacement, h.groups);
    case ImportedClass(_) => ExpandQuoted(h.replacement, h.groups);
    case Annotation(key, value) => ExpandKeepsDelimiters(value, h.groups);
    case MethodCall(_, _, replacement) => ExpandPlain(replacement, h.groups);
  }

  /**
   * An annotation is renamed exactly where a whitespace character precedes
   * its key and whitespace or `(` follows it, and both delimiters are kept.
   */
  lemma AnnotationHit(key: string, value: string, s: string, i: nat)
    requires !HasSpecial(value)
    ensures MatchAt(Annotation(key, value), s, i).Some? <==>
      (i + 1 + |key| < |s| && IsJavaWhitespace(s[i]) && key <= s[i + 1..] &&
       (IsJavaWhitespace(s[i + 1 + |key|]) || s[i + 1 + |key|] == '('))
    ensures MatchAt(Annotation(key, value), s, i).Some? ==>
      Emit(MatchAt(Annotation(key, value), s, i).value, false) == Ok([s[i]] + value + [s[i + 1 + |key|]])
  {
    if MatchAt(Annotation(key, value), s, i).Some? {
      var h := MatchAt(Annotation(key, value), s, i).value;
      ExpandKeepsDelimiters(value, h.groups);
    }
  }

  /**
   * A line that is not an import line containing `org.junit.jupiter` comes
   * out of the static-import stage unchanged; with no such line the whole
   * text is unchanged.
   */
  lemma StaticImportKeepsOtherLines(target: string, replacement: string, s: string)
    requires forall j: nat :: LineStart(s, j) && "import" <= s[j..] ==> !Contains(s[j..LineEnd(s, j + 6)], "org.junit.jupiter")
    ensures Scan(StaticImport(target, replacement), s, true, 0) == Ok(s)
  {
    var rule := StaticImport(target, replacement);
    forall j | 0 <= j < |s| && MatchAt(rule, s, j).Some?
      ensures Emit(MatchAt(rule, s, j).value, true) == Ok(s[j..MatchAt(rule, s, j).value.end])
    {
      var h := MatchAt(rule, s, j).value;
      ExpandQuoted(h.replacement, h.groups);
    }
    ScanKeepsText(rule, s, true, 0);
  }

  /**
   * The static-import stage as a text transformation (CodeMigrator.java
   * lines 255-268): every `import` line that begins at a line start is
   * replaced by its rewrite when it mentions `org.junit.jupiter` and kept as
   * it is otherwise; all other text is copied.
   */
  function StaticImportLines(target: string, replacement: string, s: string, i: nat): string
    requires i <= |s|
    decreases |s| - i
  {
    if i == |s| then []
    else if LineStart(s, i) && "import" <= s[i..] then
      var e := LineEnd(s, i + 6);
      var line := s[i..e];
      (if Contains(line, "org.junit.jupiter") then RewriteStaticLine(line, target, replacement) else line)
        + StaticImportLines(target, replacement, s, e)
    else [s[i]] + StaticImportLines(target, replacement, s, i + 1)
  }

  /** With the line quoted before appendReplacement, the stage is that transformation, for every text. */
  lemma {:induction false} StaticImportScan(target: string, replacement: string, s: string, i: nat)
    requires i <= |s|
    ensures Scan(StaticImport(target, replacement), s, true, i) == Ok(StaticImportLines(target, replacement, s, i))
    decreases |s| - i
  {
    if i < |s| {
      var m := MatchAt(StaticImport(target, replacement), s, i);
      if m.Some? {
        ExpandQuoted(m.value.replacement, m.value.groups);
        StaticImportScan(target, replacement, s, m.value.end);
      } else {
        StaticImportScan(target, replacement, s, i + 1);
      }
    }
  }

  /**
   * Unquoted, as CodeMigrator hands the line over, the stage is still that
   * transformation when no import line holds `$` or `\` and neither does
   * the replacement.
   */
  lemma {:induction false} StaticImportScanUnquoted(target: string, replacement: string, s: string, i: nat)
    requires i <= |s| && !HasSpecial(replacement)
    requires forall j: nat :: i <= j && LineStart(s, j) && "import" <= s[j..] ==> !HasSpecial(s[j..LineEnd(s, j + 6)])
    ensures Scan(StaticImport(target, replacement), s, false, i) == Ok(StaticImportLines(target, replacement, s, i))
    decreases |s| - i
  {
    if i < |s| {
      var m := MatchAt(StaticImport(target, replacement), s, i);
      if m.Some? {
        RewriteStaticPlain(m.value.groups[0], target, replacement);
        ExpandPlain(m.value.replacement, m.value.groups);
        StaticImportScanUnquoted(target, replacement, s, m.value.end);
      } else {
        StaticImportScanUnquoted(target, replacement, s, i + 1);
      }
    }
  }

  /** Rewriting a line without `$` or `\` by a replacement without them introduces none. */
  lemma RewriteStaticPlain(line: string, target: string, replacement: string)
    requires !HasSpecial(line) && !HasSpecial(replacement)
    ensures !HasSpecial(RewriteStaticLine(line, target, replacement))
  {
    var r := RewriteStaticLine(line, target, replacement);
    if r != line {
      var x := 13 + WsRun(line, 13) + |target|;
      assert r == replacement + line[x..];
      forall k | 0 <= k < |r|
        ensures !IsSpecial(r[k])
      {
        if k >= |replacement| {
          assert r[k] == line[x + k - |replacement|];
        }
      }
    }
  }

  /** `\s*\(` at `j`: optional whitespace, then `(`. */
  predicate ParenFollows(s: string, j: nat)
    requires j <= |s|
  {
    j + WsRun(s, j) < |s| && s[j + WsRun(s, j)] == '('
  }

  /**
   * A method call is rewritten exactly where its name starts at a word
   * boundary and, for a rule that needs it, optional whitespace and `(`
   * follow; the whole match becomes the replacement.
   */
  lemma MethodCallHit(name: string, spaceThenParen: bool, replacement: string, s: string, i: nat)
    requires !HasSpecial(replacement)
    ensures MatchAt(MethodCall(name, spaceThenParen, replacement), s, i).Some? <==>
      (name != [] && WordBoundary(s, i) && name <= s[i..] && (spaceThenParen ==> ParenFollows(s, i + |name|)))
    ensures MatchAt(MethodCall(name, spaceThenParen, replacement), s, i).Some? ==>
      MatchAt(MethodCall(name, spaceThenParen, replacement), s, i).value.end ==
        i + |name| + (if spaceThenParen then WsRun(s, i + |name|) + 1 else 0)
    ensures MatchAt(MethodCall(name, spaceThenParen, replacement), s, i).Some? ==>
      Emit(MatchAt(MethodCall(name, spaceThenParen, replacement), s, i).value, false) == Ok(replacement)
  {
    var m := MatchAt(MethodCall(name, spaceThenParen, replacement), s, i);
    assert m == MethodCallAt(name, spaceThenParen, replacement, s, i);
    if m.Some? {
      ExpandPlain(replacement, m.value.groups);
    }
  }

  /** A text that does not contain the method name comes out of its rule unchanged. */
  lemma MethodCallAbsent(name: string, spaceThenParen: bool, replacement: string, s: string, quote: bool)
    requires !Contains(s, name)
    ensures Scan(MethodCall(name, spaceThenParen, replacement), s, quote, 0) == Ok(s)
  {
    var rule := MethodCall(name, spaceThenParen, replacement);
    forall j | 0 <= j < |s|
      ensures MatchAt(rule, s, j).None?
    {
      if name <= s[j..] {
        assert s[j..j + |name|] == name;
        ContainsAt(s, name, j);
      }
    }
    ScanKeepsText(rule, s, quote, 0);
  }

  /** A text without `import` at a line start goes through stages 2 and 3 unchanged. */
  lemma NoImportLineNoChange(rule: Rule, s: string, quote: bool)
    requires rule.StaticImport? || rule.ImportedClass?
    requires forall j: nat :: !(LineStart(s, j) && "import" <= s[j..])
    ensures Scan(rule, s, quote, 0) == Ok(s)
  {
    forall j | 0 <= j < |s|
      ensures MatchAt(rule, s, j).None?
    {
    }
    ScanKeepsText(rule, s, quote, 0);
  }

  /** What an entry that covers the name makes of it. */
  function Translate(entry: (string, string), name: string): string
    requires KeyCovers(entry.0, name)
  {
    if name == entry.0 then entry.1 else entry.1 + name[|entry.0|..]
  }

  /** The lookup applies the first entry that covers the name. */
  lemma {:induction false} LookupFirst(table: seq<(string, string)>, name: string, j: nat)
    requires j < |table| && KeyCovers(table[j].0, name)
    requires forall i :: 0 <= i < j ==> !KeyCovers(table[i].0, name)
    ensures LookupClass(table, name) == Translate(table[j], name)
  {
    if j > 0 {
      assert !KeyCovers(table[0].0, name);
      LookupFirst(table[1..], name, j - 1);
    }
  }

  /** A name no entry covers is left as it is. */
  lemma {:induction false} LookupNone(table: seq<(string, string)>, name: string)
    requires forall i :: 0 <= i < |table| ==> !KeyCovers(table[i].0, name)
    ensures LookupClass(table, name) == name
  {
    if table != [] {
      assert !KeyCovers(table[0].0, name);
      LookupNone(table[1..], name);
    }
  }

  /** Two different keys covering one name: one of them covers the other. */
  lemma CoversComparable(a: string, b: string, name: string)
    requires KeyCovers(a, name) && KeyCovers(b, name) && a != b
    ensures KeyCovers(a, b) || KeyCovers(b, a)
  {
    CoverIsPrefix(a, name);
    CoverIsPrefix(b, name);
    if |a| < |b| {
      assert b[..|a| + 1] == name[..|a| + 1] == a + ".";
    } else if |b| < |a| {
      assert a[..|b| + 1] == name[..|b| + 1] == b + ".";
    }
  }

  /** A covering key is the start of the name, followed by `.` unless it is all of it. */
  lemma CoverIsPrefix(key: string, name: string)
    requires KeyCovers(key, name)
    ensures |key| <= |name| && name[..|key|] == key
    ensures |key| < |name| ==> name[|key|] == '.'
  {
    if name != key {
      assert name[..|key| + 1] == key + ".";
    }
  }

  /** JUnit 4 and jakarta names come out of the class-name rewrite unchanged. */
  lemma ClassNameSkipped(classes: seq<(string, string)>, name: string)
    requires SkippedName(name)
    ensures MigrateClassName(classes, name) == name
  {
  }

  /**
   * A name covered by exactly one table entry gets that entry's value: the
   * value itself for an exact match, the value followed by the rest of the
   * name (from the `.` on) for a prefix match. The statement holds whatever
   * order the table is iterated in.
   */
  lemma ClassNameCovered(classes: seq<(string, string)>, name: string, j: nat)
    requires !SkippedName(name)
    requires j < |classes| && KeyCovers(classes[j].0, name)
    requires forall i :: 0 <= i < |classes| && i != j ==> !KeyCovers(classes[i].0, name)
    ensures name == classes[j].0 ==> MigrateClassName(classes, name) == classes[j].1
    ensures name != classes[j].0 ==> MigrateClassName(classes, name) == classes[j].1 + name[|classes[j].0|..]
    ensures name != classes[j].0 ==> name[|classes[j].0|] == '.'
  {
    LookupFirst(classes, name, j);
    if name != classes[j].0 {
      assert (classes[j].0 + ".")[|classes[j].0|] == '.';
    }
  }

  /** A name no table entry covers is kept. */
  lemma ClassNameUncovered(classes: seq<(string, string)>, name: string)
    requires forall i :: 0 <= i < |classes| ==> !KeyCovers(classes[i].0, name)
    ensures MigrateClassName(classes, name) == name
  {
    LookupNone(classes, name);
  }

  /**
   * Once quoted, an import statement is re-emitted as `import <name>;` with
   * the trimmed, migrated name, and it keeps its `^import\s+...;` extent.
   */
  lemma ImportedClassHit(classes: seq<(string, string)>, s: string, i: nat)
    requires MatchAt(ImportedClass(classes), s, i).Some?
    ensures StatementEnd(s, i, "import").Some?
    ensures Emit(MatchAt(ImportedClass(classes), s, i).value, true) ==
      Ok("import " + MigrateClassName(classes, Trim(StatementBody(s, i, "import", StatementEnd(s, i, "import").value))) + ";")
  {
    var p := StatementEnd(s, i, "import");
    assert p.Some?;
    var h := MatchAt(ImportedClass(classes), s, i).value;
    assert h.replacement == "import " + MigrateClassName(classes, Trim(StatementBody(s, i, "import", p.value))) + ";";
    ExpandQuoted(h.replacement, h.groups);
  }

  /** Stage 1 leaves a text that contains none of the table's prefixes unchanged. */
  lemma {:induction false} PackagesAbsent(table: seq<(string, string)>, s: string)
    requires forall k :: 0 <= k < |table| ==> table[k].0 != [] && !Contains(s, table[k].0)
    ensures MigratePackages(table, s) == s
  {
    if table != [] {
      ReplaceAbsent(s, table[0].0, table[0].1);
      PackagesAbsent(table[1..], s);
    }
  }
}
