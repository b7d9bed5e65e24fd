# MiCo migration driver — a Dafny model

MiCo migrates Intershop cartridges, one directory of Java code each, through a
list of phases. Each phase either runs a coding agent on the cartridge (the
`copilot` CLI or Claude Code) or, for the phase with id `code_migration`, runs
the built-in Java rewriter `CodeMigrator`. Every step is logged into a
per-session log directory.

This project models the core of that driver and proves properties of the
model. It has one module per core source file, plus two shared helpers.

Shared helpers:
- `Text`: the `java.lang.String` operations the program relies on:
  - Java's character classes;
  - `trim`, `contains` and literal `replace`;
  - ASCII case mapping and decimal rendering;
  - the `compareTo` order, with a sort over it.
- `Matcher`: the replacement-string language of `java.util.regex.Matcher`:
  - `$n` group references and `\x` escapes, as `appendReplacement`, `replaceAll` and `replaceFirst` read them;
  - `Matcher.quoteReplacement`.

The modules for the core files:
- `RewriteRules` and `ImportCleanup`: the six text stages of `CodeMigrator.migrateContent`.
  - Each regular expression is written out as a matcher at one text position.
  - The `find` / `appendReplacement` / `appendTail` loop is one function, `Scan`.
- `CodeMigrator`:
  - the rewrite tables;
  - the whole content transform;
  - the per-file bookkeeping of `migrate` / `migrateFile` / `getStats`, as the class `Migration`.
- `JavaImportScanner`: the import scanner behind the prompt's dependency list. Its loops are methods, proved against the first-seen-order set they build.
- `MigrationLogger`:
  - log file names;
  - the summary report and `formatDuration`;
  - the class `Logger`, whose methods write to a file system held as a map from path to content.
- `PhaseRepository`: the phase list, stably sorted by `order`, and the instruction lookup.
- `BaseAgent`, `CopilotAgent`, `ClaudeCodeAgent` and `IntershopClaudeAgent`: the agent builders.
  - Each is a class whose argument list only grows.
  - Each is proved against a function that builds the argument list from the sequence of calls made on the agent.
- `CommandLine`: `Main`'s argument loop, its validation, and the command the agent factory produces.
- `Migrator`: the session itself.
  - The class `Migrator` runs the cartridge loop and, inside it, the phase loop.
  - Each loop carries invariants tying three things to pure trace functions: the logger's writes, the calls on the shared agent, and every cartridge's current phase.
  - The trace functions are `PhaseTrace`, `CartridgeTrace`, `SessionTrace` and `SessionEnds`.

## How the model treats the world

Everything outside the program is an input:
- the file system, as maps from path to content;
- the directory walks, as sequences of entries that carry the read result of each file or its I/O error;
- the decoded phase configuration;
- the agent process's output and how it ended;
- clocks, as text;
- whether each write fails.

The `World` datatype of `Migrator` collects these inputs for one session.

The session models the program as it is written, including the two defects listed under "## Findings":
- the native phase runs the code migrator without quoting replacement text;
- the agent path opens the phase log through the truncating `executeWithLogging`.

The corrected definitions sit beside the as-written ones, each with its intended property proved.

Where the code's own comments and its behaviour disagree, the model follows the behaviour:
- `cleanupImports` puts a blank line only between two neighbouring categories that are both non-empty.
  - A non-empty category that follows an empty one is not separated from the category before it.
  - `ImportCleanup.LayoutAdjacentLines` states this.
- One agent object serves every phase of every cartridge.
  - `Migrator`'s constructor takes a single `Agent`, and the builder's argument list is never reset.
  - `Main`'s `Supplier<Agent>` factory (Main.java lines 60-69) is commented as making a fresh agent per phase, but `Migrator` takes one `Agent`.
  - `Migrator.SessionCallsPaired` and the agent modules' `CommandGrows` describe the shared agent.
  - Each agent module's `FactoryPhaseCommand` states what a fresh factory-made agent would run for one phase.

## Model

| member | source | states |
|---|---|---|
| Text.WsRun | src/main/java/com/mico/util/CodeMigrator.java:365 | the `\s*` run at a position: all whitespace, and maximal |
| Text.TrimStart | src/main/java/com/mico/util/CodeMigrator.java:284 | the leading characters up to U+0020 are cut, all of them and no more |
| Text.TrimEnd | src/main/java/com/mico/util/CodeMigrator.java:284 | the trailing characters up to U+0020 are cut, all of them and no more |
| Text.Trim | src/main/java/com/mico/util/CodeMigrator.java:284 | `String.trim()`: an infix of the input whose ends are not characters up to U+0020, and the input itself when it has none of them |
| Text.TrimFixed | src/main/java/com/mico/util/JavaImportScanner.java:76 | a text that neither starts nor ends with such a character is its own trim |
| Text.ReplaceAllIsJoinOfSplit | src/main/java/com/mico/Migrator.java:115 | literal `replace` is the split at the pattern joined with the replacement |
| Text.SplitPiecesArePatternFree | src/main/java/com/mico/Migrator.java:115 | no piece between replaced occurrences still holds the pattern, so every occurrence is replaced |
| Text.SplitJoinRoundTrip | src/main/java/com/mico/Migrator.java:115 | joining the pieces with the pattern gives the text back |
| Text.ReplaceBySelf | src/main/java/com/mico/Migrator.java:115 | replacing a pattern by itself changes nothing |
| Text.ReplaceAbsent | src/main/java/com/mico/Migrator.java:115 | a text without the pattern is returned unchanged |
| Text.ToLower | src/main/java/com/mico/Migrator.java:122 | `toLowerCase` maps ASCII letters and keeps the length |
| Text.ToUpper | src/main/java/com/mico/Migrator.java:113 | `toUpperCase` maps ASCII letters and keeps the length |
| Text.LowerOfUpper | src/main/java/com/mico/Migrator.java:113-122 | with ASCII case mapping, lower-casing after upper-casing equals lower-casing |
| Text.NatToString | src/main/java/com/mico/util/MigrationLogger.java:175-177 | decimal rendering is a non-empty string of digits |
| Text.ParseNatToString | src/main/java/com/mico/util/MigrationLogger.java:175-177 | parsing the decimal rendering gives the number back |
| Text.IntToStringInjective | src/main/java/com/mico/util/MigrationLogger.java:37-40 | different integers render differently |
| Text.IntToStringChars | src/main/java/com/mico/util/MigrationLogger.java:37-40 | a rendered integer holds only digits and a minus sign |
| Text.StrLeTotal | src/main/java/com/mico/util/CodeMigrator.java:368 | the `compareTo` order is total |
| Text.StrLeAntisymmetric | src/main/java/com/mico/util/CodeMigrator.java:368 | the `compareTo` order is antisymmetric |
| Text.StrLeTransitive | src/main/java/com/mico/util/CodeMigrator.java:368 | the `compareTo` order is transitive |
| Text.SortedPair | src/main/java/com/mico/util/CodeMigrator.java:368 | a sorted list is ordered pairwise, not only at neighbours |
| Text.InsertSortedCorrect | src/main/java/com/mico/util/CodeMigrator.java:368 | inserting into a sorted list keeps it sorted and adds exactly the element |
| Text.SortStringsCorrect | src/main/java/com/mico/util/CodeMigrator.java:368 | `imports.sort(String::compareTo)` returns a permutation of its input, sorted by code point |
| Matcher.ExtendGroupRef | src/main/java/com/mico/util/CodeMigrator.java:328 | the digits taken stay inside the text, never lower the reference, and once a further digit is taken the reference names an existing group |
| Matcher.QuoteReplacement | src/main/java/com/mico/util/CodeMigrator.java:264 | quoting leaves a text without `$` and `\` unchanged |
| Matcher.ExpandQuoted | src/main/java/com/mico/util/CodeMigrator.java:264 | a quoted text is expanded back to itself, whatever the groups are (the round trip) |
| Matcher.ExpandPlain | src/main/java/com/mico/util/CodeMigrator.java:341 | a replacement without `$` and `\` is copied literally |
| Matcher.ExpandKeepsDelimiters | src/main/java/com/mico/util/CodeMigrator.java:328 | `"$1" + value + "$2"` yields group 1, the value and group 2 |
| Matcher.QuoteConcat | src/main/java/com/mico/util/CodeMigrator.java:410 | quoting distributes over concatenation |
| Matcher.GroupOneThenQuoted | src/main/java/com/mico/util/CodeMigrator.java:410 | with one group, `"$1"` followed by a quoted text yields the group and then the text |
| RewriteRules.LineEnd | src/main/java/com/mico/util/CodeMigrator.java:255 | the first line terminator at or after a position, or the end of the text |
| RewriteRules.IndexOf | src/main/java/com/mico/util/CodeMigrator.java:279 | the first given character at or after a position, or the end of the text |
| RewriteRules.StatementEnd | src/main/java/com/mico/util/CodeMigrator.java:279 | where `^kw\s+[^;]+;` matches: the keyword at a line start, whitespace, at least one more character, up to the first `;` |
| RewriteRules.StatementBody | src/main/java/com/mico/util/CodeMigrator.java:279 | group 1 of the import pattern is the text before the `;`, after the greedy `\s+` |
| RewriteRules.PackageKeysLong | src/main/java/com/mico/util/CodeMigrator.java:29-47 | every package prefix of the table is longer than eleven characters, so none is empty |
| RewriteRules.AnnotationRules | src/main/java/com/mico/util/CodeMigrator.java:325-328 | one annotation rule per table entry, in table order |
| RewriteRules.RewriteStaticLine | src/main/java/com/mico/util/CodeMigrator.java:108-109 | a line changes only when it starts with `import static` and whitespace, and then it starts with the replacement |
| RewriteRules.MatchAt | src/main/java/com/mico/util/CodeMigrator.java:258 | a match lies inside the text and group 0 is the matched text |
| RewriteRules.StaticImportAt | src/main/java/com/mico/util/CodeMigrator.java:255-265 | the `^import.*$` match is the line starting there, and group 0 is that line |
| RewriteRules.ClassImportAt | src/main/java/com/mico/util/CodeMigrator.java:279-283 | the import match lies inside the text, with group 0 as its text |
| RewriteRules.AnnotationAt | src/main/java/com/mico/util/CodeMigrator.java:327 | the annotation match lies inside the text, with group 0 as its text |
| RewriteRules.MethodCallAt | src/main/java/com/mico/util/CodeMigrator.java:341 | the method-call match lies inside the text, with group 0 as its text |
| RewriteRules.ScanKeepsText | src/main/java/com/mico/util/CodeMigrator.java:258-267 | where every hit re-emits its own text, the loop copies the text unchanged |
| RewriteRules.NextPos | src/main/java/com/mico/util/CodeMigrator.java:258 | the search always moves forward, and never beyond the text |
| RewriteRules.ScanOk | src/main/java/com/mico/util/CodeMigrator.java:258-267 | the loop succeeds when every hit expands without error |
| RewriteRules.ScanQuotedTotal | src/main/java/com/mico/util/CodeMigrator.java:258-267 | with the replacement quoted, the loop never fails, whatever the text |
| RewriteRules.EmitQuotedTotal | src/main/java/com/mico/util/CodeMigrator.java:262-264 | every hit of every rule expands without error once file text is quoted |
| RewriteRules.AnnotationHit | src/main/java/com/mico/util/CodeMigrator.java:325-328 | an annotation matches if and only if whitespace precedes its key and whitespace or `(` follows, and both delimiters are kept |
| RewriteRules.StaticImportKeepsOtherLines | src/main/java/com/mico/util/CodeMigrator.java:255-268 | a text with no import line that mentions `org.junit.jupiter` goes through the static-import stage unchanged |
| RewriteRules.StaticImportScan | src/main/java/com/mico/util/CodeMigrator.java:255-268 | for every text, the quoted stage replaces each line-start import line by its rewrite when it mentions `org.junit.jupiter`, keeps it otherwise, and copies all other text |
| RewriteRules.StaticImportScanUnquoted | src/main/java/com/mico/util/CodeMigrator.java:255-268 | as written, the stage is the same transformation whenever no import line and no replacement holds `$` or `\` |
| RewriteRules.RewriteStaticPlain | src/main/java/com/mico/util/CodeMigrator.java:262 | rewriting a line without `$` and `\` by a replacement without them introduces none |
| RewriteRules.MethodCallHit | src/main/java/com/mico/util/CodeMigrator.java:116-124 | a method rule matches if and only if the name starts at a word boundary and, for `verifyZeroInteractions`, optional whitespace and `(` follow; the match becomes the replacement |
| RewriteRules.MethodCallAbsent | src/main/java/com/mico/util/CodeMigrator.java:337-345 | a text that does not contain the method name comes out of its rule unchanged |
| RewriteRules.NoImportLineNoChange | src/main/java/com/mico/util/CodeMigrator.java:277-317 | a text without `import` at a line start goes through the line-based import stages unchanged |
| RewriteRules.LookupFirst | src/main/java/com/mico/util/CodeMigrator.java:297-310 | the class lookup applies the first table entry that covers the name |
| RewriteRules.LookupNone | src/main/java/com/mico/util/CodeMigrator.java:297-310 | a name that no entry covers is kept |
| RewriteRules.CoversComparable | src/main/java/com/mico/util/CodeMigrator.java:301-306 | of two keys that cover one name, one covers the other |
| RewriteRules.CoverIsPrefix | src/main/java/com/mico/util/CodeMigrator.java:301-306 | a covering key starts the name, followed by `.` unless it is the whole name |
| RewriteRules.ClassNameSkipped | src/main/java/com/mico/util/CodeMigrator.java:289-292 | JUnit 4 names (`org.junit.` but not jupiter) and `jakarta.` names are not migrated |
| RewriteRules.ClassNameCovered | src/main/java/com/mico/util/CodeMigrator.java:297-310 | a name covered by exactly one entry becomes its value, plus the rest of the name for a prefix match, whatever the table's order |
| RewriteRules.ClassNameUncovered | src/main/java/com/mico/util/CodeMigrator.java:297-312 | a name no entry covers is kept |
| RewriteRules.ImportedClassHit | src/main/java/com/mico/util/CodeMigrator.java:279-312 | once quoted, an import statement is re-emitted as `import <trimmed, migrated name>;` over its own extent |
| RewriteRules.PackagesAbsent | src/main/java/com/mico/util/CodeMigrator.java:233-241 | a text containing none of the package prefixes goes through stage 1 unchanged |
| ImportCleanup.CollectImports | src/main/java/com/mico/util/CodeMigrator.java:353-358 | every collected statement starts with `import` |
| ImportCleanup.FindPackage | src/main/java/com/mico/util/CodeMigrator.java:406-409 | the first package declaration is found: a declaration where one is reported, and none before it; none at all when none is reported |
| ImportCleanup.Category | src/main/java/com/mico/util/CodeMigrator.java:378-392 | one of the six categories |
| ImportCleanup.Buckets | src/main/java/com/mico/util/CodeMigrator.java:371-392 | six buckets |
| ImportCleanup.BucketImports | src/main/java/com/mico/util/CodeMigrator.java:378-392 | the bucketing loop yields the six category buckets |
| ImportCleanup.AppendSeparated | src/main/java/com/mico/util/CodeMigrator.java:416-425 | `isEmpty` appends the two lists, each after a blank line only when it and the list before it are both non-empty |
| ImportCleanup.BuildImportLines | src/main/java/com/mico/util/CodeMigrator.java:395-401 | the import lines as `cleanupImports` assembles them equal the bucket layout |
| ImportCleanup.LayoutOfSix | src/main/java/com/mico/util/CodeMigrator.java:395-401 | the layout of six buckets, written out |
| ImportCleanup.LayoutNonBlank | src/main/java/com/mico/util/CodeMigrator.java:395-403 | dropping the blank lines of the layout gives the buckets' contents in order |
| ImportCleanup.LayoutCategories | src/main/java/com/mico/util/CodeMigrator.java:395-403 | every line of the layout has the category of one of its buckets |
| ImportCleanup.LayoutEnds | src/main/java/com/mico/util/CodeMigrator.java:395-403 | the layout neither starts nor ends with a blank line, and ends in the last non-empty bucket |
| ImportCleanup.LayoutBlankLines | src/main/java/com/mico/util/CodeMigrator.java:395-401 | a blank line stands only between two import lines, and their categories are consecutive |
| ImportCleanup.LayoutAdjacentLines | src/main/java/com/mico/util/CodeMigrator.java:395-401 | two adjacent import lines share a category or lie at least two categories apart, because an empty category suppresses the blank line |
| ImportCleanup.BucketMembers | src/main/java/com/mico/util/CodeMigrator.java:378-392 | a bucket holds only imports of its category, taken from the list |
| ImportCleanup.BucketsPartition | src/main/java/com/mico/util/CodeMigrator.java:378-392 | every import lands in exactly one bucket (multiset equality) |
| ImportCleanup.BucketSorted | src/main/java/com/mico/util/CodeMigrator.java:368-392 | a bucket of sorted imports is sorted |
| ImportCleanup.FlattenInOrder | src/main/java/com/mico/util/CodeMigrator.java:368-401 | concatenated sorted category buckets are ordered by category, then alphabetically |
| ImportCleanup.ImportBlockLines | src/main/java/com/mico/util/CodeMigrator.java:350-403 | the rebuilt block's non-blank lines are exactly the collected imports, in category-then-alphabetical order; blank lines separate only consecutive categories |
| ImportCleanup.SortedBuckets | src/main/java/com/mico/util/CodeMigrator.java:368-392 | the buckets of the sorted imports are well formed and sorted, and together hold the imports |
| ImportCleanup.BucketsWellFormed | src/main/java/com/mico/util/CodeMigrator.java:378-392 | no bucket holds a blank line, and each holds only imports of its own category |
| ImportCleanup.PlaceAfterPackage | src/main/java/com/mico/util/CodeMigrator.java:406-411 | quoted, the block goes right after the first package declaration, an empty line before it and a line break after it |
| ImportCleanup.PlaceAfterQuoted | src/main/java/com/mico/util/CodeMigrator.java:410 | `replaceFirst` with a quoted tail keeps the declaration and replaces the whitespace after it |
| ImportCleanup.CleanupQuotedSucceeds | src/main/java/com/mico/util/CodeMigrator.java:350-414 | with the replacement quoted, the stage never fails |
| CodeMigrator.StandardTablesWellFormed | src/main/java/com/mico/util/CodeMigrator.java:29-124 | the tables of CodeMigrator are well formed, and every package prefix is longer than eleven characters |
| CodeMigrator.SourceRulesSafe | src/main/java/com/mico/util/CodeMigrator.java:92-124 | the constant replacements of the annotation, static-import and method tables hold no `$` or `\` |
| CodeMigrator.AnnotationRulesSafe | src/main/java/com/mico/util/CodeMigrator.java:92-100 | the annotation rules' replacements hold no `$` or `\` |
| CodeMigrator.AnnotationValuesSafe | src/main/java/com/mico/util/CodeMigrator.java:92-100 | no annotation value holds `$` or `\` |
| CodeMigrator.MethodRulesSafe | src/main/java/com/mico/util/CodeMigrator.java:116-124 | no method replacement holds `$` or `\` |
| CodeMigrator.ApplyRulesQuotedSucceeds | src/main/java/com/mico/util/CodeMigrator.java:249-269 | quoted, applying a rule list never fails |
| CodeMigrator.TransformQuotedSucceeds | src/main/java/com/mico/util/CodeMigrator.java:206-228 | the corrected six-stage transform never fails, whatever the file holds |
| CodeMigrator.MigrateContentQuotedSucceeds | src/main/java/com/mico/util/CodeMigrator.java:206-228 | the corrected `migrateContent` never fails |
| CodeMigrator.ExpandErrAfterPlain | src/main/java/com/mico/util/CodeMigrator.java:264 | a bad reference after a plain prefix makes the whole replacement fail |
| CodeMigrator.DollarImportFailsWith | src/main/java/com/mico/util/CodeMigrator.java:206-228 | as written, the one-line file `import a$B;` makes the transform fail, for any tables of the same shape |
| CodeMigrator.DollarLineFails | src/main/java/com/mico/util/CodeMigrator.java:258-267 | the static-import stage fails on the line `import a$B;` |
| CodeMigrator.DollarLineMatch | src/main/java/com/mico/util/CodeMigrator.java:255-264 | the line pattern matches all of `import a$B;`, which does not mention jupiter, and hands the line itself over as the replacement |
| CodeMigrator.ShortLineMatch | src/main/java/com/mico/util/CodeMigrator.java:255-264 | a one-line import too short to hold `org.junit.jupiter` is handed over as it is |
| CodeMigrator.DollarLineExpand | src/main/java/com/mico/util/CodeMigrator.java:264 | `appendReplacement` reads `$B` in that line as a malformed group reference |
| CodeMigrator.DollarImportFails | src/main/java/com/mico/util/CodeMigrator.java:206-228 | `import a$B;` makes `migrateContent` as written fail, and the corrected transform succeed |
| CodeMigrator.WriteIsMigratedText | src/main/java/com/mico/util/CodeMigrator.java:181-194 | a file is written only with its migrated text, and only when that text differs from what was read |
| CodeMigrator.QuotedFileNeverEscapes | src/main/java/com/mico/util/CodeMigrator.java:181-201 | with the corrected transform, no exception escapes `migrateFile` |
| CodeMigrator.JavaFiles | src/main/java/com/mico/util/CodeMigrator.java:163-166 | exactly the regular files whose path ends in `.java` are selected |
| CodeMigrator.Outcomes | src/main/java/com/mico/util/CodeMigrator.java:166 | one outcome per file |
| CodeMigrator.RunAccountsForEveryFile | src/main/java/com/mico/util/CodeMigrator.java:181-201 | when no file throws, nothing escapes and processedFiles plus errors count every file |
| CodeMigrator.QuotedRunAccountsForEveryFile | src/main/java/com/mico/util/CodeMigrator.java:160-201 | with the corrected transform, processedFiles plus errors count every Java file |
| CodeMigrator.RunWritesComeFromFiles | src/main/java/com/mico/util/CodeMigrator.java:187-188 | every write of a run comes from a file whose outcome wrote that text |
| CodeMigrator.WritesOnlyChangedFiles | src/main/java/com/mico/util/CodeMigrator.java:183-188 | a run writes a file only with its migrated text, and only when it changed |
| CodeMigrator.RunStopsAfterEscape | src/main/java/com/mico/util/CodeMigrator.java:163-166 | once an exception escapes, the later files change nothing |
| CodeMigrator.RunOfDoneFiles | src/main/java/com/mico/util/CodeMigrator.java:163-166 | a loop that stopped at an escape, or ran to the end, gives the bookkeeping of all files |
| CodeMigrator.Migration.constructor | src/main/java/com/mico/util/CodeMigrator.java:151-155 | a new migrator has empty lists |
| CodeMigrator.Migration.MigrateFile | src/main/java/com/mico/util/CodeMigrator.java:181-201 | the lists grow by the file's outcome: processed and possibly written, an I/O error recorded, or an exception escaping with the lists unchanged |
| CodeMigrator.Migration.MigrateFileOutcome | src/main/java/com/mico/util/CodeMigrator.java:181-201 | one call of migrateFile is one step of the run over the file's outcome |
| CodeMigrator.Migration.Migrate | src/main/java/com/mico/util/CodeMigrator.java:160-176 | a failing walk adds one error; otherwise the lists are those of the files in walk order, up to the first exception |
| CodeMigrator.Migration.MigrateFiles | src/main/java/com/mico/util/CodeMigrator.java:163-166 | the file loop: the lists grow by the run of the files handled, and it stops only at an exception |
| CodeMigrator.Migration.MigrateNext | src/main/java/com/mico/util/CodeMigrator.java:166 | one more file adds its outcome's entries |
| CodeMigrator.Migration.GetStats | src/main/java/com/mico/util/CodeMigrator.java:430-434 | the two counts are the lengths of the lists |
| JavaImportScanner.NameRun | src/main/java/com/mico/util/JavaImportScanner.java:19 | the run of `[\w.]` characters at a position, and it is maximal |
| JavaImportScanner.NameAt | src/main/java/com/mico/util/JavaImportScanner.java:19 | group 1 of the pattern is a non-empty `[\w.]+` run directly followed by `;` |
| JavaImportScanner.AfterStatic | src/main/java/com/mico/util/JavaImportScanner.java:19 | the optional `static\s+` is taken only when it is there |
| JavaImportScanner.ImportAtStart | src/main/java/com/mico/util/JavaImportScanner.java:19 | a match starts with `import` and whitespace, and yields a name |
| JavaImportScanner.ImportOfLine | src/main/java/com/mico/util/JavaImportScanner.java:76-79 | `find` on the trimmed line yields a name when it matches |
| JavaImportScanner.PlainImportLine | src/main/java/com/mico/util/JavaImportScanner.java:76-79 | `import a.b.C;` yields `a.b.C` |
| JavaImportScanner.StaticImportLine | src/main/java/com/mico/util/JavaImportScanner.java:76-79 | `import static a.b.C;` yields `a.b.C` |
| JavaImportScanner.WildcardImportLine | src/main/java/com/mico/util/JavaImportScanner.java:76-79 | a wildcard import yields nothing, because `*` is not in `[\w.]` |
| JavaImportScanner.PlainImport | src/main/java/com/mico/util/JavaImportScanner.java:19 | for every `[\w.]+` name, `import <name>;` yields the name |
| JavaImportScanner.StaticImport | src/main/java/com/mico/util/JavaImportScanner.java:19 | for every name, `import static <name>;` yields the name |
| JavaImportScanner.WildcardImport | src/main/java/com/mico/util/JavaImportScanner.java:19 | for every name, `import <name>.*;` yields nothing |
| JavaImportScanner.IsExcluded | src/main/java/com/mico/util/JavaImportScanner.java:95-102 | excluded if and only if some prefix starts the name; never with no prefixes |
| JavaImportScanner.AddAllFacts | src/main/java/com/mico/util/JavaImportScanner.java:81 | the insertion-ordered set only grows, holds exactly the old and new names, and keeps no duplicates |
| JavaImportScanner.AddAllConcat | src/main/java/com/mico/util/JavaImportScanner.java:81 | adding two lists is adding one after the other |
| JavaImportScanner.FirstSeenOrder | src/main/java/com/mico/util/JavaImportScanner.java:41 | each name is placed where it is first seen, and a name seen again adds nothing |
| JavaImportScanner.Matches | src/main/java/com/mico/util/JavaImportScanner.java:75-79 | one match result per line |
| JavaImportScanner.KeptMembers | src/main/java/com/mico/util/JavaImportScanner.java:78-82 | a name is kept if and only if some line yields it and it is not excluded |
| JavaImportScanner.FileNamesMembers | src/main/java/com/mico/util/JavaImportScanner.java:73-86 | the names a file contributes are exactly its matched, non-excluded names |
| JavaImportScanner.FoundConcat | src/main/java/com/mico/util/JavaImportScanner.java:45-55 | the names of two stretches of the walk are those of each, in order |
| JavaImportScanner.UnreadableFileSkipped | src/main/java/com/mico/util/JavaImportScanner.java:50-54 | a file whose reading fails contributes nothing and does not stop the scan |
| JavaImportScanner.UnreadableLast | src/main/java/com/mico/util/JavaImportScanner.java:50-54 | an unreadable file at the end of the walk adds no name |
| JavaImportScanner.JavaFileCount | src/main/java/com/mico/util/JavaImportScanner.java:46-49 | at most one count per entry |
| JavaImportScanner.ScanResultMembers | src/main/java/com/mico/util/JavaImportScanner.java:40-62 | the result has no duplicates and holds exactly the names found; each is a `[\w.]` name outside the exclusions |
| JavaImportScanner.FoundExcludes | src/main/java/com/mico/util/JavaImportScanner.java:80 | no name found starts with an exclusion prefix |
| JavaImportScanner.ExtractImportsFromFile | src/main/java/com/mico/util/JavaImportScanner.java:73-86 | the per-line loop adds the file's names to the set in order |
| JavaImportScanner.ScanImports | src/main/java/com/mico/util/JavaImportScanner.java:40-62 | the walk loop returns the first-seen-order set and counts every Java file; a failing walk gives an empty list |
| JavaImportScanner.ScanAllImports | src/main/java/com/mico/util/JavaImportScanner.java:28-30 | without exclusions, every found name is returned |
| MigrationLogger.Sanitize | src/main/java/com/mico/util/MigrationLogger.java:140-143 | every character outside `[a-zA-Z0-9._-]` becomes `_`, and the length is kept |
| MigrationLogger.SanitizeIsSafe | src/main/java/com/mico/util/MigrationLogger.java:140-143 | a sanitized name holds no path separator, and sanitizing twice equals once |
| MigrationLogger.PhaseLogName | src/main/java/com/mico/util/MigrationLogger.java:35-42 | `<name>_phase_<order>_<id>.log`: starts with the sanitized name and `_phase_`, ends in `.log` |
| MigrationLogger.SummaryLogName | src/main/java/com/mico/util/MigrationLogger.java:47-50 | `<name>_summary.log`: starts with the sanitized name, ends in `_summary.log` |
| MigrationLogger.ResolveInjective | src/main/java/com/mico/util/MigrationLogger.java:41-56 | two files of one directory are the same only when their names are |
| MigrationLogger.PhaseLogNamesDistinct | src/main/java/com/mico/util/MigrationLogger.java:35-42 | within a cartridge, phases with a different order or id get different log files |
| MigrationLogger.PhaseTailInjective | src/main/java/com/mico/util/MigrationLogger.java:37-40 | the name's tail determines the order and the id |
| MigrationLogger.LogKindsDistinct | src/main/java/com/mico/util/MigrationLogger.java:35-57 | a phase log is never the summary or master log, and no summary log is the master log |
| MigrationLogger.JavaDiv | src/main/java/com/mico/util/MigrationLogger.java:170-171 | Java's `/` on `long`, truncating toward zero |
| MigrationLogger.JavaRem | src/main/java/com/mico/util/MigrationLogger.java:172 | Java's `%` on `long`: the remainder takes the dividend's sign |
| MigrationLogger.DurationParts | src/main/java/com/mico/util/MigrationLogger.java:170-172 | minutes times 60 plus seconds are the whole seconds |
| MigrationLogger.FormatDuration | src/main/java/com/mico/util/MigrationLogger.java:169-179 | `M min S sec` with at least one whole minute, `S sec` otherwise |
| MigrationLogger.ShortDuration | src/main/java/com/mico/util/MigrationLogger.java:169-179 | under a minute, only whole seconds show |
| MigrationLogger.LongDuration | src/main/java/com/mico/util/MigrationLogger.java:169-179 | from a minute on, minutes and the seconds left over show |
| MigrationLogger.NegativeDuration | src/main/java/com/mico/util/MigrationLogger.java:169-179 | a negative duration shows no minutes, and its seconds carry the sign |
| MigrationLogger.Rule | src/main/java/com/mico/util/MigrationLogger.java:81 | 80 `=` characters |
| MigrationLogger.Header | src/main/java/com/mico/util/MigrationLogger.java:79-91 | the header opens with the `Migration Log` banner |
| MigrationLogger.Appended | src/main/java/com/mico/util/MigrationLogger.java:102-104 | an append grows one file by the text and leaves every other file alone |
| MigrationLogger.Overwritten | src/main/java/com/mico/util/MigrationLogger.java:80 | a truncating write makes one file the text and leaves every other file alone |
| MigrationLogger.PerformConcat | src/main/java/com/mico/util/MigrationLogger.java:96-125 | writes done in two stretches are the writes done in one |
| MigrationLogger.PerformElsewhere | src/main/java/com/mico/util/MigrationLogger.java:96-125 | writes on other files leave a file as it was |
| MigrationLogger.HeaderLost | src/main/java/com/mico/util/MigrationLogger.java:67-73 | as written, a phase log holds only the process output, and never the header followed by it |
| MigrationLogger.HeaderKept | src/main/java/com/mico/util/MigrationLogger.java:70-71 | opened for appending, the log is the header followed by the output |
| MigrationLogger.Logger.constructor | src/main/java/com/mico/util/MigrationLogger.java:20-30 | the session directory is `logs/session_<id>`, and nothing has been written |
| MigrationLogger.Logger.Write | src/main/java/com/mico/util/MigrationLogger.java:96-125 | one more write in the history, and the files follow it |
| MigrationLogger.Logger.LogToMaster | src/main/java/com/mico/util/MigrationLogger.java:96-108 | one stamped line at the end of the master log; on an I/O error nothing changes; every log only grows |
| MigrationLogger.Logger.LogToCartridgeSummary | src/main/java/com/mico/util/MigrationLogger.java:113-125 | the same for the cartridge's summary log |
| MigrationLogger.Logger.WriteLogHeader | src/main/java/com/mico/util/MigrationLogger.java:79-91 | the log is replaced by the header; an I/O error is reported to the caller and changes nothing |
| MigrationLogger.Logger.ExecuteWithLogging | src/main/java/com/mico/util/MigrationLogger.java:62-74 | as written: an open failure writes nothing; otherwise the log is emptied, stays empty if the start fails, and otherwise holds exactly the output; other files are untouched |
| MigrationLogger.Logger.ExecuteWithLoggingAppending | src/main/java/com/mico/util/MigrationLogger.java:70-73 | corrected: the output goes after what the log held, and no log shrinks |
| MigrationLogger.Logger.ReadLog | src/main/java/com/mico/util/MigrationLogger.java:130-135 | the file's content, or `""` when it does not exist |
| MigrationLogger.Logger.CreateSummaryReport | src/main/java/com/mico/util/MigrationLogger.java:148-167 | SUMMARY.txt is replaced by the report; an I/O error changes nothing |
| PhaseRepository.Insert | src/main/java/com/intershop/mico/repo/PhaseRepository.java:34-36 | inserting adds exactly one phase |
| PhaseRepository.SortByOrder | src/main/java/com/intershop/mico/repo/PhaseRepository.java:34-36 | the sort is a permutation |
| PhaseRepository.InsertAtLeast | src/main/java/com/intershop/mico/repo/PhaseRepository.java:34-36 | inserting keeps a common lower bound of the orders |
| PhaseRepository.SortedCons | src/main/java/com/intershop/mico/repo/PhaseRepository.java:34-36 | a phase no later than a sorted list goes in front of it |
| PhaseRepository.InsertSorted | src/main/java/com/intershop/mico/repo/PhaseRepository.java:34-36 | inserting into a sorted list keeps it sorted |
| PhaseRepository.SortByOrderSorted | src/main/java/com/intershop/mico/repo/PhaseRepository.java:34-36 | the phases come out in non-decreasing order |
| PhaseRepository.WithOrder | src/main/java/com/intershop/mico/repo/PhaseRepository.java:34-36 | the phases of one order, all of that order |
| PhaseRepository.InsertWithOrder | src/main/java/com/intershop/mico/repo/PhaseRepository.java:34-36 | an inserted phase goes before the phases of its own order |
| PhaseRepository.SortByOrderStable | src/main/java/com/intershop/mico/repo/PhaseRepository.java:34-36 | the sort is stable: phases of equal order keep their load order |
| PhaseRepository.SortedFirstIsLeast | src/main/java/com/intershop/mico/repo/PhaseRepository.java:34-36 | the first phase run has the least order |
| PhaseRepository.GetPhases | src/main/java/com/intershop/mico/repo/PhaseRepository.java:27-40 | fails if and only if the file cannot be read, with the fixed message; otherwise the sorted permutation of the loaded phases |
| PhaseRepository.GetPhasesOrdered | src/main/java/com/intershop/mico/repo/PhaseRepository.java:27-40 | the loaded phases come back sorted, as a permutation, with equal orders in load order |
| PhaseRepository.GetPhaseInstructions | src/main/java/com/intershop/mico/repo/PhaseRepository.java:42-49 | the file's content if and only if it exists; otherwise the message naming the phase |
| BaseAgent.ListToString | src/main/java/com/mico/agent/agents/CopilotAgent.java:61 | `List.toString`: bracketed, `[]` when empty, `[x]` for one element |
| BaseAgent.OptionalModelArgs | src/main/java/com/mico/agent/agents/ClaudeCodeAgent.java:53-56 | `--model <m>` if and only if a non-empty model is set |
| BaseAgent.FailureMessage | src/main/java/com/mico/agent/BaseAgent.java:67-87 | starts with the exit-code line; the STDERR and STDOUT sections appear only for non-empty trimmed text; a stream error leaves the bare line |
| BaseAgent.AddSection | src/main/java/com/mico/agent/BaseAgent.java:72-74 | a section is added only for non-empty text |
| BaseAgent.PostExecutionCases | src/main/java/com/mico/agent/BaseAgent.java:48-65 | nothing is sent without a prompt; the prompt and a newline are sent if and only if the process is alive and the write succeeds; otherwise the failure report or the write error |
| BaseAgent.LastModel | src/main/java/com/mico/agent/BaseAgent.java:29-32 | the model stored by the last setModel call, or null before any |
| BaseAgent.LastPrompt | src/main/java/com/mico/agent/BaseAgent.java:42-45 | the text stored by the last setPrompt call, and null if and only if none was made |
| BaseAgent.Agent.constructor | src/main/java/com/mico/agent/BaseAgent.java:13-21 | an empty command and no model, prompt or execution command |
| BaseAgent.Agent.SetModel | src/main/java/com/mico/agent/BaseAgent.java:29-32 | stores the model and changes nothing else |
| BaseAgent.Agent.SetDirectory | src/main/java/com/mico/agent/BaseAgent.java:35-39 | appends `--add-dir <dir>` and changes nothing else |
| BaseAgent.Agent.SetPrompt | src/main/java/com/mico/agent/BaseAgent.java:42-45 | stores the prompt for postExecution, not on the command line |
| BaseAgent.Agent.AddArgs | src/main/java/com/mico/agent/agents/CopilotAgent.java:35-49 | the `command.add` calls of a subclass: the arguments are appended and nothing else changes |
| BaseAgent.Agent.RecordExecution | src/main/java/com/mico/agent/agents/ClaudeCodeAgent.java:59 | the rendered command is recorded |
| BaseAgent.Agent.PostExecution | src/main/java/com/mico/agent/BaseAgent.java:48-65 | the outcome for the stored prompt and the process |
| BaseAgent.Agent.ReportProcessFailure | src/main/java/com/mico/agent/BaseAgent.java:67-87 | always ends in an IOException carrying the failure message |
| CopilotAgent.ModelAfter | src/main/java/com/mico/agent/agents/CopilotAgent.java:53-67 | the last model set, or `gpt-4.1` when none was set |
| CopilotAgent.CommandAfter | src/main/java/com/mico/agent/agents/CopilotAgent.java:15-63 | the argument list starts with `copilot` |
| CopilotAgent.CommandGrows | src/main/java/com/mico/agent/agents/CopilotAgent.java:15-63 | the argument list only grows: earlier arguments, prompts included, are never removed |
| CopilotAgent.FactoryPhaseCommand | src/main/java/com/mico/Main.java:60-69 | the exact command a factory-made agent runs for one phase |
| CopilotAgent.CopilotAgent.constructor | src/main/java/com/mico/agent/agents/CopilotAgent.java:15-18 | the command is `[copilot]`, with no model |
| CopilotAgent.CopilotAgent.SetModel | src/main/java/com/mico/agent/agents/CopilotAgent.java:26-29 | stores the model; the command is unchanged |
| CopilotAgent.CopilotAgent.SetDirectory | src/main/java/com/mico/agent/agents/CopilotAgent.java:32-36 | appends `--add-dir <dir>` |
| CopilotAgent.CopilotAgent.AllowAllTools | src/main/java/com/mico/agent/agents/CopilotAgent.java:40-43 | appends `--allow-all-tools` |
| CopilotAgent.CopilotAgent.SetPrompt | src/main/java/com/mico/agent/agents/CopilotAgent.java:46-50 | appends `--prompt <text>` |
| CopilotAgent.CopilotAgent.Execute | src/main/java/com/mico/agent/agents/CopilotAgent.java:53-63 | defaults a null model, appends `--model <m>` on every call, and returns a console-inheriting process builder over the command |
| CopilotAgent.CopilotAgent.SetDefaultModel | src/main/java/com/mico/agent/agents/CopilotAgent.java:65-67 | the model becomes `gpt-4.1`, and nothing else changes |
| ClaudeCodeAgent.CommandAfter | src/main/java/com/mico/agent/agents/ClaudeCodeAgent.java:15-61 | the argument list starts with `claude` |
| ClaudeCodeAgent.CommandGrows | src/main/java/com/mico/agent/agents/ClaudeCodeAgent.java:15-61 | the argument list only grows |
| ClaudeCodeAgent.FactoryPhaseCommand | src/main/java/com/mico/Main.java:60-69 | the exact command a factory-made agent runs for one phase |
| ClaudeCodeAgent.ClaudeCodeAgent.constructor | src/main/java/com/mico/agent/agents/ClaudeCodeAgent.java:15-18 | the command is `[claude]` |
| ClaudeCodeAgent.ClaudeCodeAgent.SetModel | src/main/java/com/mico/agent/agents/ClaudeCodeAgent.java:26-29 | stores the model; the command is unchanged |
| ClaudeCodeAgent.ClaudeCodeAgent.SetDirectory | src/main/java/com/mico/agent/agents/ClaudeCodeAgent.java:32-36 | appends `--add-dir <dir>` |
| ClaudeCodeAgent.ClaudeCodeAgent.AllowAllTools | src/main/java/com/mico/agent/agents/ClaudeCodeAgent.java:39-42 | appends `--dangerously-skip-permissions` |
| ClaudeCodeAgent.ClaudeCodeAgent.SetPrompt | src/main/java/com/mico/agent/agents/ClaudeCodeAgent.java:45-49 | appends `-p <text>` |
| ClaudeCodeAgent.ClaudeCodeAgent.Execute | src/main/java/com/mico/agent/agents/ClaudeCodeAgent.java:52-61 | appends `--model <m>` only for a non-empty model, and returns a console-inheriting process builder |
| IntershopClaudeAgent.ExecutableFor | src/main/java/com/intershop/mico/agent/agents/ClaudeCodeAgent.java:12-16 | `claude.cmd` if and only if the lower-cased OS name contains `win`, `claude` otherwise |
| IntershopClaudeAgent.WindowsRunsCmd | src/main/java/com/intershop/mico/agent/agents/ClaudeCodeAgent.java:12-13 | `Windows 11` selects `claude.cmd` |
| IntershopClaudeAgent.CommandAfter | src/main/java/com/intershop/mico/agent/agents/ClaudeCodeAgent.java:10-36 | the argument list starts with the executable |
| IntershopClaudeAgent.WithoutPrompts | src/main/java/com/intershop/mico/agent/agents/ClaudeCodeAgent.java:10-36 | the calls without any setPrompt |
| IntershopClaudeAgent.ModelIgnoresPrompts | src/main/java/com/intershop/mico/agent/agents/ClaudeCodeAgent.java:26-29 | prompts do not affect the model |
| IntershopClaudeAgent.PromptNeverOnCommandLine | src/main/java/com/intershop/mico/agent/agents/ClaudeCodeAgent.java:26-34 | the command is the same with every setPrompt removed: the prompt never reaches the command line |
| IntershopClaudeAgent.FactoryPhaseCommand | src/main/java/com/mico/Main.java:60-69 | the exact command for one phase |
| IntershopClaudeAgent.ClaudeCodeAgent.constructor | src/main/java/com/intershop/mico/agent/agents/ClaudeCodeAgent.java:10-17 | the command is the executable chosen by the OS name |
| IntershopClaudeAgent.ClaudeCodeAgent.SetModel | src/main/java/com/mico/agent/BaseAgent.java:29-32 | the inherited setModel: stores the model |
| IntershopClaudeAgent.ClaudeCodeAgent.SetDirectory | src/main/java/com/mico/agent/BaseAgent.java:35-39 | the inherited setDirectory: appends `--add-dir <dir>` |
| IntershopClaudeAgent.ClaudeCodeAgent.AllowAllTools | src/main/java/com/intershop/mico/agent/agents/ClaudeCodeAgent.java:20-23 | appends `--dangerously-skip-permissions` |
| IntershopClaudeAgent.ClaudeCodeAgent.SetPrompt | src/main/java/com/mico/agent/BaseAgent.java:42-45 | the inherited setPrompt: the text is stored and the command is unchanged |
| IntershopClaudeAgent.ClaudeCodeAgent.Execute | src/main/java/com/intershop/mico/agent/agents/ClaudeCodeAgent.java:26-36 | `--model` only for a non-empty model; the process does not inherit the console |
| IntershopClaudeAgent.ClaudeCodeAgent.PostExecution | src/main/java/com/mico/agent/BaseAgent.java:48-65 | the last prompt set is what goes to standard input |
| CommandLine.Width | src/main/java/com/mico/Main.java:21-42 | each turn of the loop consumes one or two arguments |
| CommandLine.Tokens | src/main/java/com/mico/Main.java:21-42 | no more tokens than arguments |
| CommandLine.TokensCover | src/main/java/com/mico/Main.java:21-42 | the tokens consume exactly the argument list, in order |
| CommandLine.ParseArgs | src/main/java/com/mico/Main.java:16-42 | the argument loop yields the flags of the token fold |
| CommandLine.ParseStep | src/main/java/com/mico/Main.java:21-42 | one turn of the loop applies the token at the index and moves past the arguments it consumed |
| CommandLine.ApplyConcat | src/main/java/com/mico/Main.java:21-42 | folding two token lists is folding one after the other |
| CommandLine.PathUntouched | src/main/java/com/mico/Main.java:22-24 | without `-p`, the path stays as it was |
| CommandLine.ModelUntouched | src/main/java/com/mico/Main.java:38-41 | without `-m`, the model stays as it was |
| CommandLine.SingleIsSticky | src/main/java/com/mico/Main.java:25-26 | single-cartridge mode is on if and only if it was already on or some `-s` appears |
| CommandLine.LastPathWins | src/main/java/com/mico/Main.java:22-24 | the last `-p` decides the path |
| CommandLine.LastModelWins | src/main/java/com/mico/Main.java:38-41 | the last `-m` decides the model |
| CommandLine.UnknownAgentIgnored | src/main/java/com/mico/Main.java:27-37 | an unknown agent name is consumed and changes nothing |
| CommandLine.TokensAppend | src/main/java/com/mico/Main.java:21-42 | a complete prefix tokenises on its own |
| CommandLine.LaterPathOverrides | src/main/java/com/mico/Main.java:22-24 | a later `-p v` overrides an earlier path |
| CommandLine.TrailingFlagIgnored | src/main/java/com/mico/Main.java:21-40 | a value flag at the very end is ignored |
| CommandLine.UnknownArgumentSkipped | src/main/java/com/mico/Main.java:21-42 | an unknown argument is skipped |
| CommandLine.ValueMayLookLikeAFlag | src/main/java/com/mico/Main.java:38-40 | `-m -p x` takes `-p` as the model |
| CommandLine.Validate | src/main/java/com/mico/Main.java:45-52 | the run goes ahead if and only if a path and an agent are given; otherwise the usage lines and exit status 1 |
| CommandLine.MinimalCommandLine | src/main/java/com/mico/Main.java:21-52 | `-p <path> -a copilot` launches the Copilot run with no model |
| Migrator.Cartridge.constructor | src/main/java/com/intershop/mico/models/Cartridge.java:1-39 | a cartridge with its name, path and current phase |
| Migrator.Cartridge.SetCurrentPhase | src/main/java/com/mico/Migrator.java:85 | the current phase becomes the id |
| Migrator.LinesAppend | src/main/java/com/mico/Migrator.java:135-137 | appending one import appends it and a line break |
| Migrator.LinesSplitBack | src/main/java/com/mico/Migrator.java:134-139 | splitting the list at line breaks gives the imports back |
| Migrator.DependencyListLines | src/main/java/com/mico/Migrator.java:130-140 | splitting the dependency list at line breaks gives back exactly the scanned imports outside `com.intershop.`, in first-seen order, one per line |
| Migrator.GenerateDependenciesList | src/main/java/com/mico/Migrator.java:130-140 | the scanned imports of the cartridge, joined one per line: the dependency text |
| Migrator.JoinLines | src/main/java/com/mico/Migrator.java:134-138 | the append loop gives each import followed by a line break, in order |
| Migrator.InputValue | src/main/java/com/mico/Migrator.java:121-128 | the path, the name or the dependency list by lower-cased key; `""` for any other key |
| Migrator.InputKeysIgnoreCase | src/main/java/com/mico/Migrator.java:113-122 | an upper-cased key selects the same value |
| Migrator.GetInputValue | src/main/java/com/mico/Migrator.java:121-128 | the value for the cartridge |
| Migrator.Placeholder | src/main/java/com/mico/Migrator.java:113 | the key in square brackets |
| Migrator.PromptStep | src/main/java/com/mico/Migrator.java:112-116 | each input replaces every occurrence of its placeholder and keeps the text between them |
| Migrator.UnknownInputErased | src/main/java/com/mico/Migrator.java:114-127 | an unknown input erases its placeholder |
| Migrator.TemplateWithoutPlaceholder | src/main/java/com/mico/Migrator.java:112-116 | a template without the placeholder comes back unchanged |
| Migrator.PreparePrompt | src/main/java/com/mico/Migrator.java:109-119 | the loop yields the prompt: one replacement per input, in table order |
| Migrator.ValidCommand | src/main/java/com/mico/Migrator.java:23 | the shared agent's argument list is the one its calls build |
| Migrator.SetPromptOn | src/main/java/com/mico/Migrator.java:66 | the agent records one more setPrompt |
| Migrator.ExecuteOn | src/main/java/com/mico/Migrator.java:68 | the agent records execute, and the process runs its argument list |
| Migrator.Then | src/main/java/com/mico/Migrator.java:88-94 | once an exception is thrown nothing after it runs |
| Migrator.Framed | src/main/java/com/mico/Migrator.java:38-104 | opening writes, a body, and closing writes only when the body did not throw |
| Migrator.ProcessTrace | src/main/java/com/mico/Migrator.java:69-82 | no agent call, and no exception if and only if the process exited |
| Migrator.PhaseBodyParts | src/main/java/com/mico/Migrator.java:52-94 | the try block: a header failure caught, or the header then the work |
| Migrator.ChainSnoc | src/main/java/com/mico/Migrator.java:42-100 | one more loop turn |
| Migrator.ChainStop | src/main/java/com/mico/Migrator.java:88-94 | once a step throws, no later step runs |
| Migrator.ChainAborted | src/main/java/com/mico/Migrator.java:88-94 | an exception ends the loop for good |
| Migrator.LastSetStop | src/main/java/com/mico/Migrator.java:85 | once a step throws, the current phase keeps the value it had before that step |
| Migrator.Ran | src/main/java/com/mico/Migrator.java:42-100 | no more steps run than there are |
| Migrator.RanAt | src/main/java/com/mico/Migrator.java:42-100 | steps run up to and including the first that throws |
| Migrator.ChainComplete | src/main/java/com/mico/Migrator.java:42-100 | when no step throws, every step's writes are there |
| Migrator.ChainNoneAll | src/main/java/com/mico/Migrator.java:42-100 | a loop that does not throw had no step throw |
| Migrator.RanAll | src/main/java/com/mico/Migrator.java:42-100 | a loop that does not throw runs every step |
| Migrator.CartridgeEnds | src/main/java/com/mico/Migrator.java:42-100 | one final current phase per cartridge; `Migrator.LoopCompleted` states its value |
| Migrator.SessionEnds | src/main/java/com/mico/Migrator.java:33-107 | one final current phase per cartridge; `Migrator.CompletedSessionEndsAtLastPhase` states its value |
| Migrator.PairedConcat | src/main/java/com/mico/Migrator.java:66-68 | paired calls stay paired when concatenated |
| Migrator.PhasePaired | src/main/java/com/mico/Migrator.java:47-95 | one phase sets a prompt and starts the agent once, or makes no call |
| Migrator.ChainPaired | src/main/java/com/mico/Migrator.java:42-100 | a loop of paired steps is paired |
| Migrator.CartridgePaired | src/main/java/com/mico/Migrator.java:42-100 | a cartridge's calls are paired |
| Migrator.SessionCallsPaired | src/main/java/com/mico/Migrator.java:33-107 | the shared agent is started only right after a prompt was set on it: setPrompt, execute, setPrompt, execute, and so on |
| Migrator.CartridgeCompleted | src/main/java/com/mico/Migrator.java:47-95 | a cartridge whose phases all complete ends at the last phase's id |
| Migrator.LoopCompleted | src/main/java/com/mico/Migrator.java:42-100 | a cartridge loop that does not throw leaves every cartridge at the last phase's id |
| Migrator.CompletedSessionEndsAtLastPhase | src/main/java/com/mico/Migrator.java:33-107 | a session that ends without an exception loaded its phases and took every cartridge through all of them: each current phase is the last phase's id, and untouched when there are no phases |
| Migrator.ExitLinesElsewhere | src/main/java/com/mico/Migrator.java:72-82 | the exit lines never touch the phase log |
| Migrator.TruncatedThenAppended | src/main/java/com/mico/util/MigrationLogger.java:67-71 | a file emptied, then appended to, then left alone holds what was appended |
| Migrator.AgentPhaseOps | src/main/java/com/mico/Migrator.java:47-82 | an agent phase whose process exits empties its log right after the header, then appends the output, then writes the exit lines |
| Migrator.AgentPhaseLogIsOutput | src/main/java/com/mico/Migrator.java:53-69 | as written, an agent phase's log ends up holding only the process output: the header is lost |
| Migrator.Migrator.constructor | src/main/java/com/mico/Migrator.java:26-31 | a new logger on the given files, with nothing written |
| Migrator.Migrator.Master | src/main/java/com/mico/Migrator.java:38 | one master-log line is appended to the writes |
| Migrator.Migrator.Summary | src/main/java/com/mico/Migrator.java:45 | one summary-log line is appended to the writes |
| Migrator.Migrator.Announce | src/main/java/com/mico/Migrator.java:49-50 | a master line, then a summary line |
| Migrator.Migrator.LogCaught | src/main/java/com/mico/Migrator.java:88-94 | two error lines, then the exception is rethrown |
| Migrator.Migrator.LogNativeFailed | src/main/java/com/mico/Migrator.java:177-183 | two failure lines, then the exception is rethrown |
| Migrator.Migrator.RunNativePhase | src/main/java/com/mico/Migrator.java:145-184 | the writes and outcome of NativeTrace: the code migrator as written, then the statistics and two success lines, or two failure lines and a rethrow |
| Migrator.Migrator.LogNativeDone | src/main/java/com/mico/Migrator.java:162-175 | the statistics in the phase log, then the two success lines |
| Migrator.Migrator.LogExit | src/main/java/com/mico/Migrator.java:72-82 | the two lines for the exit code |
| Migrator.Migrator.LogProcess | src/main/java/com/mico/Migrator.java:69-82 | the writes and outcome of ProcessTrace |
| Migrator.Migrator.RunAgentPhase | src/main/java/com/mico/Migrator.java:62-83 | the writes, agent calls and outcome of AgentTrace |
| Migrator.Migrator.PromptAndRun | src/main/java/com/mico/Migrator.java:64-82 | the writes, agent calls and outcome of PromptTrace |
| Migrator.Migrator.StartAgent | src/main/java/com/mico/Migrator.java:66-68 | setPrompt then execute are the two calls added to the shared agent, and the logs are untouched |
| Migrator.Migrator.NativeAside | src/main/java/com/mico/Migrator.java:57-59 | the native path writes what NativeTrace gives and leaves the agent untouched |
| Migrator.Migrator.RunWork | src/main/java/com/mico/Migrator.java:57-83 | the native path for `code_migration`, the agent path otherwise |
| Migrator.Migrator.OpenPhaseLog | src/main/java/com/mico/Migrator.java:53-54 | the log path and the header, or the header's I/O error |
| Migrator.Migrator.RunPhaseBody | src/main/java/com/mico/Migrator.java:52-94 | the try block's writes, agent calls and outcome, with the current phase set only when it did not throw |
| Migrator.Migrator.WorkAndMark | src/main/java/com/mico/Migrator.java:56-85 | the work of a phase, then setCurrentPhase when it did not throw |
| Migrator.Migrator.MarkDone | src/main/java/com/mico/Migrator.java:85 | the current phase is set; the logs and the agent are untouched |
| Migrator.Migrator.RunPhase | src/main/java/com/mico/Migrator.java:48-94 | one turn of the phase loop is PhaseTrace |
| Migrator.Migrator.RunPhases | src/main/java/com/mico/Migrator.java:47-95 | the phase loop is PhasesTrace, and the cartridge ends at EndPhase |
| Migrator.Migrator.RunCartridge | src/main/java/com/mico/Migrator.java:42-100 | one turn of the cartridge loop is CartridgeTrace |
| Migrator.Migrator.RunCartridgeAt | src/main/java/com/mico/Migrator.java:42-100 | cartridge `i` runs and no other cartridge changes |
| Migrator.Migrator.RunOne | src/main/java/com/mico/Migrator.java:42-100 | after the first `i` cartridges ran without an exception, running cartridge `i` extends the writes and calls by its trace, and it ends at its final phase |
| Migrator.Migrator.CartridgeLoop | src/main/java/com/mico/Migrator.java:42-100 | the loop's invariants: the writes and calls are the chain of the cartridges that ran, the ones that ran are at their end phase, and the rest are untouched |
| Migrator.Migrator.RunCartridges | src/main/java/com/mico/Migrator.java:42-100 | the cartridge loop is the chain of CartridgeSteps, and the cartridges end at CartridgeEnds |
| Migrator.Migrator.OpenSession | src/main/java/com/mico/Migrator.java:38-40 | the three opening lines of the master log |
| Migrator.Migrator.CloseSession | src/main/java/com/mico/Migrator.java:102-104 | the closing line and the summary report |
| Migrator.Migrator.WriteClosing | src/main/java/com/mico/Migrator.java:103-104 | the closing master line, then the summary report |
| Migrator.Migrator.RunSession | src/main/java/com/mico/Migrator.java:38-104 | the session once its phases are loaded is SessionRun |
| Migrator.Migrator.Migrate | src/main/java/com/mico/Migrator.java:33-107 | `migrate`, for distinct cartridges: the logger's writes, the calls on the agent and the exception are those of SessionTrace, and every cartridge's current phase is SessionEnds |

## Left out

- Console output (`System.out` / `System.err` lines, the emoji markers) is not modelled; only what goes to files is.
- The `System.setOut` / `System.setErr` redirect in `runNativePhase` (Migrator.java lines 152-170) is not modelled. While it is active, CodeMigrator's console lines go into the phase log, ahead of the statistics. The model appends only the statistics block.
- Gson decoding of `phases/config.json` is not modelled. The decoded phase list, or the read failure, is an input of `PhaseRepository.GetPhases`. A JSON syntax error, which Gson throws unchecked, is not modelled.
- The rewrite tables are `Map.ofEntries` / `Set.of` values, whose iteration order Java leaves unspecified. The model fixes one order: the order in which the entries are written.
  - `RewriteRules.ClassNameCovered` holds for any table order.
  - The outcome of overlapping package prefixes or method patterns depends on the order.
  - Phase `inputs` (a JSON object) are likewise a fixed list of pairs.
- `EXCLUDED_IMPORTS` of CodeMigrator (lines 130-145) is never read by the code, so it is not modelled.
- `CartridgeRepository` is not part of this model. The cartridge list is a constructor argument of `Migrator.Migrator`.
- `Migrator.Migrator.Migrate` requires distinct cartridge objects, so that writing one cartridge's current phase leaves the others alone. A list holding one object twice is not covered.
- The agent factory of `Main` (lines 60-69) is modelled only by each agent module's `FactoryPhaseCommand`, which gives the command for one phase.
  - `Migrator` takes a single agent, and the model keeps it.
  - Which agent class `Main` builds is not connected to `CommandLine.Validate`.
- The migrator's agent is one of the two `com.mico` agents. The agent's own invariant is not carried through `Migrator.Migrator`. The agent modules prove their command lists separately.
- The `IntershopClaudeAgent` subclass extends a `BaseAgent` of its own package. That class is not part of this model. The `com.mico` `BaseAgent` is used in its place, since the inherited members it calls are identical.
- Clocks and the session id are inputs, given as text. The logger's failure to create its directory is only printed by `MigrationLogger`, so it is not modelled.
- `MigrationLogger.Logger.ExecuteWithLogging` does not create the parent directory as a separate step. A failure there is folded into `openError`.
- The agent's process is an input. Its output arrives in the log in one piece, and `waitFor` returns an exit code or is interrupted.
- `BaseAgent.Agent.PostExecution` is modelled, but `migrate` never calls it (Migrator.java lines 66-70). The session model does not call it either.
- Thread interruption, signals and file locking are not modelled.
- `ScanImports`: `Files.lines` and `Files.walk` are lazy.
  - A failure after the stream opened arrives as an `UncheckedIOException`. Examples are a non-UTF-8 file or a directory that vanishes during the walk.
  - The `catch (IOException)` blocks at JavaImportScanner.java lines 52 and 56 do not catch it, and neither does Migrator.java line 88, so the session would abort.
  - The model only has a file whose reading fails (the file is skipped) and a walk that fails at the start (an empty result). The unchecked failure is not modelled.
- `CodeMigrator.Migration.Migrate` has the same gap: an `UncheckedIOException` during its walk is not modelled.
- `PhaseRepository.GetPhaseInstructions` builds the file's key as `dir + "/" + instructions`. `Path.resolve` returns an absolute `instructions` path unchanged and normalises separators. Both differences are not modelled.
- `Text.ToLower` / `Text.ToUpper`: case mapping is ASCII only, as under a non-Turkish default locale.
  - Java's `toUpperCase()` / `toLowerCase()` (Migrator.java lines 113 and 122) use the default locale and full Unicode mapping: `"ß"` upper-cases to `"SS"`, and under a Turkish locale `i` becomes `İ` and `I` becomes `ı`.
  - `Migrator.Placeholder`, `Migrator.InputValue` and `Text.LowerOfUpper` rest on the ASCII mapping. Under a Turkish locale Java would leave `[CARTRIDGE_PATH]` unreplaced; the model replaces it.
- `Text.SortStringsCorrect` sorts by code point. `String::compareTo` (CodeMigrator.java line 368) compares UTF-16 code units; the two orders differ when a supplementary character meets one in U+E000 to U+FFFF.
- `RewriteRules.WordBoundary`: `\b` is ASCII, consistent with `\w`, as in JDK 19 and later; the model assumes such a JDK. Earlier JDKs count Unicode letters and digits (such as `é`) as word characters for `\b`.
- `Migrator.Migrator.Master` and `Migrator.Migrator.Summary` pass `ioError = false`: the session assumes every master and summary append succeeds.
  - `logToMaster` and `logToCartridgeSummary` (MigrationLogger.java lines 96-128) catch an `IOException`, print it and go on; `MigrationLogger.Logger.LogToMaster` and `LogToCartridgeSummary` model that case, but the session never takes it.
  - `SessionTrace` and the session lemmas built on it (`ExitLinesElsewhere`, `AgentPhaseOps` and the rest) describe the log lines of successful appends only.
- `BaseAgent.PostExecutionOutcome` ends the prompt with `"\n"`. `writer.newLine()` (BaseAgent.java line 56) writes `System.lineSeparator()`, which is `"\r\n"` on Windows.
- Java `int` overflow of the counters is not modelled; counts are unbounded naturals.
- The process builder's redirection (`redirectOutput` / `redirectError`) is modelled only by its effect: the output is appended to the log.

## Findings

| source | as written | input that shows it | evidently intended | confidence | as-written member | corrected member |
|---|---|---|---|---|---|---|
| src/main/java/com/mico/util/CodeMigrator.java:262-264, 291, 312, 410 | text taken from the file (an import line, a class name, the rebuilt import block) is passed to `appendReplacement` / `replaceFirst` as a replacement string, so `$` and `\` in it are read as group references and escapes; `IllegalArgumentException` escapes `migrateFile`, which catches only `IOException`, and ends the native phase and the session | a file whose only line is `import a$B;` | the text is copied literally, through `Matcher.quoteReplacement`, and no file text can make the transform fail | not executed | CodeMigrator.DollarImportFails | CodeMigrator.MigrateContentQuotedSucceeds |
| src/main/java/com/mico/util/MigrationLogger.java:67 | `executeWithLogging` opens `new FileOutputStream(logFile)` without append right after `writeLogHeader` wrote the header, which truncates the log; the process output is then appended to an empty file, and even a process that fails to start leaves the log empty | any agent phase whose header was written, e.g. header `H` and output `O` give a log holding `O` rather than `H` + `O` | the header stays and the output follows it | not executed | Migrator.AgentPhaseLogIsOutput | MigrationLogger.HeaderKept |
