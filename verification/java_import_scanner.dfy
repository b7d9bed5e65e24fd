/**
 * JavaImportScanner: collects the names imported by the `.java` files of a
 * cartridge, in first-seen order and without duplicates (a LinkedHashSet),
 * leaving out names that start with an exclusion prefix.
 *
 * The directory walk is an input: the entries it yields, each with whether
 * it is a regular file and the lines reading it gives (or a read error), or
 * an error opening the walk.
 */
module JavaImportScanner {
  import opened Text

  // ---------------------------------------------------------------------
  // The pattern ^import\s+(?:static\s+)?([\w.]+);
  // ---------------------------------------------------------------------

  /** `[\w.]`: a character of an imported name. */
  predicate IsNameChar(c: char) {
    IsWordChar(c) || c == '.'
  }

  predicate IsName(s: string) {
    s != [] && forall k :: 0 <= k < |s| ==> IsNameChar(s[k])
  }

  /** The length of the run of name characters that starts at `i`. */
  function NameRun(s: string, i: nat): (n: nat)
    requires i <= |s|
    ensures i + n <= |s|
    ensures forall k :: i <= k < i + n ==> IsNameChar(s[k])
    ensures i + n < |s| ==> !IsNameChar(s[i + n])
    decreases |s| - i
  {
    if i < |s| && IsNameChar(s[i]) then 1 + NameRun(s, i + 1) else 0
  }

  /** `([\w.]+);` at `p`: the name, when a semicolon follows it directly. */
  function NameAt(t: string, p: nat): (r: Option<string>)
    requires p <= |t|
    ensures r.Some? ==> IsName(r.value) && p + |r.value| < |t| && t[p..p + |r.value|] == r.value && t[p + |r.value|] == ';'
  {
    var n := NameRun(t, p);
    if n > 0 && p + n < |t| && t[p + n] == ';' then Some(t[p..p + n]) else None
  }

  /** `static\s+` at `p`: the position after its whitespace. */
  function AfterStatic(t: string, p: nat): (q: Option<nat>)
    requires p <= |t|
    ensures q.Some? ==> p + 6 < q.value <= |t| && t[p..p + 6] == "static"
  {
    if p + 6 <= |t| && t[p..p + 6] == "static" && WsRun(t, p + 6) > 0 then Some(p + 6 + WsRun(t, p + 6))
    else None
  }

  /**
   * The name the pattern captures at the start of `t` (`^` without
   * MULTILINE). The optional `static\s+` is tried first; when no name and `;`
   * follow it, the match backtracks to a name right after `import\s+`.
   */
  function ImportAtStart(t: string): (r: Option<string>)
    ensures r.Some? ==> IsName(r.value)
    ensures r.Some? ==> |t| > 6 && t[..6] == "import" && IsJavaWhitespace(t[6])
  {
    if |t| < 6 || t[..6] != "import" || WsRun(t, 6) == 0 then None
    else
      var p := 6 + WsRun(t, 6);
      var q := AfterStatic(t, p);
      var viaStatic := if q.Some? then NameAt(t, q.value) else None;
      if viaStatic.Some? then viaStatic else NameAt(t, p)
  }

  /** extractImportsFromFile matches the pattern against the trimmed line. */
  function ImportOfLine(line: string): (r: Option<string>)
    ensures r.Some? ==> IsName(r.value)
  {
    ImportAtStart(Trim(line))
  }

  /** `import <name>;` yields the name. */
  lemma PlainImportLine(name: string)
    requires IsName(name)
    ensures ImportOfLine("import " + name + ";") == Some(name)
  {
    TrimFixed("import " + name + ";");
    PlainImport(name);
  }

  lemma PlainImport(name: string)
    requires IsName(name)
    ensures ImportAtStart("import " + name + ";") == Some(name)
  {
    var t := "import " + name + ";";
    assert t[..6] == "import";
    assert WsRun(t, 6) == 1 by {
      assert t[7] == name[0];
    }
    assert NameRun(t, 7) == |name| by {
      assert t[7..7 + |name|] == name;
      NameRunPrefix(t, 7, |name|);
    }
    if AfterStatic(t, 7).Some? {
      assert false;
    }
  }

  /** `import static <name>;` yields the name without the keyword. */
  lemma StaticImportLine(name: string)
    requires IsName(name)
    ensures ImportOfLine("import static " + name + ";") == Some(name)
  {
    TrimFixed("import static " + name + ";");
    StaticImport(name);
  }

  lemma StaticImport(name: string)
    requires IsName(name)
    ensures ImportAtStart("import static " + name + ";") == Some(name)
  {
    var t := "import static " + name + ";";
    assert t[..6] == "import";
    assert WsRun(t, 6) == 1 by {
      assert t[7] == 's';
    }
    assert AfterStatic(t, 7) == Some(14) by {
      assert t[7..13] == "static";
      assert WsRun(t, 13) == 1 by {
        assert t[14] == name[0];
      }
    }
    assert NameRun(t, 14) == |name| by {
      assert t[14..14 + |name|] == name;
      NameRunPrefix(t, 14, |name|);
    }
  }

  /** A wildcard import `import <name>.*;` never matches. */
  lemma WildcardImportLine(name: string)
    requires IsName(name)
    ensures ImportOfLine("import " + name + ".*;") == None
  {
    TrimFixed("import " + name + ".*;");
    WildcardImport(name);
  }

  lemma WildcardImport(name: string)
    requires IsName(name)
    ensures ImportAtStart("import " + name + ".*;") == None
  {
    var t := "import " + name + ".*;";
    assert t[..6] == "import";
    assert WsRun(t, 6) == 1 by {
      assert t[7] == name[0];
    }
    assert NameAt(t, 7) == None by {
      NameRunPrefix(t, 7, |name| + 1);
    }
    if AfterStatic(t, 7).Some? {
      assert false;
    }
  }

  /** NameRun from `i` covers at least `n` name characters and stops at a non-name character. */
  lemma NameRunPrefix(s: string, i: nat, n: nat)
    requires i + n < |s|
    requires forall k :: i <= k < i + n ==> IsNameChar(s[k])
    requires !IsNameChar(s[i + n])
    ensures NameRun(s, i) == n
    decreases n
  {
    if n > 0 {
      NameRunPrefix(s, i + 1, n - 1);
    }
  }

  // ---------------------------------------------------------------------
  // isExcluded
  // ---------------------------------------------------------------------

  /** The name starts with one of the prefixes. */
  predicate Excluded(name: string, prefixes: set<string>) {
    exists p :: p in prefixes && p <= name
  }

  /** isExcluded: a loop over the prefix set that stops at the first prefix of the name. */
  method IsExcluded(name: string, prefixes: set<string>) returns (excluded: bool)
    ensures excluded <==> Excluded(name, prefixes)
    ensures prefixes == {} ==> !excluded
  {
    var rest := prefixes;
    while rest != {}
      invariant rest <= prefixes
      invariant forall p :: p in prefixes && p !in rest ==> !(p <= name)
      decreases |rest|
    {
      var p :| p in rest;
      if p <= name {
        return true;
      }
      rest := rest - {p};
    }
    return false;
  }

  // ---------------------------------------------------------------------
  // The LinkedHashSet of imports
  // ---------------------------------------------------------------------

  predicate NoDuplicates(xs: seq<string>) {
    forall i, j :: 0 <= i < j < |xs| ==> xs[i] != xs[j]
  }

  /** Adding `names` one by one to a LinkedHashSet whose iteration order is `acc`. */
  function AddAll(acc: seq<string>, names: seq<string>): seq<string>
    decreases |names|
  {
    if names == [] then acc
    else AddAll(if names[0] in acc then acc else acc + [names[0]], names[1..])
  }

  /**
   * The set never reorders or loses what it holds, holds exactly what was
   * added, and holds each element once.
   */
  lemma {:induction false} AddAllFacts(acc: seq<string>, names: seq<string>)
    ensures acc <= AddAll(acc, names)
    ensures forall x :: x in AddAll(acc, names) <==> x in acc || x in names
    ensures NoDuplicates(acc) ==> NoDuplicates(AddAll(acc, names))
    decreases |names|
  {
    if names != [] {
      var next := if names[0] in acc then acc else acc + [names[0]];
      AddAllFacts(next, names[1..]);
      assert names == [names[0]] + names[1..];
    }
  }

  /** Adding two runs of names is adding the first, then the second. */
  lemma {:induction false} AddAllConcat(acc: seq<string>, a: seq<string>, b: seq<string>)
    ensures AddAll(acc, a + b) == AddAll(AddAll(acc, a), b)
    decreases |a|
  {
    if a == [] {
      assert a + b == b;
    } else {
      var next := if a[0] in acc then acc else acc + [a[0]];
      assert (a + b)[0] == a[0] && (a + b)[1..] == a[1..] + b;
      AddAllConcat(next, a[1..], b);
    }
  }

  /**
   * First-seen order: the set built from a prefix of the names is a prefix of
   * the set built from all of them, and a name joins at the end exactly when
   * it is seen for the first time.
   */
  lemma FirstSeenOrder(names: seq<string>, m: nat)
    requires m < |names|
    ensures AddAll([], names[..m]) <= AddAll([], names)
    ensures names[m] !in names[..m] ==> AddAll([], names[..m + 1]) == AddAll([], names[..m]) + [names[m]]
    ensures names[m] in names[..m] ==> AddAll([], names[..m + 1]) == AddAll([], names[..m])
  {
    assert names == names[..m] + names[m..];
    AddAllConcat([], names[..m], names[m..]);
    AddAllFacts(AddAll([], names[..m]), names[m..]);
    assert names[..m + 1] == names[..m] + [names[m]];
    AddAllConcat([], names[..m], [names[m]]);
    AddAllFacts([], names[..m]);
    assert [names[m]][1..] == [];
  }

  // ---------------------------------------------------------------------
  // extractImportsFromFile and scanImports
  // ---------------------------------------------------------------------

  /** An entry of the directory walk; `content` is the file's lines or the read error. */
  datatype WalkEntry = WalkEntry(path: string, regularFile: bool, content: Result<seq<string>>)

  predicate IsJavaFile(e: WalkEntry) {
    e.regularFile && EndsWith(e.path, ".java")
  }

  /** The match of every line, in line order. */
  function Matches(lines: seq<string>): (ms: seq<Option<string>>)
    ensures |ms| == |lines|
    ensures forall k :: 0 <= k < |lines| ==> ms[k] == ImportOfLine(lines[k])
  {
    seq(|lines|, k requires 0 <= k < |lines| => ImportOfLine(lines[k]))
  }

  /** The matched names that no prefix excludes, in order. */
  function Kept(ms: seq<Option<string>>, prefixes: set<string>): seq<string>
    decreases |ms|
  {
    if ms == [] then []
    else (if ms[0].Some? && !Excluded(ms[0].value, prefixes) then [ms[0].value] else []) + Kept(ms[1..], prefixes)
  }

  /** The names the lines of one file import that no prefix excludes, in line order. */
  function FileNames(lines: seq<string>, prefixes: set<string>): seq<string> {
    Kept(Matches(lines), prefixes)
  }

  lemma {:induction false} KeptMembers(ms: seq<Option<string>>, prefixes: set<string>)
    ensures forall x :: x in Kept(ms, prefixes) <==>
      !Excluded(x, prefixes) && exists k :: 0 <= k < |ms| && ms[k] == Some(x)
    decreases |ms|
  {
    if ms != [] {
      KeptMembers(ms[1..], prefixes);
      forall x
        ensures (exists k :: 0 <= k < |ms| && ms[k] == Some(x)) <==>
          ms[0] == Some(x) || exists k :: 0 <= k < |ms[1..]| && ms[1..][k] == Some(x)
      {
        if exists k :: 0 <= k < |ms| && ms[k] == Some(x) {
          var k :| 0 <= k < |ms| && ms[k] == Some(x);
          if k > 0 {
            assert ms[1..][k - 1] == ms[k];
          }
        }
      }
    }
  }

  /** A name comes out of a file exactly when one of its lines imports it and no prefix excludes it. */
  lemma FileNamesMembers(lines: seq<string>, prefixes: set<string>)
    ensures forall x :: x in FileNames(lines, prefixes) <==>
      !Excluded(x, prefixes) && exists k :: 0 <= k < |lines| && ImportOfLine(lines[k]) == Some(x)
  {
    KeptMembers(Matches(lines), prefixes);
  }

  /** The names of every readable Java file, in walk order. */
  function Found(entries: seq<WalkEntry>, prefixes: set<string>): seq<string>
    decreases |entries|
  {
    if entries == [] then []
    else
      var e := entries[0];
      (if IsJavaFile(e) && e.content.Ok? then FileNames(e.content.value, prefixes) else []) + Found(entries[1..], prefixes)
  }

  lemma {:induction false} FoundConcat(a: seq<WalkEntry>, b: seq<WalkEntry>, prefixes: set<string>)
    ensures Found(a + b, prefixes) == Found(a, prefixes) + Found(b, prefixes)
    decreases |a|
  {
    if a == [] {
      assert a + b == b;
    } else {
      assert (a + b)[0] == a[0] && (a + b)[1..] == a[1..] + b;
      FoundConcat(a[1..], b, prefixes);
    }
  }

  /** A Java file that cannot be read contributes nothing; the scan goes on with the next entry. */
  lemma UnreadableFileSkipped(before: seq<WalkEntry>, e: WalkEntry, after: seq<WalkEntry>, prefixes: set<string>)
    requires e.content.Err?
    ensures Found(before + [e] + after, prefixes) == Found(before + after, prefixes)
  {
    FoundConcat(before + [e], after, prefixes);
    UnreadableLast(before, e, prefixes);
    FoundConcat(before, after, prefixes);
  }

  lemma UnreadableLast(before: seq<WalkEntry>, e: WalkEntry, prefixes: set<string>)
    requires e.content.Err?
    ensures Found(before + [e], prefixes) == Found(before, prefixes)
  {
    FoundConcat(before, [e], prefixes);
    assert Found([e], prefixes) == [] by {
      assert [e][1..] == [];
    }
  }

  function JavaFileCount(entries: seq<WalkEntry>): (n: nat)
    ensures n <= |entries|
    decreases |entries|
  {
    if entries == [] then 0
    else (if IsJavaFile(entries[0]) then 1 else 0) + JavaFileCount(entries[1..])
  }

  /** What scanImports returns: nothing when the walk cannot start. */
  function ScanResult(walk: Result<seq<WalkEntry>>, prefixes: set<string>): seq<string> {
    if walk.Err? then [] else AddAll([], Found(walk.value, prefixes))
  }

  /**
   * The result has no duplicates, and a name is in it exactly when some line
   * of a readable Java file imports it and no prefix excludes it.
   */
  lemma ScanResultMembers(entries: seq<WalkEntry>, prefixes: set<string>, x: string)
    ensures NoDuplicates(ScanResult(Ok(entries), prefixes))
    ensures x in ScanResult(Ok(entries), prefixes) <==> x in Found(entries, prefixes)
    ensures x in ScanResult(Ok(entries), prefixes) ==> !Excluded(x, prefixes) && IsName(x)
  {
    AddAllFacts([], Found(entries, prefixes));
    if x in Found(entries, prefixes) {
      FoundExcludes(entries, prefixes, x);
    }
  }

  lemma {:induction false} FoundExcludes(entries: seq<WalkEntry>, prefixes: set<string>, x: string)
    requires x in Found(entries, prefixes)
    ensures !Excluded(x, prefixes) && IsName(x)
    decreases |entries|
  {
    var e := entries[0];
    var here := if IsJavaFile(e) && e.content.Ok? then FileNames(e.content.value, prefixes) else [];
    if x in here {
      FileNamesMembers(e.content.value, prefixes);
      var k :| 0 <= k < |e.content.value| && ImportOfLine(e.content.value[k]) == Some(x);
    } else {
      FoundExcludes(entries[1..], prefixes, x);
    }
  }

  /** extractImportsFromFile: adds each line's non-excluded import to the set. */
  method ExtractImportsFromFile(lines: seq<string>, importSet: seq<string>, prefixes: set<string>) returns (result: seq<string>)
    ensures result == AddAll(importSet, FileNames(lines, prefixes))
  {
    ghost var ms := Matches(lines);
    result := importSet;
    var i := 0;
    while i < |lines|
      invariant i <= |lines|
      invariant AddAll(result, Kept(ms[i..], prefixes)) == AddAll(importSet, Kept(ms, prefixes))
    {
      ghost var rest := Kept(ms[i + 1..], prefixes);
      KeptStep(ms, i, prefixes);
      var m := ImportOfLine(lines[i]);
      assert ms[i] == m;
      if m.Some? {
        var excluded := IsExcluded(m.value, prefixes);
        if !excluded {
          assert Kept(ms[i..], prefixes) == [m.value] + rest;
          AddOne(result, m.value, rest);
          if m.value !in result {
            result := result + [m.value];
          }
        } else {
          assert Kept(ms[i..], prefixes) == rest;
        }
      } else {
        assert Kept(ms[i..], prefixes) == rest;
      }
      i := i + 1;
    }
    assert ms[i..] == [];
  }

  lemma KeptStep(ms: seq<Option<string>>, i: nat, prefixes: set<string>)
    requires i < |ms|
    ensures Kept(ms[i..], prefixes) ==
      (if ms[i].Some? && !Excluded(ms[i].value, prefixes) then [ms[i].value] else []) + Kept(ms[i + 1..], prefixes)
  {
    assert ms[i..][0] == ms[i] && ms[i..][1..] == ms[i + 1..];
  }

  lemma AddOne(acc: seq<string>, x: string, rest: seq<string>)
    ensures AddAll(acc, [x] + rest) == AddAll(if x in acc then acc else acc + [x], rest)
  {
    assert ([x] + rest)[0] == x && ([x] + rest)[1..] == rest;
  }

  /**
   * scanImports: walks the entries in order, counts the Java files, and adds
   * the imports of each readable one; a file that cannot be read is skipped,
   * and a walk that cannot start leaves the result empty.
   */
  method ScanImports(walk: Result<seq<WalkEntry>>, prefixes: set<string>) returns (imports: seq<string>, fileCount: nat)
    ensures imports == ScanResult(walk, prefixes)
    ensures fileCount == if walk.Err? then 0 else JavaFileCount(walk.value)
  {
    var importSet: seq<string> := [];
    fileCount := 0;
    if walk.Ok? {
      var entries := walk.value;
      var i := 0;
      while i < |entries|
        invariant i <= |entries|
        invariant AddAll(importSet, Found(entries[i..], prefixes)) == AddAll([], Found(entries, prefixes))
        invariant fileCount + JavaFileCount(entries[i..]) == JavaFileCount(entries)
      {
        var e := entries[i];
        ghost var rest := Found(entries[i + 1..], prefixes);
        FoundStep(entries, i, prefixes);
        assert fileCount + (if IsJavaFile(e) then 1 else 0) + JavaFileCount(entries[i + 1..]) == JavaFileCount(entries);
        if IsJavaFile(e) {
          fileCount := fileCount + 1;
          if e.content.Ok? {
            assert Found(entries[i..], prefixes) == FileNames(e.content.value, prefixes) + rest;
            AddAllConcat(importSet, FileNames(e.content.value, prefixes), rest);
            importSet := ExtractImportsFromFile(e.content.value, importSet, prefixes);
          } else {
            assert Found(entries[i..], prefixes) == rest;
          }
        } else {
          assert Found(entries[i..], prefixes) == rest;
        }
        i := i + 1;
      }
      assert entries[i..] == [];
    }
    imports := importSet;
  }

  lemma FoundStep(entries: seq<WalkEntry>, i: nat, prefixes: set<string>)
    requires i < |entries|
    ensures Found(entries[i..], prefixes) ==
      (if IsJavaFile(entries[i]) && entries[i].content.Ok? then FileNames(entries[i].content.value, prefixes) else []) +
      Found(entries[i + 1..], prefixes)
    ensures JavaFileCount(entries[i..]) == (if IsJavaFile(entries[i]) then 1 else 0) + JavaFileCount(entries[i + 1..])
  {
    assert entries[i..][0] == entries[i] && entries[i..][1..] == entries[i + 1..];
  }

  /** The one-argument scanImports: no exclusions, so every imported name of a readable Java file is kept. */
  method ScanAllImports(walk: Result<seq<WalkEntry>>) returns (imports: seq<string>, fileCount: nat)
    ensures imports == ScanResult(walk, {})
    ensures walk.Ok? ==> forall x :: x in imports <==> x in Found(walk.value, {})
  {
    imports, fileCount := ScanImports(walk, {});
    if walk.Ok? {
      AddAllFacts([], Found(walk.value, {}));
    }
  }
}
