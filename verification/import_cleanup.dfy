/**
 * The last stage of CodeMigrator.migrateContent (cleanupImports and its
 * helper isEmpty): every import statement is taken out of the text, the
 * statements are sorted, split into six categories, laid out with blank
 * lines between neighbouring categories and put back after the package
 * declaration.
 */
module ImportCleanup {
  import opened Text
  import opened Matcher
  import opened RewriteRules

  // ---------------------------------------------------------------------
  // Finding and removing the import statements
  // ---------------------------------------------------------------------

  /** Group 0 of every match of `^import\s+([^;]+);` from `i` on, in text order. */
  function CollectImports(s: string, i: nat): (imports: seq<string>)
    requires i <= |s|
    ensures forall k :: 0 <= k < |imports| ==> "import" <= imports[k]
    decreases |s| - i
  {
    if i == |s| then []
    else
      var p := StatementEnd(s, i, "import");
      if p.Some? then
        assert "import" <= s[i..p.value + 1];
        [s[i..p.value + 1]] + CollectImports(s, p.value + 1)
      else CollectImports(s, i + 1)
  }

  /** replaceAll of `^import\s+[^;]+;\s*` by the empty string, from `i` on. */
  function RemoveImports(s: string, i: nat): string
    requires i <= |s|
    decreases |s| - i
  {
    if i == |s| then []
    else
      var p := StatementEnd(s, i, "import");
      if p.Some? then RemoveImports(s, p.value + 1 + WsRun(s, p.value + 1))
      else [s[i]] + RemoveImports(s, i + 1)
  }

  /** The first match of `^(package\s+[^;]+;)\s*` at or after `i`: its start and the index of its `;`. */
  function FindPackage(s: string, i: nat): (r: Option<(nat, nat)>)
    requires i <= |s|
    ensures r.Some? ==> i <= r.value.0 && StatementEnd(s, r.value.0, "package") == Some(r.value.1)
    ensures r.Some? ==> forall j :: i <= j < r.value.0 ==> StatementEnd(s, j, "package").None?
    ensures r.None? ==> forall j :: i <= j < |s| ==> StatementEnd(s, j, "package").None?
    decreases |s| - i
  {
    if i == |s| then None
    else
      var p := StatementEnd(s, i, "package");
      if p.Some? then Some((i, p.value)) else FindPackage(s, i + 1)
  }

  // ---------------------------------------------------------------------
  // Categories and buckets
  // ---------------------------------------------------------------------

  /** 0 static, 1 `java.`, 2 `jakarta.`, 3 `org.`, 4 `com.`, 5 any other import. */
  function Category(imp: string): (c: nat)
    ensures c < 6
  {
    if Contains(imp, "static ") then 0
    else if "import java." <= imp then 1
    else if "import jakarta." <= imp then 2
    else if "import org." <= imp then 3
    else if "import com." <= imp then 4
    else 5
  }

  /** The imports of category `c`, in their order in `xs`. */
  function Bucket(xs: seq<string>, c: nat): seq<string>
  {
    if xs == [] then []
    else Bucket(xs[..|xs| - 1], c) + (if Category(xs[|xs| - 1]) == c then [xs[|xs| - 1]] else [])
  }

  function Buckets(xs: seq<string>): (bs: seq<seq<string>>)
    ensures |bs| == 6
  {
    [Bucket(xs, 0), Bucket(xs, 1), Bucket(xs, 2), Bucket(xs, 3), Bucket(xs, 4), Bucket(xs, 5)]
  }

  /** A blank line between two buckets, only when both hold something. */
  function Separator(a: seq<string>, b: seq<string>): seq<string> {
    if a != [] && b != [] then [""] else []
  }

  /**
   * The buckets one after the other, a blank line between two neighbouring
   * buckets that both hold something. Built from the left, as CodeMigrator
   * appends bucket after bucket.
   */
  function Layout(bs: seq<seq<string>>): seq<string>
  {
    if |bs| == 0 then []
    else if |bs| == 1 then bs[0]
    else Layout(bs[..|bs| - 1]) + Separator(bs[|bs| - 2], bs[|bs| - 1]) + bs[|bs| - 1]
  }

  /** The lines of the rebuilt import block for the sorted imports. */
  function ImportLines(sorted: seq<string>): seq<string> {
    Layout(Buckets(sorted))
  }

  /** The lines that are not blank. */
  function NonBlank(lines: seq<string>): seq<string>
  {
    if lines == [] then []
    else (if lines[0] != "" then [lines[0]] else []) + NonBlank(lines[1..])
  }

  function Flatten(bs: seq<seq<string>>): seq<string>
  {
    if bs == [] then [] else Flatten(bs[..|bs| - 1]) + bs[|bs| - 1]
  }

  // ---------------------------------------------------------------------
  // The loops of cleanupImports and isEmpty
  // ---------------------------------------------------------------------

  /** The bucketing loop: each import goes to the first category it satisfies. */
  method BucketImports(imports: seq<string>) returns (staticImports: seq<string>, javaImports: seq<string>,
      jakartaImports: seq<string>, orgImports: seq<string>, comImports: seq<string>, otherImports: seq<string>)
    ensures [staticImports, javaImports, jakartaImports, orgImports, comImports, otherImports] == Buckets(imports)
  {
    staticImports, javaImports, jakartaImports, orgImports, comImports, otherImports := [], [], [], [], [], [];
    for i := 0 to |imports|
      invariant staticImports == Bucket(imports[..i], 0) && javaImports == Bucket(imports[..i], 1)
      invariant jakartaImports == Bucket(imports[..i], 2) && orgImports == Bucket(imports[..i], 3)
      invariant comImports == Bucket(imports[..i], 4) && otherImports == Bucket(imports[..i], 5)
    {
      var imp := imports[i];
      assert imports[..i + 1][..i] == imports[..i] && imports[..i + 1][i] == imp;
      if Contains(imp, "static ") {
        staticImports := staticImports + [imp];
      } else if "import java." <= imp {
        javaImports := javaImports + [imp];
      } else if "import jakarta." <= imp {
        jakartaImports := jakartaImports + [imp];
      } else if "import org." <= imp {
        orgImports := orgImports + [imp];
      } else if "import com." <= imp {
        comImports := comImports + [imp];
      } else {
        otherImports := otherImports + [imp];
      }
    }
    assert imports[..|imports|] == imports;
  }

  /**
   * isEmpty(first, second, third, importLines): appends the second and third
   * list to the import lines, each preceded by a blank line when it and the
   * list before it are both non-empty.
   */
  method AppendSeparated(first: seq<string>, second: seq<string>, third: seq<string>, importLines: seq<string>)
    returns (lines: seq<string>)
    ensures lines == importLines + Separator(first, second) + second + Separator(second, third) + third
  {
    lines := importLines;
    if first != [] && second != [] {
      lines := lines + [""];
    }
    lines := lines + second;
    if second != [] && third != [] {
      lines := lines + [""];
    }
    lines := lines + third;
  }

  /** The import lines as cleanupImports assembles them from the sorted imports. */
  method BuildImportLines(sorted: seq<string>) returns (importLines: seq<string>)
    ensures importLines == ImportLines(sorted)
  {
    var staticImports, javaImports, jakartaImports, orgImports, comImports, otherImports := BucketImports(sorted);
    importLines := staticImports;
    importLines := AppendSeparated(staticImports, javaImports, jakartaImports, importLines);
    importLines := AppendSeparated(jakartaImports, orgImports, comImports, importLines);
    ghost var before := importLines;
    if comImports != [] && otherImports != [] {
      importLines := importLines + [""];
    }
    assert importLines == before + Separator(comImports, otherImports);
    importLines := importLines + otherImports;
    LayoutOfSix(staticImports, javaImports, jakartaImports, orgImports, comImports, otherImports);
    assert ImportLines(sorted) == Layout([staticImports, javaImports, jakartaImports, orgImports, comImports, otherImports]);
  }

  lemma LayoutOfSix(a: seq<string>, b: seq<string>, c: seq<string>, d: seq<string>, e: seq<string>, f: seq<string>)
    ensures Layout([a, b, c, d, e, f]) == a + Separator(a, b) + b + Separator(b, c) + c + Separator(c, d) + d
      + Separator(d, e) + e + Separator(e, f) + f
  {
    assert [a, b][..1] == [a];
    assert Layout([a, b]) == a + Separator(a, b) + b;
    assert [a, b, c][..2] == [a, b];
    assert Layout([a, b, c]) == Layout([a, b]) + Separator(b, c) + c;
    assert [a, b, c, d][..3] == [a, b, c];
    assert Layout([a, b, c, d]) == Layout([a, b, c]) + Separator(c, d) + d;
    assert [a, b, c, d, e][..4] == [a, b, c, d];
    assert Layout([a, b, c, d, e]) == Layout([a, b, c, d]) + Separator(d, e) + e;
    assert [a, b, c, d, e, f][..5] == [a, b, c, d, e];
    assert Layout([a, b, c, d, e, f]) == Layout([a, b, c, d, e]) + Separator(e, f) + f;
  }

  // ---------------------------------------------------------------------
  // The stage
  // ---------------------------------------------------------------------

  /** The rebuilt import block: the import lines joined by line breaks. */
  function ImportBlock(s: string): string {
    JoinWith(ImportLines(SortStrings(CollectImports(s, 0))), "\n")
  }

  /**
   * cleanupImports. The block goes after the package declaration through
   * replaceFirst("$1" + "\n\n" + block + "\n"); with `quote` everything after
   * "$1" is passed through quoteReplacement first.
   */
  function CleanupImports(s: string, quote: bool): Result<string>
  {
    if CollectImports(s, 0) == [] then Ok(s)
    else PlaceBlock(RemoveImports(s, 0), ImportBlock(s), quote)
  }

  /** Puts the import block after the first package declaration, or at the start. */
  function PlaceBlock(without: string, block: string, quote: bool): Result<string>
  {
    var pkg := FindPackage(without, 0);
    if pkg.Some? then PlaceAfter(without, block, pkg.value.0, pkg.value.1, quote)
    else Ok(block + "\n" + without)
  }

  /**
   * replaceFirst of `(package\s+[^;]+;)\s*` by `$1\n\n<block>\n` for the
   * declaration at `j` whose `;` is at `p`.
   */
  function PlaceAfter(without: string, block: string, j: nat, p: nat, quote: bool): Result<string>
    requires j <= p < |without|
  {
    var e := p + 1 + WsRun(without, p + 1);
    var tail := "\n\n" + block + "\n";
    ReplaceMatch(without, j, p, e, "$1" + (if quote then QuoteReplacement(tail) else tail))
  }

  /**
   * replaceFirst for the package match without[j..e], whose group 1 is
   * without[j..p + 1]: the text before the match, the expanded replacement,
   * the text after it.
   */
  function ReplaceMatch(without: string, j: nat, p: nat, e: nat, rep: string): Result<string>
    requires j <= p < e <= |without|
  {
    var out :- Expand(rep, [without[j..e], without[j..p + 1]]);
    Ok(without[..j] + out + without[e..])
  }

  // ---------------------------------------------------------------------
  // Properties of the layout
  // ---------------------------------------------------------------------

  /** Each blank line stands between two import lines of consecutive categories. */
  predicate BlanksSeparateCategories(l: seq<string>) {
    forall i :: 0 <= i < |l| && l[i] == "" ==>
      0 < i < |l| - 1 && l[i - 1] != "" && l[i + 1] != "" && Category(l[i + 1]) == Category(l[i - 1]) + 1
  }

  /**
   * Two adjacent import lines are of the same category or of categories at
   * least two apart.
   */
  predicate AdjacentLinesGrouped(l: seq<string>) {
    forall i :: 0 <= i < |l| - 1 && l[i] != "" && l[i + 1] != "" ==>
      Category(l[i + 1]) == Category(l[i]) || Category(l[i + 1]) >= Category(l[i]) + 2
  }

  predicate CategoriesBelow(l: seq<string>, n: nat) {
    forall i :: 0 <= i < |l| && l[i] != "" ==> Category(l[i]) < n
  }

  predicate NoBlankLine(bs: seq<seq<string>>) {
    forall k, i :: 0 <= k < |bs| && 0 <= i < |bs[k]| ==> bs[k][i] != ""
  }

  /** Bucket `k` holds only imports of category `k`. */
  predicate CategoryBuckets(bs: seq<seq<string>>) {
    forall k, i :: 0 <= k < |bs| && 0 <= i < |bs[k]| ==> Category(bs[k][i]) == k
  }

  lemma InitBuckets(bs: seq<seq<string>>)
    requires |bs| > 0 && NoBlankLine(bs) && CategoryBuckets(bs)
    ensures NoBlankLine(bs[..|bs| - 1]) && CategoryBuckets(bs[..|bs| - 1])
  {
    var init := bs[..|bs| - 1];
    forall k, i | 0 <= k < |init| && 0 <= i < |init[k]|
      ensures init[k][i] != "" && Category(init[k][i]) == k
    {
      assert init[k] == bs[k];
    }
  }

  lemma {:induction false} NonBlankOfNonBlank(xs: seq<string>)
    requires forall i :: 0 <= i < |xs| ==> xs[i] != ""
    ensures NonBlank(xs) == xs
  {
    if xs != [] {
      NonBlankOfNonBlank(xs[1..]);
    }
  }

  lemma {:induction false} NonBlankAppend(xs: seq<string>, ys: seq<string>)
    ensures NonBlank(xs + ys) == NonBlank(xs) + NonBlank(ys)
  {
    if xs != [] {
      assert (xs + ys)[1..] == xs[1..] + ys;
      NonBlankAppend(xs[1..], ys);
    } else {
      assert xs + ys == ys;
    }
  }

  /** Dropping the blank lines of the layout gives the buckets' contents in order. */
  lemma {:induction false} LayoutNonBlank(bs: seq<seq<string>>)
    requires NoBlankLine(bs)
    ensures NonBlank(Layout(bs)) == Flatten(bs)
    decreases |bs|
  {
    var n := |bs|;
    if n == 1 {
      NonBlankOfNonBlank(bs[0]);
      assert Flatten(bs) == Flatten([]) + bs[0];
    } else if n > 1 {
      var init := bs[..n - 1];
      assert NoBlankLine(init) by {
        forall k, i | 0 <= k < |init| && 0 <= i < |init[k]| ensures init[k][i] != "" {
          assert init[k] == bs[k];
        }
      }
      LayoutNonBlank(init);
      NonBlankOfNonBlank(bs[n - 1]);
      var sep := Separator(bs[n - 2], bs[n - 1]);
      NonBlankAppend(Layout(init) + sep, bs[n - 1]);
      NonBlankAppend(Layout(init), sep);
      assert NonBlank(sep) == [];
    }
  }

  /** Every import line of a layout has the category of one of its buckets. */
  lemma {:induction false} LayoutCategories(bs: seq<seq<string>>)
    requires NoBlankLine(bs) && CategoryBuckets(bs)
    ensures CategoriesBelow(Layout(bs), |bs|)
    decreases |bs|
  {
    var n := |bs|;
    var l := Layout(bs);
    if n > 1 {
      var init := bs[..n - 1];
      InitBuckets(bs);
      LayoutCategories(init);
      var li := Layout(init);
      var sep := Separator(bs[n - 2], bs[n - 1]);
      var last := bs[n - 1];
      assert l == li + sep + last;
      forall i | 0 <= i < |l|
        ensures l[i] != "" ==> Category(l[i]) < n
      {
        if i < |li| {
          assert l[i] == li[i];
        } else if i >= |li| + |sep| {
          assert l[i] == last[i - |li| - |sep|];
        } else {
          assert l[i] == sep[i - |li|] == "";
        }
      }
    }
  }

  /**
   * A layout neither starts nor ends with a blank line; its last line is of
   * the last bucket's category when that bucket holds something, and of a
   * smaller one otherwise.
   */
  lemma {:induction false} LayoutEnds(bs: seq<seq<string>>)
    requires NoBlankLine(bs) && CategoryBuckets(bs)
    ensures Layout(bs) != [] ==> Layout(bs)[0] != "" && Layout(bs)[|Layout(bs)| - 1] != ""
    ensures bs != [] && bs[|bs| - 1] != [] ==>
      Layout(bs) != [] && Category(Layout(bs)[|Layout(bs)| - 1]) == |bs| - 1
    ensures bs != [] && bs[|bs| - 1] == [] && Layout(bs) != [] ==>
      Category(Layout(bs)[|Layout(bs)| - 1]) < |bs| - 1
    decreases |bs|
  {
    var n := |bs|;
    var l := Layout(bs);
    if n > 1 {
      var init := bs[..n - 1];
      InitBuckets(bs);
      LayoutEnds(init);
      LayoutCategories(init);
      var li := Layout(init);
      var sep := Separator(bs[n - 2], bs[n - 1]);
      var last := bs[n - 1];
      assert l == li + sep + last;
      if last != [] {
        assert l[|l| - 1] == last[|last| - 1];
      } else {
        assert l == li;
      }
      if li != [] {
        assert l[0] == li[0];
      } else {
        assert init[n - 2] == bs[n - 2];
        assert l == last;
      }
    }
  }

  /**
   * A blank line stands only between two import lines, and those are of
   * consecutive categories.
   */
  lemma {:induction false} LayoutBlankLines(bs: seq<seq<string>>)
    requires NoBlankLine(bs) && CategoryBuckets(bs)
    ensures BlanksSeparateCategories(Layout(bs))
    decreases |bs|
  {
    var n := |bs|;
    var l := Layout(bs);
    if n == 1 {
      assert l == bs[0];
    } else if n > 1 {
      var init := bs[..n - 1];
      InitBuckets(bs);
      LayoutBlankLines(init);
      LayoutEnds(init);
      var li := Layout(init);
      var sep := Separator(bs[n - 2], bs[n - 1]);
      var last := bs[n - 1];
      assert l == li + sep + last;
      assert init[n - 2] == bs[n - 2];
      assert forall k :: 0 <= k < |last| ==> last[k] != "" && Category(last[k]) == n - 1;
      BlanksAppend(li, sep, last, n - 1);
    }
  }

  /** One step of LayoutBlankLines: appending a separator and a bucket of category `c`. */
  lemma BlanksAppend(li: seq<string>, sep: seq<string>, last: seq<string>, c: nat)
    requires BlanksSeparateCategories(li)
    requires li != [] ==> li[|li| - 1] != ""
    requires forall k :: 0 <= k < |last| ==> last[k] != "" && Category(last[k]) == c
    requires sep == [] || (sep == [""] && li != [] && last != [] && Category(li[|li| - 1]) + 1 == c)
    ensures BlanksSeparateCategories(li + sep + last)
  {
    var l := li + sep + last;
    forall i | 0 <= i < |l| && l[i] == ""
      ensures 0 < i < |l| - 1 && l[i - 1] != "" && l[i + 1] != "" && Category(l[i + 1]) == Category(l[i - 1]) + 1
    {
      if i < |li| {
        assert l[i] == li[i];
        assert l[i - 1] == li[i - 1] && l[i + 1] == li[i + 1];
      } else {
        assert i == |li| && sep == [""];
        assert l[i - 1] == li[|li| - 1];
        assert l[i + 1] == last[0];
      }
    }
  }

  /**
   * Two adjacent import lines are of the same category, or of categories at
   * least two apart: an empty category between them suppresses the blank
   * line.
   */
  lemma {:induction false} LayoutAdjacentLines(bs: seq<seq<string>>)
    requires NoBlankLine(bs) && CategoryBuckets(bs)
    ensures AdjacentLinesGrouped(Layout(bs))
    decreases |bs|
  {
    var n := |bs|;
    var l := Layout(bs);
    if n == 1 {
      assert l == bs[0];
    } else if n > 1 {
      var init := bs[..n - 1];
      InitBuckets(bs);
      LayoutAdjacentLines(init);
      LayoutEnds(init);
      LayoutCategories(init);
      var li := Layout(init);
      var sep := Separator(bs[n - 2], bs[n - 1]);
      var last := bs[n - 1];
      assert l == li + sep + last;
      assert init[n - 2] == bs[n - 2];
      assert forall k :: 0 <= k < |last| ==> last[k] != "" && Category(last[k]) == n - 1;
      AdjacentAppend(li, sep, last, n - 1);
    }
  }

  /** One step of LayoutAdjacentLines: appending a separator and a bucket of category `c`. */
  lemma AdjacentAppend(li: seq<string>, sep: seq<string>, last: seq<string>, c: nat)
    requires AdjacentLinesGrouped(li)
    requires forall k :: 0 <= k < |li| && li[k] != "" ==> Category(li[k]) < c
    requires forall k :: 0 <= k < |last| ==> last[k] != "" && Category(last[k]) == c
    requires sep == [""] || (sep == [] && (li != [] && last != [] ==> Category(li[|li| - 1]) + 2 <= c))
    ensures AdjacentLinesGrouped(li + sep + last)
  {
    var l := li + sep + last;
    forall i | 0 <= i < |l| - 1 && l[i] != "" && l[i + 1] != ""
      ensures Category(l[i + 1]) == Category(l[i]) || Category(l[i + 1]) >= Category(l[i]) + 2
    {
      if i + 1 < |li| {
        assert l[i] == li[i] && l[i + 1] == li[i + 1];
      } else if i >= |li| + |sep| {
        assert l[i] == last[i - |li| - |sep|] && l[i + 1] == last[i + 1 - |li| - |sep|];
      } else {
        assert i == |li| - 1 && sep == [];
        assert l[i] == li[|li| - 1] && l[i + 1] == last[0];
      }
    }
  }

  // ---------------------------------------------------------------------
  // Properties of the buckets
  // ---------------------------------------------------------------------

  lemma {:induction false} BucketMembers(xs: seq<string>, c: nat)
    ensures forall e :: e in Bucket(xs, c) ==> e in xs && Category(e) == c
    decreases |xs|
  {
    if xs != [] {
      BucketMembers(xs[..|xs| - 1], c);
    }
  }

  /** Every import lands in exactly one bucket. */
  lemma BucketsPartition(xs: seq<string>)
    ensures multiset(Flatten(Buckets(xs))) == multiset(xs)
  {
    FlattenOfSix(Bucket(xs, 0), Bucket(xs, 1), Bucket(xs, 2), Bucket(xs, 3), Bucket(xs, 4), Bucket(xs, 5));
    BucketSum(xs);
  }

  lemma BucketSum(xs: seq<string>)
    ensures multiset(Bucket(xs, 0)) + multiset(Bucket(xs, 1)) + multiset(Bucket(xs, 2)) + multiset(Bucket(xs, 3))
      + multiset(Bucket(xs, 4)) + multiset(Bucket(xs, 5)) == multiset(xs)
  {
    BelowZero(xs);
    BelowSix(xs);
    SplitBelow(xs, 0, 1);
    SplitBelow(xs, 1, 2);
    SplitBelow(xs, 2, 3);
    SplitBelow(xs, 3, 4);
    SplitBelow(xs, 4, 5);
    SplitBelow(xs, 5, 6);
    SumOfSix(multiset(Below(xs, 0)), multiset(Below(xs, 1)), multiset(Below(xs, 2)), multiset(Below(xs, 3)),
             multiset(Below(xs, 4)), multiset(Below(xs, 5)), multiset(Below(xs, 6)),
             multiset(Bucket(xs, 0)), multiset(Bucket(xs, 1)), multiset(Bucket(xs, 2)),
             multiset(Bucket(xs, 3)), multiset(Bucket(xs, 4)), multiset(Bucket(xs, 5)));
  }

  /** Six steps of a running sum from the empty multiset. */
  lemma SumOfSix<T>(b0: multiset<T>, b1: multiset<T>, b2: multiset<T>, b3: multiset<T>, b4: multiset<T>, b5: multiset<T>, b6: multiset<T>,
                    m0: multiset<T>, m1: multiset<T>, m2: multiset<T>, m3: multiset<T>, m4: multiset<T>, m5: multiset<T>)
    requires b0 == multiset{} && b1 == b0 + m0 && b2 == b1 + m1 && b3 == b2 + m2
    requires b4 == b3 + m3 && b5 == b4 + m4 && b6 == b5 + m5
    ensures m0 + m1 + m2 + m3 + m4 + m5 == b6
  {
    assert b1 == m0;
  }

  /** The imports of a category below `c`, in their order in `xs`. */
  function Below(xs: seq<string>, c: nat): seq<string>
  {
    if xs == [] then []
    else Below(xs[..|xs| - 1], c) + (if Category(xs[|xs| - 1]) < c then [xs[|xs| - 1]] else [])
  }

  lemma {:induction false} SplitBelow(xs: seq<string>, c: nat, d: nat)
    requires d == c + 1
    ensures multiset(Below(xs, d)) == multiset(Below(xs, c)) + multiset(Bucket(xs, c))
    decreases |xs|
  {
    if xs != [] {
      SplitBelow(xs[..|xs| - 1], c, d);
    }
  }

  lemma {:induction false} BelowSix(xs: seq<string>)
    ensures Below(xs, 6) == xs
    decreases |xs|
  {
    if xs != [] {
      BelowSix(xs[..|xs| - 1]);
      assert xs == xs[..|xs| - 1] + [xs[|xs| - 1]];
    }
  }

  lemma {:induction false} BelowZero(xs: seq<string>)
    ensures Below(xs, 0) == []
    decreases |xs|
  {
    if xs != [] {
      BelowZero(xs[..|xs| - 1]);
    }
  }

  lemma FlattenOfSix(a: seq<string>, b: seq<string>, c: seq<string>, d: seq<string>, e: seq<string>, f: seq<string>)
    ensures Flatten([a, b, c, d, e, f]) == a + b + c + d + e + f
  {
    assert [a][..0] == [];
    assert Flatten([a]) == [] + a == a;
    assert [a, b][..1] == [a];
    assert Flatten([a, b]) == a + b;
    assert [a, b, c][..2] == [a, b];
    assert Flatten([a, b, c]) == a + b + c;
    assert [a, b, c, d][..3] == [a, b, c];
    assert Flatten([a, b, c, d]) == a + b + c + d;
    assert [a, b, c, d, e][..4] == [a, b, c, d];
    assert Flatten([a, b, c, d, e]) == a + b + c + d + e;
    assert [a, b, c, d, e, f][..5] == [a, b, c, d, e];
  }

  /** The import order of the rebuilt block: by category, then alphabetically. */
  predicate ImportOrder(a: string, b: string) {
    Category(a) < Category(b) || (Category(a) == Category(b) && StrLe(a, b))
  }

  predicate InImportOrder(xs: seq<string>) {
    forall i, j :: 0 <= i < j < |xs| ==> ImportOrder(xs[i], xs[j])
  }

  predicate AllPairsSorted(xs: seq<string>) {
    forall i, j :: 0 <= i < j < |xs| ==> StrLe(xs[i], xs[j])
  }

  /** A bucket of sorted imports is sorted. */
  lemma {:induction false} BucketSorted(xs: seq<string>, c: nat)
    requires AllPairsSorted(xs)
    ensures AllPairsSorted(Bucket(xs, c))
    decreases |xs|
  {
    if xs != [] {
      var init := xs[..|xs| - 1];
      var x := xs[|xs| - 1];
      assert AllPairsSorted(init);
      BucketSorted(init, c);
      BucketMembers(init, c);
      var b := Bucket(init, c);
      forall i | 0 <= i < |b| ensures StrLe(b[i], x) {
        assert b[i] in init;
        var k :| 0 <= k < |init| && init[k] == b[i];
        assert xs[k] == b[i];
      }
    }
  }

  /** Concatenated category buckets of sorted imports are in import order. */
  lemma {:induction false} FlattenInOrder(bs: seq<seq<string>>)
    requires CategoryBuckets(bs)
    requires forall k :: 0 <= k < |bs| ==> AllPairsSorted(bs[k])
    ensures InImportOrder(Flatten(bs))
    ensures forall i :: 0 <= i < |Flatten(bs)| ==> Category(Flatten(bs)[i]) < |bs|
    decreases |bs|
  {
    if bs != [] {
      var n := |bs|;
      var init := bs[..n - 1];
      assert CategoryBuckets(init) by {
        forall k, i | 0 <= k < |init| && 0 <= i < |init[k]| ensures Category(init[k][i]) == k {
          assert init[k] == bs[k];
        }
      }
      assert forall k :: 0 <= k < |init| ==> init[k] == bs[k];
      FlattenInOrder(init);
      var fi := Flatten(init);
      var last := bs[n - 1];
      var f := Flatten(bs);
      assert f == fi + last;
      forall i, j | 0 <= i < j < |f| ensures ImportOrder(f[i], f[j]) {
        if j < |fi| {
          assert f[i] == fi[i] && f[j] == fi[j];
        } else if i < |fi| {
          assert f[i] == fi[i] && f[j] == last[j - |fi|];
        } else {
          assert f[i] == last[i - |fi|] && f[j] == last[j - |fi|];
        }
      }
      forall i | 0 <= i < |f| ensures Category(f[i]) < n {
        if i < |fi| {
          assert f[i] == fi[i];
        } else {
          assert f[i] == last[i - |fi|];
        }
      }
    }
  }

  /**
   * The rebuilt import block: its non-blank lines are exactly the collected
   * imports (as a multiset), in import order; blank lines only separate
   * consecutive categories, and an empty category suppresses its blank line.
   */
  lemma ImportBlockLines(imports: seq<string>)
    requires forall k :: 0 <= k < |imports| ==> "import" <= imports[k]
    ensures multiset(NonBlank(ImportLines(SortStrings(imports)))) == multiset(imports)
    ensures InImportOrder(NonBlank(ImportLines(SortStrings(imports))))
    ensures BlanksSeparateCategories(ImportLines(SortStrings(imports)))
    ensures AdjacentLinesGrouped(ImportLines(SortStrings(imports)))
  {
    var bs := Buckets(SortStrings(imports));
    SortStringsCorrect(imports);
    SortedBuckets(imports, SortStrings(imports));
    LayoutNonBlank(bs);
    FlattenInOrder(bs);
    LayoutBlankLines(bs);
    LayoutAdjacentLines(bs);
  }

  /** The buckets of the sorted imports: well formed, sorted, and together the imports. */
  lemma SortedBuckets(imports: seq<string>, sorted: seq<string>)
    requires forall k :: 0 <= k < |imports| ==> "import" <= imports[k]
    requires Sorted(sorted) && multiset(sorted) == multiset(imports)
    ensures NoBlankLine(Buckets(sorted)) && CategoryBuckets(Buckets(sorted))
    ensures forall k :: 0 <= k < 6 ==> AllPairsSorted(Buckets(sorted)[k])
    ensures multiset(Flatten(Buckets(sorted))) == multiset(imports)
  {
    forall k | 0 <= k < |sorted| ensures "import" <= sorted[k] {
      assert sorted[k] in multiset(imports);
    }
    BucketsWellFormed(sorted);
    assert AllPairsSorted(sorted) by {
      forall i, j | 0 <= i < j < |sorted| ensures StrLe(sorted[i], sorted[j]) {
        SortedPair(sorted, i, j);
      }
    }
    forall k | 0 <= k < 6 ensures AllPairsSorted(Buckets(sorted)[k]) {
      BucketSorted(sorted, k);
    }
    BucketsPartition(sorted);
  }

  lemma BucketsWellFormed(xs: seq<string>)
    requires forall k :: 0 <= k < |xs| ==> "import" <= xs[k]
    ensures NoBlankLine(Buckets(xs)) && CategoryBuckets(Buckets(xs))
  {
    var bs := Buckets(xs);
    forall k, i | 0 <= k < |bs| && 0 <= i < |bs[k]| ensures bs[k][i] != "" && Category(bs[k][i]) == k {
      BucketMembers(xs, k);
      assert bs[k][i] in Bucket(xs, k);
      var m :| 0 <= m < |xs| && xs[m] == bs[k][i];
      assert |xs[m]| >= 6;
    }
  }

  /**
   * Where the rebuilt block goes (with the replacement quoted): right after
   * the first package declaration, separated by one empty line and followed
   * by a line break that stands in for the whitespace after the declaration.
   */
  lemma PlaceAfterPackage(without: string, block: string, j: nat, p: nat)
    requires FindPackage(without, 0) == Some((j, p))
    ensures PlaceBlock(without, block, true) ==
      Ok(without[..j] + (without[j..p + 1] + ("\n\n" + block + "\n")) + without[p + 1 + WsRun(without, p + 1)..])
  {
    PlaceAfterQuoted(without, block, j, p);
  }

  lemma PlaceAfterQuoted(without: string, block: string, j: nat, p: nat)
    requires j <= p < |without|
    ensures PlaceAfter(without, block, j, p, true) ==
      Ok(without[..j] + (without[j..p + 1] + ("\n\n" + block + "\n")) + without[p + 1 + WsRun(without, p + 1)..])
  {
    var e := p + 1 + WsRun(without, p + 1);
    GroupOneThenQuoted("\n\n" + block + "\n", [without[j..e], without[j..p + 1]]);
  }

  /** With the replacement quoted, the stage never fails. */
  lemma CleanupQuotedSucceeds(s: string)
    ensures CleanupImports(s, true).Ok?
  {
    if CollectImports(s, 0) != [] {
      var without := RemoveImports(s, 0);
      var pkg := FindPackage(without, 0);
      if pkg.Some? {
        PlaceAfterPackage(without, ImportBlock(s), pkg.value.0, pkg.value.1);
      }
    }
  }
}
