/**
 * String helpers shared by the model: Java's character classes, the
 * java.lang.String operations the migration tool relies on (startsWith,
 * contains, trim, literal replace, toLowerCase/toUpperCase on ASCII,
 * decimal rendering of integers) and the lexicographic order used by
 * String.compareTo, together with an insertion sort over it.
 */
module Text {

  /** Absent / present value; Java's `null` becomes None. */
  datatype Option<T> = None | Some(value: T)

  /** A value or the message of the exception that replaced it. */
  datatype Result<T> = Ok(value: T) | Err(error: string) {
    predicate IsFailure() { Err? }
    function PropagateFailure<U>(): Result<U>
      requires Err?
    {
      Err(error)
    }
    function Extract(): T
      requires Ok?
    {
      value
    }
  }

  // ---------------------------------------------------------------------
  // Character classes
  // ---------------------------------------------------------------------

  /** `\s` of java.util.regex without UNICODE_CHARACTER_CLASS: [ \t\n\x0B\f\r]. */
  predicate IsJavaWhitespace(c: char) {
    c == ' ' || c == '\t' || c == '\n' || c == '\U{000B}' || c == '\U{000C}' || c == '\r'
  }

  /** The characters after which `^` matches in MULTILINE mode (and which `.` refuses). */
  predicate IsLineTerminator(c: char) {
    c == '\n' || c == '\r' || c == '\U{0085}' || c == '\U{2028}' || c == '\U{2029}'
  }

  /** `\w`: [a-zA-Z_0-9]. */
  predicate IsWordChar(c: char) {
    ('a' <= c <= 'z') || ('A' <= c <= 'Z') || ('0' <= c <= '9') || c == '_'
  }

  predicate IsDigit(c: char) {
    '0' <= c <= '9'
  }

  /** The characters String.trim() removes: every code point up to U+0020. */
  predicate IsTrimmable(c: char) {
    c <= ' '
  }

  /** The length of the run of `\s` characters that starts at `i`. */
  function WsRun(s: string, i: nat): (n: nat)
    requires i <= |s|
    ensures i + n <= |s|
    ensures forall k :: i <= k < i + n ==> IsJavaWhitespace(s[k])
    ensures i + n < |s| ==> !IsJavaWhitespace(s[i + n])
    decreases |s| - i
  {
    if i < |s| && IsJavaWhitespace(s[i]) then 1 + WsRun(s, i + 1) else 0
  }

  // ---------------------------------------------------------------------
  // Searching
  // ---------------------------------------------------------------------

  predicate EndsWith(s: string, suffix: string) {
    |suffix| <= |s| && s[|s| - |suffix|..] == suffix
  }

  /** String.contains: `t` occurs somewhere in `s`. */
  predicate Contains(s: string, t: string)
    decreases |s|
  {
    t <= s || (s != [] && Contains(s[1..], t))
  }

  lemma {:induction false} ContainsAt(s: string, t: string, i: nat)
    requires i + |t| <= |s| && s[i..i + |t|] == t
    ensures Contains(s, t)
    decreases i
  {
    if i == 0 {
      assert t <= s;
    } else {
      assert s[1..][i - 1..i - 1 + |t|] == t;
      ContainsAt(s[1..], t, i - 1);
    }
  }

  lemma {:induction false} ContainsWitness(s: string, t: string) returns (i: nat)
    requires Contains(s, t)
    ensures i + |t| <= |s| && s[i..i + |t|] == t
    decreases |s|
  {
    if t <= s {
      i := 0;
    } else {
      var j := ContainsWitness(s[1..], t);
      assert s[1..][j..j + |t|] == s[j + 1..j + 1 + |t|];
      i := j + 1;
    }
  }

  // ---------------------------------------------------------------------
  // String.trim()
  // ---------------------------------------------------------------------

  function TrimStart(s: string): (r: string)
    ensures |r| <= |s| && r == s[|s| - |r|..]
    ensures r == [] || !IsTrimmable(r[0])
    ensures forall i :: 0 <= i < |s| - |r| ==> IsTrimmable(s[i])
    decreases |s|
  {
    if s != [] && IsTrimmable(s[0]) then TrimStart(s[1..]) else s
  }

  function TrimEnd(s: string): (r: string)
    ensures |r| <= |s| && r == s[..|r|]
    ensures r == [] || !IsTrimmable(r[|r| - 1])
    ensures forall i :: |r| <= i < |s| ==> IsTrimmable(s[i])
    decreases |s|
  {
    if s != [] && IsTrimmable(s[|s| - 1]) then TrimEnd(s[..|s| - 1]) else s
  }

  /**
   * String.trim(): the longest infix that neither starts nor ends with a
   * character up to U+0020; everything cut off on either side is such a
   * character.
   */
  function Trim(s: string): (r: string)
    ensures Contains(s, r)
    ensures r == [] || (!IsTrimmable(r[0]) && !IsTrimmable(r[|r| - 1]))
    ensures (forall i :: 0 <= i < |s| ==> !IsTrimmable(s[i])) ==> r == s
  {
    TrimContained(s);
    TrimEdges(s);
    TrimUntouched(s);
    TrimEnd(TrimStart(s))
  }

  lemma TrimContained(s: string)
    ensures Contains(s, TrimEnd(TrimStart(s)))
  {
    var a := TrimStart(s);
    PrefixOfSuffix(s, a, TrimEnd(a));
  }

  /** A prefix of a suffix of `s` occurs in `s`. */
  lemma PrefixOfSuffix(s: string, a: string, r: string)
    requires |a| <= |s| && a == s[|s| - |a|..]
    requires |r| <= |a| && r == a[..|r|]
    ensures Contains(s, r)
  {
    var k := |s| - |a|;
    assert s[k..][..|r|] == s[k..k + |r|];
    ContainsAt(s, r, k);
  }

  lemma TrimEdges(s: string)
    ensures var r := TrimEnd(TrimStart(s)); r == [] || (!IsTrimmable(r[0]) && !IsTrimmable(r[|r| - 1]))
  {
    var a := TrimStart(s);
    var r := TrimEnd(a);
    if r != [] {
      assert r[0] == a[0];
    }
  }

  lemma TrimUntouched(s: string)
    ensures (forall i :: 0 <= i < |s| ==> !IsTrimmable(s[i])) ==> TrimEnd(TrimStart(s)) == s
  {
    if forall i :: 0 <= i < |s| ==> !IsTrimmable(s[i]) {
      TrimKeeps(s);
    }
  }

  /** Trim leaves alone a text that neither starts nor ends with a trimmable character. */
  lemma TrimFixed(s: string)
    requires s != [] && !IsTrimmable(s[0]) && !IsTrimmable(s[|s| - 1])
    ensures Trim(s) == s
  {
    assert TrimStart(s) == s;
    assert TrimEnd(s) == s;
  }

  lemma TrimKeeps(s: string)
    requires forall i :: 0 <= i < |s| ==> !IsTrimmable(s[i])
    ensures TrimStart(s) == s && TrimEnd(s) == s
  {
  }

  // ---------------------------------------------------------------------
  // String.replace(CharSequence, CharSequence) and literal replaceAll
  // ---------------------------------------------------------------------

  /**
   * Replaces, from left to right, every non-overlapping occurrence of the
   * non-empty literal `pat` by `rep`.
   */
  function ReplaceAll(s: string, pat: string, rep: string): string
    requires pat != []
    decreases |s|
  {
    if s == [] then []
    else if pat <= s then rep + ReplaceAll(s[|pat|..], pat, rep)
    else [s[0]] + ReplaceAll(s[1..], pat, rep)
  }

  /** The pieces of `s` between the occurrences ReplaceAll replaces. */
  function SplitOn(s: string, pat: string): (parts: seq<string>)
    requires pat != []
    ensures |parts| >= 1
    decreases |s|
  {
    if s == [] then [[]]
    else if pat <= s then [[]] + SplitOn(s[|pat|..], pat)
    else
      var rest := SplitOn(s[1..], pat);
      [[s[0]] + rest[0]] + rest[1..]
  }

  /** String.join(sep, parts). */
  function JoinWith(parts: seq<string>, sep: string): string
    decreases |parts|
  {
    if parts == [] then []
    else if |parts| == 1 then parts[0]
    else parts[0] + sep + JoinWith(parts[1..], sep)
  }

  lemma {:induction false} JoinWithConsChar(c: char, parts: seq<string>, sep: string)
    requires parts != []
    ensures JoinWith([[c] + parts[0]] + parts[1..], sep) == [c] + JoinWith(parts, sep)
  {
    var q := [[c] + parts[0]] + parts[1..];
    if |parts| > 1 {
      assert q[1..] == parts[1..];
    }
  }

  /** ReplaceAll is join-by-`rep` of the pieces between the replaced occurrences. */
  lemma {:induction false} ReplaceAllIsJoinOfSplit(s: string, pat: string, rep: string)
    requires pat != []
    ensures ReplaceAll(s, pat, rep) == JoinWith(SplitOn(s, pat), rep)
    decreases |s|
  {
    if s == [] {
    } else if pat <= s {
      var rest := SplitOn(s[|pat|..], pat);
      ReplaceAllIsJoinOfSplit(s[|pat|..], pat, rep);
      assert ReplaceAll(s, pat, rep) == rep + JoinWith(rest, rep);
      var parts := [[]] + rest;
      assert SplitOn(s, pat) == parts;
      assert parts[1..] == rest;
      assert JoinWith(parts, rep) == [] + rep + JoinWith(rest, rep);
    } else {
      var rest := SplitOn(s[1..], pat);
      ReplaceAllIsJoinOfSplit(s[1..], pat, rep);
      assert ReplaceAll(s, pat, rep) == [s[0]] + JoinWith(rest, rep);
      assert SplitOn(s, pat) == [[s[0]] + rest[0]] + rest[1..];
      JoinWithConsChar(s[0], rest, rep);
    }
  }

  /** No piece of the split contains the pattern: every occurrence was replaced. */
  lemma {:induction false} SplitPiecesArePatternFree(s: string, pat: string)
    requires pat != []
    ensures forall piece :: piece in SplitOn(s, pat) ==> !Contains(piece, pat)
    ensures SplitOn(s, pat)[0] <= s
    decreases |s|
  {
    if s == [] {
      assert !Contains([], pat);
    } else if pat <= s {
      SplitPiecesArePatternFree(s[|pat|..], pat);
      assert !Contains([], pat);
    } else {
      SplitPiecesArePatternFree(s[1..], pat);
      var rest := SplitOn(s[1..], pat);
      var head := [s[0]] + rest[0];
      assert head <= s;
      assert (head)[1..] == rest[0];
      assert !Contains(head, pat);
      forall piece | piece in SplitOn(s, pat)
        ensures !Contains(piece, pat)
      {
        if piece != head {
          assert piece in rest[1..];
        }
      }
    }
  }

  /** Joining the pieces with the pattern itself gives back the input. */
  lemma {:induction false} SplitJoinRoundTrip(s: string, pat: string)
    requires pat != []
    ensures JoinWith(SplitOn(s, pat), pat) == s
    decreases |s|
  {
    ReplaceAllIsJoinOfSplit(s, pat, pat);
    ReplaceBySelf(s, pat);
  }

  lemma {:induction false} ReplaceBySelf(s: string, pat: string)
    requires pat != []
    ensures ReplaceAll(s, pat, pat) == s
    decreases |s|
  {
    if s == [] {
    } else if pat <= s {
      ReplaceBySelf(s[|pat|..], pat);
      assert s == pat + s[|pat|..];
    } else {
      ReplaceBySelf(s[1..], pat);
      assert s == [s[0]] + s[1..];
    }
  }

  /** A string without the pattern comes back unchanged. */
  lemma {:induction false} ReplaceAbsent(s: string, pat: string, rep: string)
    requires pat != [] && !Contains(s, pat)
    ensures ReplaceAll(s, pat, rep) == s
    decreases |s|
  {
    if s != [] {
      ReplaceAbsent(s[1..], pat, rep);
      assert s == [s[0]] + s[1..];
    }
  }

  // ---------------------------------------------------------------------
  // ASCII case mapping (String.toLowerCase / toUpperCase on ASCII input)
  // ---------------------------------------------------------------------

  function LowerChar(c: char): char {
    if 'A' <= c <= 'Z' then (c as int + 32) as char else c
  }

  function UpperChar(c: char): char {
    if 'a' <= c <= 'z' then (c as int - 32) as char else c
  }

  function ToLower(s: string): (r: string)
    ensures |r| == |s| && forall i :: 0 <= i < |s| ==> r[i] == LowerChar(s[i])
  {
    seq(|s|, i requires 0 <= i < |s| => LowerChar(s[i]))
  }

  function ToUpper(s: string): (r: string)
    ensures |r| == |s| && forall i :: 0 <= i < |s| ==> r[i] == UpperChar(s[i])
  {
    seq(|s|, i requires 0 <= i < |s| => UpperChar(s[i]))
  }

  /** Lower-casing forgets an earlier upper-casing: keys compare case-insensitively. */
  lemma LowerOfUpper(s: string)
    ensures ToLower(ToUpper(s)) == ToLower(s)
  {
    var a, b := ToLower(ToUpper(s)), ToLower(s);
    assert forall i :: 0 <= i < |s| ==> a[i] == b[i];
  }

  // ---------------------------------------------------------------------
  // Decimal rendering (Integer.toString, "%d") and its inverse
  // ---------------------------------------------------------------------

  function DigitChar(d: nat): char
    requires d < 10
  {
    ('0' as int + d) as char
  }

  function DigitValue(c: char): nat
    requires IsDigit(c)
  {
    c as int - '0' as int
  }

  predicate AllDigits(s: string) {
    forall i :: 0 <= i < |s| ==> IsDigit(s[i])
  }

  function NatToString(n: nat): (r: string)
    ensures r != [] && AllDigits(r)
    decreases n
  {
    if n < 10 then [DigitChar(n)] else NatToString(n / 10) + [DigitChar(n % 10)]
  }

  /** Java's decimal rendering of a (signed) integer. */
  function IntToString(i: int): string {
    if i < 0 then "-" + NatToString(-i) else NatToString(i)
  }

  function ParseNat(s: string): nat
    requires AllDigits(s)
    decreases |s|
  {
    if s == [] then 0 else ParseNat(s[..|s| - 1]) * 10 + DigitValue(s[|s| - 1])
  }

  lemma {:induction false} ParseNatToString(n: nat)
    ensures ParseNat(NatToString(n)) == n
    decreases n
  {
    if n >= 10 {
      var s := NatToString(n);
      assert s[..|s| - 1] == NatToString(n / 10);
      ParseNatToString(n / 10);
    }
  }

  /** A rendered integer holds only digits and a leading minus sign. */
  lemma IntToStringChars(i: int)
    ensures IntToString(i) != []
    ensures forall k :: 0 <= k < |IntToString(i)| ==> IsDigit(IntToString(i)[k]) || IntToString(i)[k] == '-'
  {
  }

  /** Different integers render differently. */
  lemma IntToStringInjective(a: int, b: int)
    requires IntToString(a) == IntToString(b)
    ensures a == b
  {
    if a < 0 && b < 0 {
      assert NatToString(-a) == IntToString(a)[1..];
      assert NatToString(-b) == IntToString(b)[1..];
      ParseNatToString(-a);
      ParseNatToString(-b);
    } else if a >= 0 && b >= 0 {
      ParseNatToString(a);
      ParseNatToString(b);
    } else {
      LeadingDigit(if a < 0 then b else a);
      assert false;
    }
  }

  lemma LeadingDigit(n: nat)
    ensures NatToString(n)[0] != '-'
  {
  }

  // ---------------------------------------------------------------------
  // String.compareTo order and sorting
  // ---------------------------------------------------------------------

  /** Lexicographic order on code points. String.compareTo compares UTF-16 code units; the two differ only when a supplementary character meets one in U+E000 to U+FFFF. */
  predicate StrLe(a: string, b: string)
    decreases |a|
  {
    a == [] || (b != [] && (a[0] < b[0] || (a[0] == b[0] && StrLe(a[1..], b[1..]))))
  }

  lemma {:induction false} StrLeTotal(a: string, b: string)
    ensures StrLe(a, b) || StrLe(b, a)
    decreases |a|
  {
    if a != [] && b != [] && a[0] == b[0] {
      StrLeTotal(a[1..], b[1..]);
    }
  }

  lemma {:induction false} StrLeAntisymmetric(a: string, b: string)
    requires StrLe(a, b) && StrLe(b, a)
    ensures a == b
    decreases |a|
  {
    if a != [] {
      StrLeAntisymmetric(a[1..], b[1..]);
      assert a == [a[0]] + a[1..] && b == [b[0]] + b[1..];
    }
  }

  lemma {:induction false} StrLeTransitive(a: string, b: string, c: string)
    requires StrLe(a, b) && StrLe(b, c)
    ensures StrLe(a, c)
    decreases |a|
  {
    if a != [] && a[0] == b[0] && b[0] == c[0] {
      StrLeTransitive(a[1..], b[1..], c[1..]);
    }
  }

  predicate Sorted(xs: seq<string>) {
    forall i :: 0 < i < |xs| ==> StrLe(xs[i - 1], xs[i])
  }

  /** Adjacent order extends to every pair. */
  lemma {:induction false} SortedPair(xs: seq<string>, i: nat, j: nat)
    requires Sorted(xs) && i <= j < |xs|
    ensures StrLe(xs[i], xs[j])
    decreases j - i
  {
    if i == j {
      StrLeReflexive(xs[i]);
    } else {
      SortedPair(xs, i, j - 1);
      StrLeTransitive(xs[i], xs[j - 1], xs[j]);
    }
  }

  lemma {:induction false} StrLeReflexive(a: string)
    ensures StrLe(a, a)
    decreases |a|
  {
    if a != [] {
      StrLeReflexive(a[1..]);
    }
  }

  function InsertSorted(x: string, ys: seq<string>): seq<string>
    decreases |ys|
  {
    if ys == [] || StrLe(x, ys[0]) then [x] + ys else [ys[0]] + InsertSorted(x, ys[1..])
  }

  /** List.sort(String::compareTo), as an insertion sort. */
  function SortStrings(xs: seq<string>): seq<string>
    decreases |xs|
  {
    if xs == [] then [] else InsertSorted(xs[0], SortStrings(xs[1..]))
  }

  lemma {:induction false} InsertSortedCorrect(x: string, ys: seq<string>)
    requires Sorted(ys)
    ensures Sorted(InsertSorted(x, ys))
    ensures multiset(InsertSorted(x, ys)) == multiset(ys) + multiset{x}
    ensures InsertSorted(x, ys) != []
    ensures InsertSorted(x, ys)[0] == x || (ys != [] && InsertSorted(x, ys)[0] == ys[0])
    decreases |ys|
  {
    if ys == [] || StrLe(x, ys[0]) {
    } else {
      StrLeTotal(x, ys[0]);
      InsertSortedCorrect(x, ys[1..]);
      var t := InsertSorted(x, ys[1..]);
      assert ys == [ys[0]] + ys[1..];
      var r := [ys[0]] + t;
      forall i | 0 < i < |r|
        ensures StrLe(r[i - 1], r[i])
      {
        if i > 1 {
          assert r[i - 1] == t[i - 2] && r[i] == t[i - 1];
        }
      }
    }
  }

  /** The sort returns a sorted permutation of its input. */
  lemma {:induction false} SortStringsCorrect(xs: seq<string>)
    ensures Sorted(SortStrings(xs))
    ensures multiset(SortStrings(xs)) == multiset(xs)
    decreases |xs|
  {
    if xs != [] {
      SortStringsCorrect(xs[1..]);
      InsertSortedCorrect(xs[0], SortStrings(xs[1..]));
      assert xs == [xs[0]] + xs[1..];
    }
  }
}
