/**
 * The replacement-string language of java.util.regex.Matcher:
 * appendReplacement, replaceAll and replaceFirst do not copy their
 * replacement argument literally; `\x` stands for the character x and `$n`
 * for the text of capture group n (group 0 is the whole match). A malformed
 * reference is an unchecked exception (IllegalArgumentException or
 * IndexOutOfBoundsException). Matcher.quoteReplacement escapes a text so
 * that it is copied literally.
 */
module Matcher {
  import opened Text

  /**
   * After the first digit of a `$` reference, Java keeps taking digits as
   * long as the number still names an existing group. Returns the group
   * number and how many further characters of `s` it used.
   */
  function ExtendGroupRef(s: string, ref: nat, groupCount: nat): (r: (nat, nat))
    ensures r.1 <= |s|
    ensures r.0 >= ref
    ensures r.1 > 0 ==> r.0 <= groupCount
    decreases |s|
  {
    if s != [] && IsDigit(s[0]) && ref * 10 + DigitValue(s[0]) <= groupCount then
      var (g, used) := ExtendGroupRef(s[1..], ref * 10 + DigitValue(s[0]), groupCount);
      (g, used + 1)
    else
      (ref, 0)
  }

  /**
   * The text appendReplacement appends for replacement `rep`, given the
   * texts of the groups of the current match (`groups[0]` is the whole
   * match); Err when Java throws.
   */
  function Expand(rep: string, groups: seq<string>): Result<string>
    requires |groups| >= 1
    decreases |rep|
  {
    if rep == [] then Ok([])
    else if rep[0] == '\\' then
      if |rep| == 1 then Err("character to be escaped is missing")
      else
        var rest :- Expand(rep[2..], groups);
        Ok([rep[1]] + rest)
    else if rep[0] == '$' then
      if |rep| == 1 then Err("Illegal group reference: group index is missing")
      else if rep[1] == '{' then Err("No group with name")
      else if !IsDigit(rep[1]) then Err("Illegal group reference")
      else
        var (g, used) := ExtendGroupRef(rep[2..], DigitValue(rep[1]), |groups| - 1);
        if g >= |groups| then Err("No group " + NatToString(g))
        else
          var rest :- Expand(rep[2 + used..], groups);
          Ok(groups[g] + rest)
    else
      var rest :- Expand(rep[1..], groups);
      Ok([rep[0]] + rest)
  }

  /** The characters the replacement language gives a meaning to. */
  predicate IsSpecial(c: char) {
    c == '\\' || c == '$'
  }

  predicate HasSpecial(s: string) {
    exists i :: 0 <= i < |s| && IsSpecial(s[i])
  }

  /** Matcher.quoteReplacement: a backslash before every `\` and `$`. */
  function QuoteReplacement(s: string): (r: string)
    ensures !HasSpecial(s) ==> r == s
    decreases |s|
  {
    if s == [] then []
    else if IsSpecial(s[0]) then ['\\', s[0]] + QuoteReplacement(s[1..])
    else
      assert !HasSpecial(s) ==> !HasSpecial(s[1..]) by {
        if HasSpecial(s[1..]) {
          var i :| 0 <= i < |s[1..]| && IsSpecial(s[1..][i]);
          assert IsSpecial(s[i + 1]);
        }
      }
      [s[0]] + QuoteReplacement(s[1..])
  }

  /** A quoted text is expanded back to itself, whatever the groups are. */
  lemma {:induction false} ExpandQuoted(s: string, groups: seq<string>)
    requires |groups| >= 1
    ensures Expand(QuoteReplacement(s), groups) == Ok(s)
    decreases |s|
  {
    if s != [] {
      ExpandQuoted(s[1..], groups);
      var q := QuoteReplacement(s);
      if IsSpecial(s[0]) {
        assert q[2..] == QuoteReplacement(s[1..]);
      } else {
        assert q[1..] == QuoteReplacement(s[1..]);
      }
      assert s == [s[0]] + s[1..];
    }
  }

  /** A replacement without `\` and `$` is copied literally. */
  lemma ExpandPlain(s: string, groups: seq<string>)
    requires |groups| >= 1 && !HasSpecial(s)
    ensures Expand(s, groups) == Ok(s)
  {
    ExpandQuoted(s, groups);
  }

  /**
   * The replacement "$1" + t + "$2" (t free of `\` and `$`) yields the
   * first group, t, and the second group: the form the annotation rename
   * uses to keep both delimiters.
   */
  lemma {:induction false} ExpandKeepsDelimiters(t: string, groups: seq<string>)
    requires |groups| == 3 && !HasSpecial(t)
    ensures Expand("$1" + t + "$2", groups) == Ok(groups[1] + t + groups[2])
  {
    var rep := "$1" + t + "$2";
    assert rep[0] == '$' && rep[1] == '1' && rep[2..] == t + "$2";
    assert DigitValue(rep[1]) == 1;
    assert ExtendGroupRef(rep[2..], 1, 2) == (1, 0);
    ExpandThenGroup(t, groups);
    assert Expand(rep[2..], groups) == Ok(t + groups[2]);
    assert Expand(rep, groups) == Ok(groups[1] + (t + groups[2]));
    assert groups[1] + (t + groups[2]) == groups[1] + t + groups[2];
  }

  lemma {:induction false} ExpandThenGroup(t: string, groups: seq<string>)
    requires |groups| == 3 && !HasSpecial(t)
    ensures Expand(t + "$2", groups) == Ok(t + groups[2])
    decreases |t|
  {
    if t == [] {
      var r := "$2";
      assert r[0] == '$' && r[1] == '2' && DigitValue(r[1]) == 2;
      assert ExtendGroupRef(r[2..], 2, 2) == (2, 0);
      assert Expand(r[2..], groups) == Ok([]);
      assert groups[2] + [] == groups[2];
      assert Expand(r, groups) == Ok(groups[2]);
      assert t + "$2" == r && t + groups[2] == groups[2];
    } else {
      assert !HasSpecial(t[1..]);
      var u := t + "$2";
      assert u[0] == t[0] && !IsSpecial(u[0]);
      assert u[1..] == t[1..] + "$2";
      ExpandThenGroup(t[1..], groups);
      assert Expand(u[1..], groups) == Ok(t[1..] + groups[2]);
      assert Expand(u, groups) == Ok([u[0]] + (t[1..] + groups[2]));
      assert [u[0]] + (t[1..] + groups[2]) == t + groups[2];
    }
  }

  lemma {:induction false} QuoteConcat(a: string, b: string)
    ensures QuoteReplacement(a + b) == QuoteReplacement(a) + QuoteReplacement(b)
    decreases |a|
  {
    if a != [] {
      assert (a + b)[1..] == a[1..] + b;
      QuoteConcat(a[1..], b);
    } else {
      assert a + b == b;
    }
  }

  /**
   * With one capture group, "$1" followed by a quoted text yields the group
   * and then the text: a digit after "$1" cannot extend the reference to a
   * group that does not exist.
   */
  lemma GroupOneThenQuoted(u: string, groups: seq<string>)
    requires |groups| == 2
    ensures Expand("$1" + QuoteReplacement(u), groups) == Ok(groups[1] + u)
  {
    var rep := "$1" + QuoteReplacement(u);
    assert rep[0] == '$' && rep[1] == '1' && DigitValue(rep[1]) == 1;
    assert rep[2..] == QuoteReplacement(u);
    assert ExtendGroupRef(rep[2..], 1, 1) == (1, 0);
    ExpandQuoted(u, groups);
  }
}
