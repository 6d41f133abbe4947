/**
 * The .NET string helpers the composer relies on: the two blank tests
 * (`string.IsNullOrEmpty`, `string.IsNullOrWhiteSpace`) and `string.Join`.
 */
module Strings {
  import opened Wrappers

  /** `char.IsWhiteSpace`: the Unicode separators plus U+0009..U+000D, U+0085 and U+00A0. */
  predicate IsWhiteSpace(c: char): (r: bool)
    ensures (c == ' ' || c == '\t' || c == '\n' || c == '\r') ==> r
    ensures r ==> !('0' <= c <= '9' || 'A' <= c <= 'Z' || 'a' <= c <= 'z')
  {
    || ('\U{0009}' <= c <= '\U{000D}')
    || c == ' ' || c == '\U{0085}' || c == '\U{00A0}' || c == '\U{1680}'
    || ('\U{2000}' <= c <= '\U{200A}')
    || c == '\U{2028}' || c == '\U{2029}' || c == '\U{202F}' || c == '\U{205F}' || c == '\U{3000}'
  }

  /** `string.IsNullOrEmpty`: null, or no characters at all. It is stricter than the blank test. */
  predicate IsNullOrEmpty(s: Option<string>): (r: bool)
    ensures r ==> IsNullOrWhiteSpace(s)
  {
    s.None? || |s.value| == 0
  }

  /** Every character of `s` is white space. */
  predicate AllWhiteSpace(s: string): (r: bool)
    ensures r <==> forall i :: 0 <= i < |s| ==> IsWhiteSpace(s[i])
  {
    |s| == 0 || (IsWhiteSpace(s[0]) && AllWhiteSpace(s[1..]))
  }

  /** `string.IsNullOrWhiteSpace`: null, or every character is white space. */
  predicate IsNullOrWhiteSpace(s: Option<string>): (r: bool)
    ensures s.Some? ==> (r <==> forall i :: 0 <= i < |s.value| ==> IsWhiteSpace(s.value[i]))
    ensures s.None? ==> r
  {
    s.None? || AllWhiteSpace(s.value)
  }

  /** `string.Join(sep, xs)`: the elements in order, `sep` between neighbours. */
  function Join(sep: string, xs: seq<string>): (r: string)
    ensures |xs| == 1 ==> r == xs[0]
    ensures |xs| > 0 ==> |xs[0]| <= |r| && r[..|xs[0]|] == xs[0]
  {
    if |xs| == 0 then ""
    else if |xs| == 1 then xs[0]
    else xs[0] + sep + Join(sep, xs[1..])
  }

  /** The sum of the lengths of the elements. */
  function TotalLength(xs: seq<string>): nat
  {
    if |xs| == 0 then 0 else |xs[0]| + TotalLength(xs[1..])
  }

  /** Exactly one separator between each pair of neighbours and none elsewhere. */
  lemma {:induction false} JoinLength(sep: string, xs: seq<string>)
    ensures |Join(sep, xs)| == TotalLength(xs) + (if |xs| == 0 then 0 else |sep| * (|xs| - 1))
  {
    if |xs| > 1 {
      JoinLength(sep, xs[1..]);
    }
  }

  /** Joining a concatenation joins the parts with one separator between them. */
  lemma {:induction false} JoinAppend(sep: string, a: seq<string>, b: seq<string>)
    requires |a| > 0 && |b| > 0
    ensures Join(sep, a + b) == Join(sep, a) + sep + Join(sep, b)
  {
    assert (a + b)[1..] == a[1..] + b;
    if |a| > 1 {
      JoinAppend(sep, a[1..], b);
    }
  }

  /** A joined list starts with its first element and ends with its last one. */
  lemma {:induction false} JoinEnds(sep: string, xs: seq<string>)
    requires |xs| > 0
    ensures |xs[0]| <= |Join(sep, xs)| && Join(sep, xs)[..|xs[0]|] == xs[0]
    ensures |xs[|xs| - 1]| <= |Join(sep, xs)|
    ensures Join(sep, xs)[|Join(sep, xs)| - |xs[|xs| - 1]|..] == xs[|xs| - 1]
  {
    if |xs| > 1 {
      var n := |xs|;
      assert xs == xs[..n - 1] + [xs[n - 1]];
      JoinAppend(sep, xs[..n - 1], [xs[n - 1]]);
    }
  }

  /** The separator placed between skills. */
  const SkillSeparator: string := ", "

  /** No occurrence of the skill separator inside `s`. */
  predicate FreeOfSeparator(s: string) {
    forall i :: 0 <= i < |s| - 1 ==> !(s[i] == ',' && s[i + 1] == ' ')
  }

  /**
   * Cuts `s` at every occurrence of ", ", scanning left to right. The pieces
   * always join back to `s`; `SplitJoin` gives the list back for non-empty
   * lists whose elements do not contain ", ".
   */
  function Split(s: string): (r: seq<string>)
    ensures |r| >= 1
    ensures Join(SkillSeparator, r) == s
  {
    if |s| == 0 then [""]
    else if |s| >= 2 && s[0] == ',' && s[1] == ' ' then
      var rest := Split(s[2..]);
      assert ([""] + rest)[1..] == rest;
      [""] + rest
    else
      var rest := Split(s[1..]);
      assert ([[s[0]] + rest[0]] + rest[1..])[1..] == rest[1..];
      [[s[0]] + rest[0]] + rest[1..]
  }

  lemma {:induction false} SplitFree(x: string)
    requires FreeOfSeparator(x)
    ensures Split(x) == [x]
  {
    if |x| > 0 {
      assert FreeOfSeparator(x[1..]) by {
        forall i | 0 <= i < |x[1..]| - 1 ensures !(x[1..][i] == ',' && x[1..][i + 1] == ' ') {
          assert x[1..][i] == x[i + 1] && x[1..][i + 1] == x[i + 2];
        }
      }
      SplitFree(x[1..]);
      assert [x[0]] + x[1..] == x;
    }
  }

  lemma {:induction false} SplitPrefix(x: string, t: string)
    requires FreeOfSeparator(x)
    ensures Split(x + SkillSeparator + t) == [x] + Split(t)
  {
    var s := x + SkillSeparator + t;
    if |x| == 0 {
      assert s == ", " + t && s[2..] == t;
    } else {
      assert FreeOfSeparator(x[1..]) by {
        forall i | 0 <= i < |x[1..]| - 1 ensures !(x[1..][i] == ',' && x[1..][i + 1] == ' ') {
          assert x[1..][i] == x[i + 1] && x[1..][i + 1] == x[i + 2];
        }
      }
      assert !(s[0] == ',' && s[1] == ' ') by {
        if |x| == 1 {
          assert s[1] == ',';
        } else {
          assert s[0] == x[0] && s[1] == x[1];
        }
      }
      assert s[1..] == x[1..] + SkillSeparator + t;
      SplitPrefix(x[1..], t);
      assert [x[0]] + x[1..] == x;
    }
  }

  /**
   * Joining with ", " loses nothing when no element contains ", ": splitting
   * the joined text gives back the list, element by element and in order.
   */
  lemma {:induction false} SplitJoin(xs: seq<string>)
    requires |xs| > 0
    requires forall i :: 0 <= i < |xs| ==> FreeOfSeparator(xs[i])
    ensures Split(Join(SkillSeparator, xs)) == xs
  {
    if |xs| == 1 {
      SplitFree(xs[0]);
    } else {
      SplitJoin(xs[1..]);
      SplitPrefix(xs[0], Join(SkillSeparator, xs[1..]));
      assert [xs[0]] + xs[1..] == xs;
    }
  }
}
