/**
 * The string operations of Go's `strings` and `fmt` packages that the diagnostic
 * engine relies on, over Dafny strings (sequences of characters).
 */
module Text {

  /** `strings.HasPrefix(s, p)`. */
  predicate HasPrefix(s: string, p: string) {
    |p| <= |s| && s[..|p|] == p
  }

  /** `strings.Contains(s, sub)`: `sub` occurs somewhere in `s`. */
  predicate Contains(s: string, sub: string) {
    exists i | 0 <= i <= |s| :: HasPrefix(s[i..], sub)
  }

  /** A witness position proves containment. */
  lemma ContainsAt(s: string, sub: string, i: nat)
    requires i <= |s| && HasPrefix(s[i..], sub)
    ensures Contains(s, sub)
  {
  }

  /** Text cannot occur where its first character never appears early enough. */
  lemma NotContainsFirst(s: string, sub: string)
    requires |sub| > 0
    requires forall i :: 0 <= i && i + |sub| <= |s| ==> s[i] != sub[0]
    ensures !Contains(s, sub)
  {
    forall i | 0 <= i <= |s| ensures !HasPrefix(s[i..], sub) {
      if i + |sub| <= |s| {
        assert s[i..][0] == s[i];
      }
    }
  }

  /** Containment survives appending text on either side. */
  lemma ContainsExtend(s: string, sub: string, pre: string, post: string)
    requires Contains(s, sub)
    ensures Contains(pre + s + post, sub)
  {
    var i :| 0 <= i <= |s| && HasPrefix(s[i..], sub);
    var t := pre + s + post;
    assert t[|pre| + i..][..|sub|] == s[i..][..|sub|];
    ContainsAt(t, sub, |pre| + i);
  }

  /** `sub` occurs in `s` starting at position `p`. */
  predicate OccursAt(s: string, sub: string, p: nat) {
    p <= |s| && HasPrefix(s[p..], sub)
  }

  /** Text placed between two others occurs right after the first. */
  lemma OccursMiddle(a: string, x: string, b: string)
    ensures OccursAt(a + x + b, x, |a|)
  {
    assert (a + x + b)[|a|..][..|x|] == x;
  }

  /** An occurrence moves by the length of the text prepended, and survives text appended. */
  lemma OccursExtend(s: string, x: string, p: nat, pre: string, post: string)
    requires OccursAt(s, x, p)
    ensures OccursAt(pre + s + post, x, |pre| + p)
  {
    assert (pre + s + post)[|pre| + p..][..|x|] == s[p..][..|x|];
  }

  /** A prefix stays a prefix when text is appended. */
  lemma HasPrefixExtend(s: string, p: string, post: string)
    requires HasPrefix(s, p)
    ensures HasPrefix(s + post, p)
  {
    assert (s + post)[..|p|] == s[..|p|];
  }

  /** Containment survives appending text after. */
  lemma ContainsBefore(s: string, sub: string, post: string)
    requires Contains(s, sub)
    ensures Contains(s + post, sub)
  {
    var i :| 0 <= i <= |s| && HasPrefix(s[i..], sub);
    assert (s + post)[i..][..|sub|] == s[i..][..|sub|];
    ContainsAt(s + post, sub, i);
  }

  /** Containment survives prepending text. */
  lemma ContainsAfter(s: string, sub: string, pre: string)
    requires Contains(s, sub)
    ensures Contains(pre + s, sub)
  {
    var i :| 0 <= i <= |s| && HasPrefix(s[i..], sub);
    assert (pre + s)[|pre| + i..] == s[i..];
    ContainsAt(pre + s, sub, |pre| + i);
  }

  /** Text placed between two others occurs in the result. */
  lemma ContainsMiddle(a: string, x: string, b: string)
    ensures Contains(a + x + b, x)
  {
    assert (a + x + b)[|a|..][..|x|] == x;
    ContainsAt(a + x + b, x, |a|);
  }

  /** A quoted text occurs in any message built around its quotation. */
  lemma ContainsQuoted(a: string, x: string, b: string)
    ensures Contains(a + Quote(x) + b, x)
  {
    ContainsMiddle(a + "\"", x, "\"" + b);
    assert a + "\"" + x + ("\"" + b) == a + Quote(x) + b;
  }

  /** ASCII lower-casing of one character. */
  function LowerChar(c: char): char {
    if 'A' <= c <= 'Z' then (c as int + 32) as char else c
  }

  /** `strings.ToLower`, restricted to ASCII letters. */
  function ToLower(s: string): (r: string)
    ensures |r| == |s|
    ensures forall i :: 0 <= i < |s| ==> r[i] == LowerChar(s[i])
  {
    seq(|s|, i requires 0 <= i < |s| => LowerChar(s[i]))
  }

  /** Lower-casing leaves text without upper-case letters unchanged. */
  lemma ToLowerIdentity(s: string)
    requires forall i :: 0 <= i < |s| ==> !('A' <= s[i] <= 'Z')
    ensures ToLower(s) == s
  {
  }

  /** Lower-casing is idempotent. */
  lemma ToLowerIdempotent(s: string)
    ensures ToLower(ToLower(s)) == ToLower(s)
  {
    forall i | 0 <= i < |s| ensures LowerChar(LowerChar(s[i])) == LowerChar(s[i]) {
    }
  }

  /** Lower-casing preserves containment: text found in `s` is found, lowered, in the lowered `s`. */
  lemma ContainsLower(s: string, sub: string)
    requires Contains(s, sub)
    ensures Contains(ToLower(s), ToLower(sub))
  {
    var i :| 0 <= i <= |s| && HasPrefix(s[i..], sub);
    assert ToLower(s)[i..][..|sub|] == ToLower(sub) by {
      forall j | 0 <= j < |sub| ensures ToLower(s)[i..][..|sub|][j] == ToLower(sub)[j] {
        assert s[i..][..|sub|][j] == sub[j];
      }
    }
    ContainsAt(ToLower(s), ToLower(sub), i);
  }

  /** `fmt`'s `%q` verb: the text between double quotes. */
  const QuoteMark := "\""

  function Quote(s: string): string {
    QuoteMark + s + QuoteMark
  }

  /** Text built as `a + Quote(x) + b` determines `x`. */
  lemma QuoteInjective(a: string, x: string, y: string, b: string)
    requires a + Quote(x) + b == a + Quote(y) + b
    ensures x == y
  {
    var s := a + Quote(x) + b;
    assert |x| == |y|;
    assert s[|a| + 1..|a| + 1 + |x|] == x;
    assert (a + Quote(y) + b)[|a| + 1..|a| + 1 + |y|] == y;
  }

  /** Text built as `a + x` determines `x`. */
  lemma AppendInjective(a: string, x: string, y: string)
    requires a + x == a + y
    ensures x == y
  {
    assert (a + x)[|a|..] == x;
    assert (a + y)[|a|..] == y;
  }

  /** `strings.Join(xs, sep)`, defined element by element from the right. */
  function Join(xs: seq<string>, sep: string): string
    decreases |xs|
  {
    if |xs| == 0 then ""
    else if |xs| == 1 then xs[0]
    else Join(xs[..|xs| - 1], sep) + sep + xs[|xs| - 1]
  }

  /** Every joined element occurs in the joined text. */
  lemma {:induction false} JoinContains(xs: seq<string>, sep: string, k: nat)
    requires k < |xs|
    ensures Contains(Join(xs, sep), xs[k])
    decreases |xs|
  {
    if |xs| == 1 {
      ContainsAt(xs[0], xs[0], 0);
    } else {
      var init := Join(xs[..|xs| - 1], sep);
      if k == |xs| - 1 {
        var s := init + sep + xs[k];
        assert s[|init + sep|..] == xs[k];
        ContainsAt(s, xs[k], |init + sep|);
      } else {
        JoinContains(xs[..|xs| - 1], sep, k);
        ContainsExtend(init, xs[k], "", sep + xs[|xs| - 1]);
        assert "" + init + (sep + xs[|xs| - 1]) == Join(xs, sep);
      }
    }
  }

  /** The text a loop writes to a `strings.Builder` when it writes `f(x)` for each `x` of `xs` in order. */
  function Concat<T>(xs: seq<T>, f: T -> string): string
    decreases |xs|
  {
    if |xs| == 0 then "" else Concat(xs[..|xs| - 1], f) + f(xs[|xs| - 1])
  }

  /** A loop writing `f(x)` for each `x` of `xs`, in order, after `text`. */
  method WriteEach<T>(text: string, xs: seq<T>, f: T -> string) returns (out: string)
    ensures out == text + Concat(xs, f)
  {
    out := text;
    for i := 0 to |xs|
      invariant out == text + Concat(xs[..i], f)
    {
      assert xs[..i + 1][..i] == xs[..i];
      out := out + f(xs[i]);
    }
    assert xs[..|xs|] == xs;
  }

  /** The text written for a concatenation of lists is that of the first, then that of the second. */
  lemma {:induction false} ConcatAppend<T>(xs: seq<T>, ys: seq<T>, f: T -> string)
    ensures Concat(xs + ys, f) == Concat(xs, f) + Concat(ys, f)
    decreases |ys|
  {
    if |ys| == 0 {
      assert xs + ys == xs;
    } else {
      assert (xs + ys)[..|xs + ys| - 1] == xs + ys[..|ys| - 1];
      assert (xs + ys)[|xs + ys| - 1] == ys[|ys| - 1];
      ConcatAppend(xs, ys[..|ys| - 1], f);
    }
  }

  /** Each element's block appears in place: after the blocks of the elements before it, before those after it. */
  lemma ConcatAt<T>(xs: seq<T>, f: T -> string, k: nat)
    requires k < |xs|
    ensures Concat(xs, f) == Concat(xs[..k], f) + f(xs[k]) + Concat(xs[k + 1..], f)
    ensures Contains(Concat(xs, f), f(xs[k]))
  {
    assert xs == xs[..k] + [xs[k]] + xs[k + 1..];
    ConcatAppend(xs[..k] + [xs[k]], xs[k + 1..], f);
    ConcatAppend(xs[..k], [xs[k]], f);
    assert [xs[k]][..0] == [];
    ContainsMiddle(Concat(xs[..k], f), f(xs[k]), Concat(xs[k + 1..], f));
  }

  /** The blocks of earlier elements are written, whole, before the blocks of later ones. */
  lemma ConcatInOrder<T>(xs: seq<T>, f: T -> string, i: nat, j: nat)
    requires i < j < |xs|
    ensures OccursAt(Concat(xs, f), f(xs[i]), |Concat(xs[..i], f)|)
    ensures OccursAt(Concat(xs, f), f(xs[j]), |Concat(xs[..j], f)|)
    ensures |Concat(xs[..i], f)| + |f(xs[i])| <= |Concat(xs[..j], f)|
  {
    ConcatAt(xs, f, i);
    OccursMiddle(Concat(xs[..i], f), f(xs[i]), Concat(xs[i + 1..], f));
    ConcatAt(xs, f, j);
    OccursMiddle(Concat(xs[..j], f), f(xs[j]), Concat(xs[j + 1..], f));
    ConcatAt(xs[..j], f, i);
    assert xs[..j][..i] == xs[..i];
    assert xs[..j][i] == xs[i];
  }

  /** `fmt`'s `%v` applied to a `[]string`: the elements between brackets, space separated. */
  function FormatList(xs: seq<string>): string {
    "[" + Join(xs, " ") + "]"
  }

  /** The decimal digit for `d`. */
  function Digit(d: nat): char
    requires d < 10
  {
    "0123456789"[d]
  }

  /** `fmt`'s `%d` applied to a non-negative integer. */
  function NatToString(n: nat): string
    decreases n
  {
    if n < 10 then [Digit(n)] else NatToString(n / 10) + [Digit(n % 10)]
  }

  /** `strings.LastIndex(s, c)` for a one-character separator: the last position of `c`, or -1. */
  function LastIndex(s: string, c: char): (r: int)
    ensures -1 <= r < |s|
    ensures r == -1 <==> forall j :: 0 <= j < |s| ==> s[j] != c
    ensures r >= 0 ==> s[r] == c && forall j :: r < j < |s| ==> s[j] != c
    decreases |s|
  {
    if |s| == 0 then -1
    else if s[|s| - 1] == c then |s| - 1
    else LastIndex(s[..|s| - 1], c)
  }
}
