/** Facts about concatenation and tails of sequences, used to regroup the pieces of a text
    the way the parsers consume it. */
module Seqs {
  /** `rest` is a tail of `s`. */
  predicate IsSuffix(rest: seq<char>, s: seq<char>) {
    |rest| <= |s| && rest == s[|s| - |rest|..]
  }

  lemma SuffixTrans(r: seq<char>, m: seq<char>, s: seq<char>)
    requires IsSuffix(r, m) && IsSuffix(m, s)
    ensures IsSuffix(r, s)
  {
  }

  lemma Assoc(a: seq<char>, b: seq<char>, c: seq<char>)
    ensures a + b + c == a + (b + c)
  {
  }

  lemma HeadTail<T>(xs: seq<T>)
    requires |xs| > 0
    ensures [xs[0]] + xs[1..] == xs
  {
  }

  lemma EmptyConcat(s: seq<char>)
    ensures [] + s == s
  {
  }

  /** Regrouping `p + a + b` followed by `t` to the right. */
  lemma Regroup(p: seq<char>, a: seq<char>, b: seq<char>, t: seq<char>)
    ensures p + a + b + t == p + (a + (b + t))
  {
    Assoc(p, a, b);
    Assoc(p, a + b, t);
    Assoc(a, b, t);
  }

  lemma FirstOfConcat(a: seq<char>, b: seq<char>)
    requires |a| > 0
    ensures (a + b)[0] == a[0]
  {
  }

  /** Regrouping a five-part text to the right, the way parsers consume it. */
  lemma Assoc5(a: seq<char>, b: seq<char>, c: seq<char>, d: seq<char>, e: seq<char>)
    ensures a + b + c + d + e == a + (b + (c + (d + e)))
  {
    Assoc(a + b + c, d, e);
    Assoc(a + b, c, d + e);
    Assoc(a, b, c + (d + e));
  }

  /** What follows a consumed prefix is a suffix. */
  lemma RestIsSuffix(consumed: seq<char>, rest: seq<char>, s: seq<char>)
    requires consumed + rest == s
    ensures IsSuffix(rest, s) && |rest| == |s| - |consumed|
  {
    assert s[|s| - |rest|..] == rest;
  }
}
