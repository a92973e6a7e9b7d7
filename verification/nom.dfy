/** The observable behaviour of the `nom` 7 parser combinators used over `&str` input
    (`take_till`, `digit1`, `char`, `tag`, `space1`, `multispace0`, `alt`,
    `separated_list1`, `many1`), in their `complete` flavour. A parser either fails or
    returns its output together with the input it did not consume. `nom` distinguishes
    recoverable errors from fatal ones; every failure these parsers produce is recoverable,
    so a single `None` stands for it. */
module Nom {
  import opened Decimal
  import opened Seqs

  datatype Option<+T> = None | Some(value: T)

  /** A parser: on success, the parsed value and the unconsumed remainder of the input. */
  type Parser<T> = seq<char> -> Option<(T, seq<char>)>

  /** Every success of `p` leaves a suffix of its input. */
  ghost predicate Suffixing<T>(p: Parser<T>) {
    forall t :: p(t).Some? ==> IsSuffix(p(t).value.1, t)
  }

  /** Every success of `p` consumes at least one character. */
  ghost predicate Consuming<T>(p: Parser<T>) {
    forall t :: p(t).Some? ==> |p(t).value.1| < |t|
  }

  /** The space characters of `space1`. */
  predicate IsSpace(c: char) {
    c == ' ' || c == '\t'
  }

  /** The whitespace characters of `multispace0`. */
  predicate IsMultispace(c: char) {
    c == ' ' || c == '\t' || c == '\r' || c == '\n'
  }

  predicate AllMultispace(s: seq<char>) {
    forall i :: 0 <= i < |s| ==> IsMultispace(s[i])
  }

  /** The characters of a run that `space1` takes. */
  predicate AllSpace(s: seq<char>) {
    forall i :: 0 <= i < |s| ==> IsSpace(s[i])
  }

  /** `s` does not start with whitespace: what is left after a trailing `multispace0`. */
  predicate Trimmed(s: seq<char>) {
    s == [] || !IsMultispace(s[0])
  }

  /** The length of the longest prefix of `s` whose characters all satisfy `keep`. */
  function Span(keep: char -> bool, s: seq<char>): (n: nat)
    ensures n <= |s|
    ensures forall i :: 0 <= i < n ==> keep(s[i])
    ensures n == |s| || !keep(s[n])
  {
    if |s| == 0 || !keep(s[0]) then 0 else 1 + Span(keep, s[1..])
  }

  /** `take_till(stop)`: the longest prefix free of `stop` characters; never fails. */
  function TakeTill(stop: char -> bool, s: seq<char>): (r: (seq<char>, seq<char>))
    ensures r.0 + r.1 == s && r.1 == s[|r.0|..]
    ensures forall i :: 0 <= i < |r.0| ==> !stop(r.0[i])
    ensures r.1 == [] || stop(r.1[0])
  {
    var n := Span(c => !stop(c), s);
    assert s[..n] + s[n..] == s;
    (s[..n], s[n..])
  }

  /** `multispace0`: the longest prefix of whitespace (possibly empty); never fails. */
  function Multispace0(s: seq<char>): (r: (seq<char>, seq<char>))
    ensures r.0 + r.1 == s && r.1 == s[|r.0|..]
    ensures AllMultispace(r.0)
    ensures r.1 == [] || !IsMultispace(r.1[0])
  {
    var n := Span(IsMultispace, s);
    assert s[..n] + s[n..] == s;
    (s[..n], s[n..])
  }

  /** `digit1`: the longest prefix of ASCII digits, failing when it would be empty. */
  function Digit1(s: seq<char>): (r: Option<(seq<char>, seq<char>)>)
    ensures r.Some? <==> |s| > 0 && IsDigit(s[0])
    ensures r.Some? ==> r.value.0 + r.value.1 == s && |r.value.0| > 0 && AllDigits(r.value.0)
    ensures r.Some? ==> r.value.1 == s[|r.value.0|..]
    ensures r.Some? ==> r.value.1 == [] || !IsDigit(r.value.1[0])
  {
    var n := Span(IsDigit, s);
    assert s[..n] + s[n..] == s;
    if n == 0 then None else Some((s[..n], s[n..]))
  }

  /** `space1`: the longest prefix of spaces and tabs, failing when it would be empty. */
  function Space1(s: seq<char>): (r: Option<(seq<char>, seq<char>)>)
    ensures r.Some? <==> |s| > 0 && IsSpace(s[0])
    ensures r.Some? ==> r.value.0 + r.value.1 == s && |r.value.0| > 0
    ensures r.Some? ==> r.value.1 == s[|r.value.0|..]
    ensures r.Some? ==> AllSpace(r.value.0)
    ensures r.Some? ==> r.value.1 == [] || !IsSpace(r.value.1[0])
  {
    var n := Span(IsSpace, s);
    assert s[..n] + s[n..] == s;
    if n == 0 then None else Some((s[..n], s[n..]))
  }

  /** `char(c)`: exactly the character `c`. */
  function Char(c: char, s: seq<char>): (r: Option<(char, seq<char>)>)
    ensures r.Some? <==> |s| > 0 && s[0] == c
    ensures r.Some? ==> [r.value.0] + r.value.1 == s && r.value.1 == s[1..]
  {
    if |s| > 0 && s[0] == c then Some((c, s[1..])) else None
  }

  /** `tag(t)`: exactly the text `t`. */
  function Tag(t: seq<char>, s: seq<char>): (r: Option<(seq<char>, seq<char>)>)
    ensures r.Some? <==> t <= s
    ensures r.Some? ==> r.value.0 == t && t + r.value.1 == s && r.value.1 == s[|t|..]
  {
    if t <= s then
      assert s == t + s[|t|..];
      Some((t, s[|t|..]))
    else None
  }

  /** A text splits in at most one way into a maximal run of `keep` characters and the rest. */
  lemma SplitUnique(keep: char -> bool, a: seq<char>, b: seq<char>, c: seq<char>, d: seq<char>)
    requires a + b == c + d
    requires forall i :: 0 <= i < |a| ==> keep(a[i])
    requires forall i :: 0 <= i < |c| ==> keep(c[i])
    requires b == [] || !keep(b[0])
    requires d == [] || !keep(d[0])
    ensures a == c && b == d
  {
    var s := a + b;
    assert forall i :: 0 <= i < |a| ==> s[i] == a[i];
    assert forall i :: 0 <= i < |c| ==> s[i] == c[i];
    assert |b| > 0 ==> s[|a|] == b[0];
    assert |d| > 0 ==> s[|c|] == d[0];
    assert |a| == |c|;
    assert a == s[..|a|] && c == s[..|c|];
    assert b == s[|a|..] && d == s[|c|..];
  }

  lemma TakeTillOfConcat(stop: char -> bool, a: seq<char>, b: seq<char>)
    requires forall i :: 0 <= i < |a| ==> !stop(a[i])
    requires b == [] || stop(b[0])
    ensures TakeTill(stop, a + b) == (a, b)
  {
    var r := TakeTill(stop, a + b);
    SplitUnique(c => !stop(c), r.0, r.1, a, b);
  }

  lemma Multispace0OfConcat(a: seq<char>, b: seq<char>)
    requires AllMultispace(a)
    requires b == [] || !IsMultispace(b[0])
    ensures Multispace0(a + b) == (a, b)
  {
    var r := Multispace0(a + b);
    SplitUnique(IsMultispace, r.0, r.1, a, b);
  }

  /** Whitespace already skipped is not skipped again. */
  lemma Multispace0Idempotent(s: seq<char>)
    ensures Multispace0(Multispace0(s).1) == ([], Multispace0(s).1)
  {
    Multispace0OfConcat([], Multispace0(s).1);
  }

  lemma Digit1OfConcat(a: seq<char>, b: seq<char>)
    requires |a| > 0 && AllDigits(a)
    requires b == [] || !IsDigit(b[0])
    ensures Digit1(a + b) == Some((a, b))
  {
    assert (a + b)[0] == a[0];
    var r := Digit1(a + b).value;
    SplitUnique(IsDigit, r.0, r.1, a, b);
  }

  lemma Space1OfConcat(a: seq<char>, b: seq<char>)
    requires |a| > 0 && AllSpace(a)
    requires b == [] || !IsSpace(b[0])
    ensures Space1(a + b) == Some((a, b))
  {
    assert (a + b)[0] == a[0];
    var r := Space1(a + b).value;
    SplitUnique(IsSpace, r.0, r.1, a, b);
  }

  lemma TagOfConcat(t: seq<char>, u: seq<char>)
    ensures Tag(t, t + u) == Some((t, u))
  {
    assert (t + u)[..|t|] == t;
  }

  lemma DifferentFirstChar(t: seq<char>, u: seq<char>)
    requires |t| > 0 && |u| > 0 && t[0] != u[0]
    ensures !(t <= u) && Tag(t, u) == None
  {
  }

  /** `alt((p, q, u))`: the first of the three alternatives that succeeds, each tried on
      the whole input. */
  function Alt3<T>(p: Parser<T>, q: Parser<T>, u: Parser<T>, s: seq<char>): (r: Option<(T, seq<char>)>)
    ensures r.Some? <==> p(s).Some? || q(s).Some? || u(s).Some?
    ensures p(s).Some? ==> r == p(s)
    ensures p(s).None? && q(s).Some? ==> r == q(s)
    ensures p(s).None? && q(s).None? ==> r == u(s)
  {
    match p(s)
    case Some(v) => Some(v)
    case None =>
      match q(s)
      case Some(v) => Some(v)
      case None => u(s)
  }

  /** `xs` are the outputs of `item` after each of a run of separators, starting at `s` and
      ending at `rest`: each separator consumes input and is followed by an item. */
  ghost predicate SepRepeats<S, T>(sep: Parser<S>, item: Parser<T>, s: seq<char>, xs: seq<T>, rest: seq<char>)
    decreases |xs|
  {
    if |xs| == 0 then rest == s
    else
      sep(s).Some? && |sep(s).value.1| < |s| &&
      item(sep(s).value.1).Some? && item(sep(s).value.1).value.0 == xs[0] &&
      SepRepeats(sep, item, item(sep(s).value.1).value.1, xs[1..], rest)
  }

  /** `separated_list1(sep, item)`: one `item`, then as many `sep item` pairs as parse. */
  function SeparatedList1<S, T>(sep: Parser<S>, item: Parser<T>, s: seq<char>): (r: Option<(seq<T>, seq<char>)>)
    requires Suffixing(sep) && Suffixing(item)
    ensures r.Some? ==> |r.value.0| >= 1 && IsSuffix(r.value.1, s)
    ensures r.Some? ==>
      (item(s).Some? && r.value.0[0] == item(s).value.0 &&
       SepRepeats(sep, item, item(s).value.1, r.value.0[1..], r.value.1))
    ensures r.Some? ==> sep(r.value.1).None? || item(sep(r.value.1).value.1).None?
    ensures Consuming(sep) ==> (r.Some? <==> item(s).Some?)
  {
    match item(s)
    case None => None
    case Some((x, s1)) =>
      match SepLoop(sep, item, s1)
      case None => None
      case Some((xs, s2)) =>
        assert ([x] + xs)[1..] == xs;
        Some(([x] + xs, s2))
  }

  /** The loop of `separated_list1` after its first item. A separator not followed by an
      item is left unconsumed; a separator that consumes nothing is an error (nom's guard
      against looping forever). */
  function SepLoop<S, T>(sep: Parser<S>, item: Parser<T>, s: seq<char>): (r: Option<(seq<T>, seq<char>)>)
    requires Suffixing(sep) && Suffixing(item)
    ensures r.Some? ==> IsSuffix(r.value.1, s)
    ensures r.Some? ==> SepRepeats(sep, item, s, r.value.0, r.value.1)
    ensures r.Some? ==> sep(r.value.1).None? || item(sep(r.value.1).value.1).None?
    ensures Consuming(sep) ==> r.Some?
    decreases |s|
  {
    match sep(s)
    case None => Some(([], s))
    case Some((_, s1)) =>
      if |s1| == |s| then None
      else
        match item(s1)
        case None => Some(([], s))
        case Some((x, s2)) =>
          match SepLoop(sep, item, s2)
          case None => None
          case Some((xs, s3)) =>
            assert ([x] + xs)[1..] == xs;
            Some(([x] + xs, s3))
  }

  /** A property of remainders that `item` always establishes also holds of what
      `separated_list1` leaves, when it holds at the start of its loop. */
  lemma {:induction false} SepLoopRestKeeps<S, T>(sep: Parser<S>, item: Parser<T>, s: seq<char>, keep: seq<char> -> bool)
    requires Suffixing(sep) && Suffixing(item)
    requires keep(s)
    requires forall t :: item(t).Some? ==> keep(item(t).value.1)
    ensures SepLoop(sep, item, s).Some? ==> keep(SepLoop(sep, item, s).value.1)
    decreases |s|
  {
    hide SepRepeats;
    match sep(s)
    case None =>
    case Some((_, s1)) =>
      if |s1| < |s| {
        match item(s1)
        case None =>
        case Some((x, s2)) =>
          SepLoopRestKeeps(sep, item, s2, keep);
      }
  }

  lemma SeparatedList1RestKeeps<S, T>(sep: Parser<S>, item: Parser<T>, s: seq<char>, keep: seq<char> -> bool)
    requires Suffixing(sep) && Suffixing(item)
    requires forall t :: item(t).Some? ==> keep(item(t).value.1)
    ensures SeparatedList1(sep, item, s).Some? ==> keep(SeparatedList1(sep, item, s).value.1)
  {
    if item(s).Some? {
      SepLoopRestKeeps(sep, item, item(s).value.1, keep);
    }
  }

  /** A property every output of `item` has holds of every element `separated_list1` returns. */
  lemma {:induction false} SepLoopItemsKeep<S, T>(sep: Parser<S>, item: Parser<T>, s: seq<char>, ok: T -> bool)
    requires Suffixing(sep) && Suffixing(item)
    requires forall t :: item(t).Some? ==> ok(item(t).value.0)
    ensures SepLoop(sep, item, s).Some? ==>
      forall i :: 0 <= i < |SepLoop(sep, item, s).value.0| ==> ok(SepLoop(sep, item, s).value.0[i])
    decreases |s|
  {
    hide SepRepeats;
    match sep(s)
    case None =>
    case Some((_, s1)) =>
      if |s1| < |s| {
        match item(s1)
        case None =>
        case Some((x, s2)) =>
          SepLoopItemsKeep(sep, item, s2, ok);
      }
  }

  lemma SeparatedList1ItemsKeep<S, T>(sep: Parser<S>, item: Parser<T>, s: seq<char>, ok: T -> bool)
    requires Suffixing(sep) && Suffixing(item)
    requires forall t :: item(t).Some? ==> ok(item(t).value.0)
    ensures SeparatedList1(sep, item, s).Some? ==>
      forall i :: 0 <= i < |SeparatedList1(sep, item, s).value.0| ==> ok(SeparatedList1(sep, item, s).value.0[i])
  {
    if item(s).Some? {
      SepLoopItemsKeep(sep, item, item(s).value.1, ok);
    }
  }

  /** `xs` are the outputs of applying `p` again and again, starting at `s` and ending at `rest`. */
  ghost predicate Repeats<T>(p: Parser<T>, s: seq<char>, xs: seq<T>, rest: seq<char>)
    decreases |xs|
  {
    if |xs| == 0 then rest == s
    else p(s).Some? && p(s).value.0 == xs[0] && Repeats(p, p(s).value.1, xs[1..], rest)
  }

  /** `many1(p)`: `p` as many times as it succeeds, at least once. */
  function Many1<T>(p: Parser<T>, s: seq<char>): (r: Option<(seq<T>, seq<char>)>)
    requires Suffixing(p)
    ensures r.Some? ==> |r.value.0| >= 1 && IsSuffix(r.value.1, s)
    ensures r.Some? ==> Repeats(p, s, r.value.0, r.value.1) && p(r.value.1).None?
    ensures Consuming(p) ==> (r.Some? <==> p(s).Some?)
  {
    match p(s)
    case None => None
    case Some((x, s1)) =>
      match ManyLoop(p, s1)
      case None => None
      case Some((xs, s2)) => Some(([x] + xs, s2))
  }

  /** The loop of `many1` after its first success; a success that consumes nothing is an
      error (nom's guard against looping forever). */
  function ManyLoop<T>(p: Parser<T>, s: seq<char>): (r: Option<(seq<T>, seq<char>)>)
    requires Suffixing(p)
    ensures r.Some? ==> IsSuffix(r.value.1, s)
    ensures r.Some? ==> Repeats(p, s, r.value.0, r.value.1) && p(r.value.1).None?
    ensures Consuming(p) ==> r.Some?
    decreases |s|
  {
    match p(s)
    case None => Some(([], s))
    case Some((x, s1)) =>
      if |s1| == |s| then None
      else
        match ManyLoop(p, s1)
        case None => None
        case Some((xs, s2)) => Some(([x] + xs, s2))
  }

  /** One turn of the `separated_list1` loop, from the results of its parts. */
  lemma SepLoopStep<S, T>(sep: Parser<S>, item: Parser<T>, s: seq<char>, s1: seq<char>,
                          x: T, s2: seq<char>, xs: seq<T>, s3: seq<char>)
    requires Suffixing(sep) && Suffixing(item)
    requires sep(s).Some? && sep(s).value.1 == s1 && |s1| < |s|
    requires item(s1) == Some((x, s2))
    requires SepLoop(sep, item, s2) == Some((xs, s3))
    ensures SepLoop(sep, item, s) == Some(([x] + xs, s3))
  {
  }

  lemma SepLoopStops<S, T>(sep: Parser<S>, item: Parser<T>, s: seq<char>)
    requires Suffixing(sep) && Suffixing(item)
    requires sep(s).None?
    ensures SepLoop(sep, item, s) == Some(([], s))
  {
  }

  /** A separator with no item after it is given back: the loop ends before it. */
  lemma SepLoopBacktracks<S, T>(sep: Parser<S>, item: Parser<T>, s: seq<char>)
    requires Suffixing(sep) && Suffixing(item)
    requires sep(s).Some? && |sep(s).value.1| < |s| && item(sep(s).value.1).None?
    ensures SepLoop(sep, item, s) == Some(([], s))
  {
  }

  lemma SeparatedList1Step<S, T>(sep: Parser<S>, item: Parser<T>, s: seq<char>,
                                 x: T, s1: seq<char>, xs: seq<T>, s2: seq<char>)
    requires Suffixing(sep) && Suffixing(item)
    requires item(s) == Some((x, s1))
    requires SepLoop(sep, item, s1) == Some((xs, s2))
    ensures SeparatedList1(sep, item, s) == Some(([x] + xs, s2))
  {
  }

  /** One turn of the `many1` loop, from the results of its parts. */
  lemma ManyLoopStep<T>(p: Parser<T>, s: seq<char>, x: T, s1: seq<char>, xs: seq<T>, s2: seq<char>)
    requires Suffixing(p)
    requires p(s) == Some((x, s1)) && |s1| < |s|
    requires ManyLoop(p, s1) == Some((xs, s2))
    ensures ManyLoop(p, s) == Some(([x] + xs, s2))
  {
  }

  lemma ManyLoopStops<T>(p: Parser<T>, s: seq<char>)
    requires Suffixing(p)
    requires p(s).None?
    ensures ManyLoop(p, s) == Some(([], s))
  {
  }

  lemma Many1Step<T>(p: Parser<T>, s: seq<char>, x: T, s1: seq<char>, xs: seq<T>, s2: seq<char>)
    requires Suffixing(p)
    requires p(s) == Some((x, s1))
    requires ManyLoop(p, s1) == Some((xs, s2))
    ensures Many1(p, s) == Some(([x] + xs, s2))
  {
  }
}
