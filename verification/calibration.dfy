/** Day 1: the calibration value of a line is ten times its first non-zero digit plus its
    last digit, both taken from a left-to-right fold over its characters; the answer is
    the sum of the values of the lines of the input. */
module Calibration {
  import opened Decimal
  import opened Sums

  /** The two variables the fold over a line keeps: `first_num` and `last_num`. */
  datatype Scan = Scan(first: nat, last: nat)

  /** One call of the `for_each` closure: a character that is not a digit is dropped by
      `filter_map`; a digit always becomes `last_num`, and becomes `first_num` only while
      `first_num` is still zero. Once `first_num` is non-zero it never changes, and both
      variables stay single digits. */
  function Step(acc: Scan, c: char): (r: Scan)
    ensures !IsDigit(c) ==> r == acc
    ensures IsDigit(c) ==> r.last == DigitValue(c)
    ensures acc.first != 0 ==> r.first == acc.first
    ensures IsDigit(c) && acc.first == 0 ==> r.first == DigitValue(c)
    ensures acc.first < 10 && acc.last < 10 ==> r.first < 10 && r.last < 10
  {
    if !IsDigit(c) then acc
    else
      var d := DigitValue(c);
      Scan(if acc.first == 0 then d else acc.first, d)
  }

  /** The fold over the characters of a line, left to right, from `(0, 0)`. */
  function ScanLine(line: string): (r: Scan)
    ensures r.first < 10 && r.last < 10
  {
    if |line| == 0 then Scan(0, 0)
    else Step(ScanLine(line[..|line| - 1]), line[|line| - 1])
  }

  /** The value the closure of `map` returns for one line. */
  function LineValue(line: string): (v: nat)
    ensures v <= 99
  {
    var sc := ScanLine(line);
    sc.first * 10 + sc.last
  }

  /** The answer: the sum of the values of the lines (`Iterator::sum`, without the
      32-bit bound of its `u32` result). Each line adds at most 99, and no lines add
      up to zero. */
  function Total(lines: seq<string>): (t: nat)
    ensures t <= 99 * |lines|
    ensures |lines| == 0 ==> t == 0
  {
    assert forall line :: LineValue(line) <= 99;
    SumOfBound(lines, LineValue, 99);
    SumOf(lines, LineValue)
  }

  // ---------------------------------------------------------------------------------
  // An independent description of the fold: the digits of the line, and the two
  // positions in that list that the fold picks.

  /** The digit values `filter_map(|c| c.to_digit(10))` yields, in order. */
  function DigitsOf(line: string): (ds: seq<nat>)
    ensures |ds| <= |line|
    ensures |ds| == 0 <==> forall k :: 0 <= k < |line| ==> !IsDigit(line[k])
    ensures forall k :: 0 <= k < |ds| ==> ds[k] < 10
  {
    if |line| == 0 then []
    else
      var rest := DigitsOf(line[1..]);
      assert forall k :: 0 < k < |line| ==> line[k] == line[1..][k - 1];
      if IsDigit(line[0]) then [DigitValue(line[0])] + rest else rest
  }

  /** The first non-zero entry of `ds`, or zero when every entry is zero. */
  function FirstNonZero(ds: seq<nat>): (r: nat)
    ensures r == 0 <==> forall k :: 0 <= k < |ds| ==> ds[k] == 0
    ensures r != 0 ==> exists k :: 0 <= k < |ds| && ds[k] == r && forall j :: 0 <= j < k ==> ds[j] == 0
  {
    if |ds| == 0 then 0
    else if ds[0] != 0 then ds[0]
    else
      var r := FirstNonZero(ds[1..]);
      assert forall k :: 0 < k < |ds| ==> ds[k] == ds[1..][k - 1];
      r
  }

  /** The last entry of `ds`, or zero when there is none. */
  function LastOrZero(ds: seq<nat>): nat {
    if |ds| == 0 then 0 else ds[|ds| - 1]
  }

  lemma {:induction false} DigitsOfAppend(a: string, b: string)
    ensures DigitsOf(a + b) == DigitsOf(a) + DigitsOf(b)
  {
    if |a| == 0 {
      assert a + b == b;
    } else {
      assert (a + b)[0] == a[0] && (a + b)[1..] == a[1..] + b;
      DigitsOfAppend(a[1..], b);
    }
  }

  lemma {:induction false} FirstNonZeroAppend(ds: seq<nat>, d: nat)
    ensures FirstNonZero(ds + [d]) == if FirstNonZero(ds) == 0 then d else FirstNonZero(ds)
  {
    if |ds| > 0 {
      assert (ds + [d])[1..] == ds[1..] + [d];
      FirstNonZeroAppend(ds[1..], d);
    }
  }

  /** The digits of a line are those of all but its last character, then that
      character's digit if it is one. */
  lemma DigitsOfLast(line: string)
    requires |line| > 0
    ensures DigitsOf(line) == DigitsOf(line[..|line| - 1]) +
      (if IsDigit(line[|line| - 1]) then [DigitValue(line[|line| - 1])] else [])
  {
    var p := line[..|line| - 1];
    var c := line[|line| - 1];
    assert line == p + [c];
    DigitsOfAppend(p, [c]);
    assert [c][1..] == [];
  }

  /** The fold keeps exactly the first non-zero digit and the last digit of the line. */
  lemma {:induction false} ScanLineMeaning(line: string)
    ensures ScanLine(line) == Scan(FirstNonZero(DigitsOf(line)), LastOrZero(DigitsOf(line)))
  {
    if |line| > 0 {
      var p := line[..|line| - 1];
      var c := line[|line| - 1];
      ScanLineMeaning(p);
      DigitsOfLast(line);
      assert ScanLine(line) == Step(ScanLine(p), c);
      if IsDigit(c) {
        FirstNonZeroAppend(DigitsOf(p), DigitValue(c));
      } else {
        assert DigitsOf(p) + [] == DigitsOf(p);
      }
    }
  }

  /** The value of a line in terms of its digits alone. */
  lemma LineValueMeaning(line: string)
    ensures LineValue(line) == 10 * FirstNonZero(DigitsOf(line)) + LastOrZero(DigitsOf(line))
  {
    ScanLineMeaning(line);
  }

  /** A line whose only digit is `d` is worth `11 * d`, zero included. */
  lemma SingleDigitLine(line: string, d: nat)
    requires DigitsOf(line) == [d]
    ensures LineValue(line) == 11 * d
  {
    LineValueMeaning(line);
  }

  /** A leading zero never sticks: it neither becomes `first_num` nor changes the last digit. */
  lemma LeadingZeroNeverSticks(line: string)
    ensures LineValue("0" + line) == LineValue(line)
  {
    LineValueMeaning("0" + line);
    LineValueMeaning(line);
    assert ("0" + line)[1..] == line;
    var ds := DigitsOf(line);
    assert DigitsOf("0" + line) == [0] + ds;
    assert ([0] + ds)[1..] == ds;
  }

  /** Characters that are not digits do not matter, wherever they are. */
  lemma NonDigitsIgnored(a: string, c: char, b: string)
    requires !IsDigit(c)
    ensures LineValue(a + [c] + b) == LineValue(a + b)
  {
    DigitsOfAppend(a + [c], b);
    DigitsOfAppend(a, [c]);
    DigitsOfAppend(a, b);
    assert [c][1..] == [];
    assert DigitsOf([c]) == [];
    assert DigitsOf(a + [c]) == DigitsOf(a);
    assert DigitsOf(a + [c] + b) == DigitsOf(a + b);
    LineValueMeaning(a + [c] + b);
    LineValueMeaning(a + b);
  }

  /** Every digit of the line is a `0` (or it has none). */
  predicate ZeroDigitsOnly(line: string) {
    forall i :: 0 <= i < |line| && IsDigit(line[i]) ==> line[i] == '0'
  }

  lemma {:induction false} FirstZeroIff(line: string)
    ensures ScanLine(line).first == 0 <==> ZeroDigitsOnly(line)
    ensures ZeroDigitsOnly(line) ==> ScanLine(line).last == 0
  {
    if |line| > 0 {
      var p := line[..|line| - 1];
      FirstZeroIff(p);
      assert forall i :: 0 <= i < |p| ==> line[i] == p[i];
    }
  }

  /** A line is worth nothing exactly when it has no digit other than `0`; in particular a
      line with no digits at all contributes zero. */
  lemma ZeroValueIff(line: string)
    ensures LineValue(line) == 0 <==> ZeroDigitsOnly(line)
  {
    FirstZeroIff(line);
  }

  /** The loop the source writes, with two mutable variables, computes the fold. */
  method ScanLoop(line: string) returns (first: nat, last: nat)
    ensures first == FirstNonZero(DigitsOf(line)) && last == LastOrZero(DigitsOf(line))
    ensures first * 10 + last == LineValue(line)
  {
    first, last := 0, 0;
    var i := 0;
    while i < |line|
      invariant 0 <= i <= |line|
      invariant Scan(first, last) == ScanLine(line[..i])
    {
      assert line[..i + 1][..i] == line[..i];
      var c := line[i];
      if IsDigit(c) {
        last := DigitValue(c);
        if first == 0 {
          first := DigitValue(c);
        }
      }
      i := i + 1;
    }
    assert line[..|line|] == line;
    ScanLineMeaning(line);
  }

  // ---------------------------------------------------------------------------------
  // The sum over the lines.

  lemma TotalAppend(a: seq<string>, b: seq<string>)
    ensures Total(a + b) == Total(a) + Total(b)
  {
    SumOfAppend(a, b, LineValue);
  }

  /** The order of the lines does not matter. */
  lemma TotalPermutation(a: seq<string>, b: seq<string>)
    requires multiset(a) == multiset(b)
    ensures Total(a) == Total(b)
  {
    SumOfPermutation(a, b, LineValue);
  }

  /** One more line of the prefix adds its value. */
  lemma TotalOfPrefix(lines: seq<string>, i: nat)
    requires i < |lines|
    ensures Total(lines[..i + 1]) == Total(lines[..i]) + LineValue(lines[i])
  {
    assert lines[..i + 1] == lines[..i] + [lines[i]];
    TotalAppend(lines[..i], [lines[i]]);
    assert [lines[i]][1..] == [];
    assert Total([lines[i]]) == LineValue(lines[i]) + Total([]);
  }

  /** The `map` and `sum` pipeline as a loop. */
  method SumLines(lines: seq<string>) returns (sum: nat)
    ensures sum == Total(lines)
    ensures sum <= 99 * |lines|
  {
    sum := 0;
    var i := 0;
    while i < |lines|
      invariant 0 <= i <= |lines|
      invariant sum == Total(lines[..i])
    {
      var first, last := ScanLoop(lines[i]);
      TotalOfPrefix(lines, i);
      sum := sum + (first * 10 + last);
      i := i + 1;
    }
    assert lines[..|lines|] == lines;
  }

  // ---------------------------------------------------------------------------------
  // `str::lines`: the text is cut at each `\n`; a `\r` just before a `\n` goes with it;
  // a final line ending adds no empty line.

  /** Where the first line of `s` ends: the index of its first `\n`, or `|s|`. */
  function LineEnd(s: string): (i: nat)
    ensures i <= |s|
    ensures forall k :: 0 <= k < i ==> s[k] != '\n'
    ensures i < |s| ==> s[i] == '\n'
  {
    if |s| == 0 || s[0] == '\n' then 0 else 1 + LineEnd(s[1..])
  }

  /** A line that a `\n` ends loses a `\r` in front of that `\n`: the result is the piece or
      the piece minus its last character, and only a `\r` is ever dropped. */
  function DropCarriageReturn(piece: string): (r: string)
    ensures r <= piece && |piece| <= |r| + 1
    ensures |r| < |piece| <==> |piece| > 0 && piece[|piece| - 1] == '\r'
  {
    if |piece| > 0 && piece[|piece| - 1] == '\r' then piece[..|piece| - 1] else piece
  }

  /** `str::lines`: no line holds a `\n`, and there are at most as many lines as
      characters. */
  function Lines(s: string): (ls: seq<string>)
    ensures |s| == 0 <==> |ls| == 0
    ensures |ls| <= |s|
    ensures forall j, k :: 0 <= j < |ls| && 0 <= k < |ls[j]| ==> ls[j][k] != '\n'
    decreases |s|
  {
    if |s| == 0 then []
    else
      var i := LineEnd(s);
      if i < |s| then [DropCarriageReturn(s[..i])] + Lines(s[i + 1..])
      else [s]
  }

  /** The inverse of `Lines`: the lines joined with `\n`. */
  function Unlines(ls: seq<string>): string {
    if |ls| == 0 then []
    else if |ls| == 1 then ls[0]
    else ls[0] + "\n" + Unlines(ls[1..])
  }

  /** A line that `Lines` can give back unchanged. */
  predicate PlainLine(line: string) {
    (forall k :: 0 <= k < |line| ==> line[k] != '\n') &&
    (|line| == 0 || line[|line| - 1] != '\r')
  }

  predicate PlainLines(ls: seq<string>) {
    forall j :: 0 <= j < |ls| ==> PlainLine(ls[j])
  }

  lemma {:induction false} LineEndOfPlain(line: string, rest: string)
    requires forall k :: 0 <= k < |line| ==> line[k] != '\n'
    requires |rest| == 0 || rest[0] == '\n'
    ensures LineEnd(line + rest) == |line|
  {
    if |line| > 0 {
      assert (line + rest)[1..] == line[1..] + rest;
      LineEndOfPlain(line[1..], rest);
    } else {
      assert line + rest == rest;
    }
  }

  /** A plain line followed by a line break comes off the front of the text. */
  lemma LinesCons(line: string, tail: string)
    requires PlainLine(line)
    ensures Lines(line + "\n" + tail) == [line] + Lines(tail)
  {
    var s := line + "\n" + tail;
    assert s == line + ("\n" + tail);
    LineEndOfPlain(line, "\n" + tail);
    assert s[..|line|] == line;
    assert s[|line| + 1..] == tail;
  }

  /** Splitting the joined lines gives the lines back, provided none holds a line break,
      none ends in `\r`, and the last is not empty (a final empty line would be taken for
      a line ending). */
  lemma {:induction false} LinesUnlines(ls: seq<string>)
    requires PlainLines(ls)
    requires |ls| == 0 || |ls[|ls| - 1]| > 0
    ensures Lines(Unlines(ls)) == ls
  {
    if |ls| == 1 {
      assert PlainLine(ls[0]);
      LineEndOfPlain(ls[0], []);
      assert ls[0] + [] == ls[0];
    } else if |ls| > 1 {
      assert PlainLine(ls[0]);
      assert forall j :: 0 <= j < |ls| - 1 ==> ls[1..][j] == ls[j + 1];
      LinesUnlines(ls[1..]);
      LinesCons(ls[0], Unlines(ls[1..]));
      assert [ls[0]] + ls[1..] == ls;
    }
  }

  /** The whole computation on a text: at most 99 per character, and nothing for empty
      text. */
  function Calibrate(text: string): (c: nat)
    ensures c <= 99 * |text|
    ensures |text| == 0 ==> c == 0
  {
    Total(Lines(text))
  }

  /** On text written line by line the answer is the sum over those lines. */
  lemma CalibrateUnlines(ls: seq<string>)
    requires PlainLines(ls)
    requires |ls| == 0 || |ls[|ls| - 1]| > 0
    ensures Calibrate(Unlines(ls)) == Total(ls)
  {
    LinesUnlines(ls);
  }

  /** Dropping the `\r` of a line ending does not change a line's value. */
  lemma CarriageReturnIgnored(piece: string)
    ensures LineValue(DropCarriageReturn(piece)) == LineValue(piece)
  {
    if |piece| > 0 && piece[|piece| - 1] == '\r' {
      NonDigitsIgnored(piece[..|piece| - 1], '\r', []);
      assert piece[..|piece| - 1] + ['\r'] + [] == piece;
      assert piece[..|piece| - 1] + [] == piece[..|piece| - 1];
    }
  }
}
