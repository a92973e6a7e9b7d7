/** The day-2 grammar: `parse_line`, with its colour, draw and game sub-parsers, and
    `parse_lines`, followed by the filter and sum of `main`.

    A record reads `Game 100: 5 blue, 5 green; 7 blue, 15 green`: any non-digit label, the
    id digits, a colon, then draws separated by `;`, each draw being colours separated by
    `,`, each colour being digits, spaces and one of the keywords `red`, `green`, `blue`.
    The whole text is parsed as one stream: the whitespace after a record's last colour,
    line break included, belongs to that record, and the label skip of the next record
    would pass over anything that is not a digit. */
module CubeParser {
  import opened Decimal
  import opened Seqs
  import opened Nom
  import opened Cubes

  /** `delimited(multispace0, separated_pair(digit1, space1, tag(keyword)), multispace0)`,
      giving the value of the digits. */
  function CountedKeyword(keyword: seq<char>, s: seq<char>): (r: Option<(nat, seq<char>)>)
    ensures r.Some? ==> IsSuffix(r.value.1, s) && |r.value.1| < |s|
  {
    var s1 := Multispace0(s).1;
    RestIsSuffix(Multispace0(s).0, s1, s);
    match Digit1(s1)
    case None => None
    case Some((digits, s2)) =>
      RestIsSuffix(digits, s2, s1);
      match Space1(s2)
      case None => None
      case Some((spaces, s3)) =>
        RestIsSuffix(spaces, s3, s2);
        match Tag(keyword, s3)
        case None => None
        case Some((_, s4)) =>
          RestIsSuffix(keyword, s4, s3);
          var s5 := Multispace0(s4).1;
          RestIsSuffix(Multispace0(s4).0, s5, s4);
          SuffixTrans(s5, s4, s3);
          SuffixTrans(s5, s3, s2);
          SuffixTrans(s5, s2, s1);
          SuffixTrans(s5, s1, s);
          Some((Value(digits), s5))
  }

  /** `red_parser` of the source. */
  function RedLeaf(s: seq<char>): (r: Option<(Color, seq<char>)>)
    ensures r.Some? ==> IsSuffix(r.value.1, s) && |r.value.1| < |s|
  {
    match CountedKeyword("red", s)
    case None => None
    case Some((n, rest)) => Some((Red(n), rest))
  }

  /** `green_parser` of the source. */
  function GreenLeaf(s: seq<char>): (r: Option<(Color, seq<char>)>)
    ensures r.Some? ==> IsSuffix(r.value.1, s) && |r.value.1| < |s|
  {
    match CountedKeyword("green", s)
    case None => None
    case Some((n, rest)) => Some((Green(n), rest))
  }

  /** `blue_parser` of the source. */
  function BlueLeaf(s: seq<char>): (r: Option<(Color, seq<char>)>)
    ensures r.Some? ==> IsSuffix(r.value.1, s) && |r.value.1| < |s|
  {
    match CountedKeyword("blue", s)
    case None => None
    case Some((n, rest)) => Some((Blue(n), rest))
  }

  /** `color_parser`: `alt((red_parser, green_parser, blue_parser))`. */
  function ColorLeaf(s: seq<char>): (r: Option<(Color, seq<char>)>)
    ensures r.Some? ==> IsSuffix(r.value.1, s) && |r.value.1| < |s|
  {
    Alt3(RedLeaf, GreenLeaf, BlueLeaf, s)
  }

  /** `terminated(color_parser, multispace0)`, the item of a draw. */
  function Leaf(s: seq<char>): (r: Option<(Color, seq<char>)>)
    ensures r.Some? ==> IsSuffix(r.value.1, s) && |r.value.1| < |s| && Trimmed(r.value.1)
  {
    match ColorLeaf(s)
    case None => None
    case Some((c, s1)) => Some((c, Multispace0(s1).1))
  }

  /** `delimited(multispace0, char(c), multispace0)`, the separator of a list. */
  function Separator(c: char, s: seq<char>): (r: Option<(char, seq<char>)>)
    ensures r.Some? ==> IsSuffix(r.value.1, s) && |r.value.1| < |s|
  {
    var s1 := Multispace0(s).1;
    RestIsSuffix(Multispace0(s).0, s1, s);
    match Char(c, s1)
    case None => None
    case Some((_, s2)) =>
      RestIsSuffix([c], s2, s1);
      var s3 := Multispace0(s2).1;
      RestIsSuffix(Multispace0(s2).0, s3, s2);
      SuffixTrans(s3, s2, s1);
      SuffixTrans(s3, s1, s);
      Some((c, s3))
  }

  function CommaSep(s: seq<char>): (r: Option<(char, seq<char>)>)
    ensures r.Some? ==> IsSuffix(r.value.1, s) && |r.value.1| < |s|
  {
    Separator(',', s)
  }

  function SemicolonSep(s: seq<char>): (r: Option<(char, seq<char>)>)
    ensures r.Some? ==> IsSuffix(r.value.1, s) && |r.value.1| < |s|
  {
    Separator(';', s)
  }

  /** `set_parser`: one draw, colours separated by commas. */
  function SetParser(s: seq<char>): (r: Option<(seq<Color>, seq<char>)>)
    ensures r.Some? ==> |r.value.0| >= 1 && IsSuffix(r.value.1, s) && |r.value.1| < |s|
    ensures r.Some? ==>
      (Leaf(s).Some? && r.value.0[0] == Leaf(s).value.0 &&
       SepRepeats(CommaSep, Leaf, Leaf(s).value.1, r.value.0[1..], r.value.1))
    ensures r.Some? ==> CommaSep(r.value.1).None? || Leaf(CommaSep(r.value.1).value.1).None?
  {
    SeparatedList1(CommaSep, Leaf, s)
  }

  /** The draws of a record: `separated_list1(semicolon, set_parser)`. */
  function DrawList(s: seq<char>): (r: Option<(seq<seq<Color>>, seq<char>)>)
    ensures r.Some? ==> IsSuffix(r.value.1, s)
    ensures r.Some? ==> |r.value.0| >= 1 && NonEmptyDraws(r.value.0)
    ensures r.Some? ==> Trimmed(r.value.1)
    ensures r.Some? ==>
      (SetParser(s).Some? && r.value.0[0] == SetParser(s).value.0 &&
       SepRepeats(SemicolonSep, SetParser, SetParser(s).value.1, r.value.0[1..], r.value.1))
    ensures r.Some? ==> SemicolonSep(r.value.1).None? || SetParser(SemicolonSep(r.value.1).value.1).None?
  {
    DrawListRestTrimmed(s);
    DrawListNonEmpty(s);
    SeparatedList1(SemicolonSep, SetParser, s)
  }

  /** Each parser of the grammar leaves a suffix of its input. */
  lemma ParsersSuffixing()
    ensures Suffixing(Leaf) && Suffixing(CommaSep) && Suffixing(SemicolonSep)
    ensures Suffixing(SetParser) && Suffixing(ParseLine)
  {
  }

  /** One turn of the loop over the colours of a draw. */
  lemma CommaLoopStep(s: seq<char>, s1: seq<char>, x: Color, s2: seq<char>, xs: seq<Color>, s3: seq<char>)
    requires CommaSep(s).Some? && CommaSep(s).value.1 == s1 && |s1| < |s|
    requires Leaf(s1) == Some((x, s2))
    requires SepLoop(CommaSep, Leaf, s2) == Some((xs, s3))
    ensures SepLoop(CommaSep, Leaf, s) == Some(([x] + xs, s3))
  {
    ParsersSuffixing();
    SepLoopStep(CommaSep, Leaf, s, s1, x, s2, xs, s3);
  }

  /** One turn of the loop over the draws of a game. */
  lemma SemicolonLoopStep(s: seq<char>, s1: seq<char>, x: seq<Color>, s2: seq<char>, xs: seq<seq<Color>>, s3: seq<char>)
    requires SemicolonSep(s).Some? && SemicolonSep(s).value.1 == s1 && |s1| < |s|
    requires SetParser(s1) == Some((x, s2))
    requires SepLoop(SemicolonSep, SetParser, s2) == Some((xs, s3))
    ensures SepLoop(SemicolonSep, SetParser, s) == Some(([x] + xs, s3))
  {
    ParsersSuffixing();
    SepLoopStep(SemicolonSep, SetParser, s, s1, x, s2, xs, s3);
  }

  /** `parse_line`: one game record. */
  function ParseLine(s: seq<char>): (r: Option<(Game, seq<char>)>)
    ensures r.Some? ==> IsSuffix(r.value.1, s) && |r.value.1| < |s|
    ensures r.Some? ==> WellShaped(r.value.0) && Trimmed(r.value.1)
  {
    var s1 := TakeTill(IsDigit, s).1;
    RestIsSuffix(TakeTill(IsDigit, s).0, s1, s);
    match Digit1(s1)
    case None => None
    case Some((digits, s2)) =>
      RestIsSuffix(digits, s2, s1);
      match Char(':', s2)
      case None => None
      case Some((_, s3)) =>
        RestIsSuffix([':'], s3, s2);
        match DrawList(s3)
        case None => None
        case Some((sets, s4)) =>
          SuffixTrans(s4, s3, s2);
          SuffixTrans(s4, s2, s1);
          SuffixTrans(s4, s1, s);
          Some((Game(Value(digits), sets), s4))
  }

  /** `parse_lines`: `many1(parse_line)`. */
  function ParseLines(s: seq<char>): (r: Option<(seq<Game>, seq<char>)>)
    ensures r.Some? <==> ParseLine(s).Some?
    ensures r.Some? ==> IsSuffix(r.value.1, s)
    ensures r.Some? ==> Repeats(ParseLine, s, r.value.0, r.value.1) && ParseLine(r.value.1).None?
  {
    Many1(ParseLine, s)
  }

  /** `main` without its input and output: parse the text, keep the possible games, add up
      their ids. A text whose first record does not parse gives no answer. */
  function PossibleIdSum(input: seq<char>): (r: Option<nat>)
    ensures r.Some? <==> ParseLine(input).Some?
    ensures r.Some? ==> r.value == SumPossibleIds(ParseLines(input).value.0, CubeLimits)
  {
    match ParseLines(input)
    case None => None
    case Some((games, _)) => Some(SumPossibleIds(games, CubeLimits))
  }

  /** The keyword naming the colour of `c`. */
  function Keyword(c: Color): string {
    match c
    case Red(_) => "red"
    case Green(_) => "green"
    case Blue(_) => "blue"
  }

  /** Whitespace, digits, spaces and the expected keyword make one counted keyword; the
      whitespace after it is consumed. */
  lemma CountedKeywordParses(keyword: string, ws: string, digits: string, sp: string, t: string)
    requires |keyword| > 0 && !IsSpace(keyword[0])
    requires AllMultispace(ws) && |digits| > 0 && AllDigits(digits) && |sp| > 0 && AllSpace(sp)
    ensures CountedKeyword(keyword, ws + digits + sp + keyword + t) == Some((Value(digits), Multispace0(t).1))
  {
    var s3 := keyword + t;
    var s2 := sp + s3;
    var s1 := digits + s2;
    Assoc5(ws, digits, sp, keyword, t);
    Multispace0OfConcat(ws, s1);
    Digit1OfConcat(digits, s2);
    SpacesBeforeKeyword(sp, keyword, t);
    TagOfConcat(keyword, t);
    CountedKeywordSteps(keyword, ws + digits + sp + keyword + t, digits, s2, s3, t);
  }

  lemma SpacesBeforeKeyword(sp: string, keyword: string, t: string)
    requires |sp| > 0 && AllSpace(sp) && |keyword| > 0 && !IsSpace(keyword[0])
    ensures Space1(sp + (keyword + t)) == Some((sp, keyword + t))
  {
    assert (keyword + t)[0] == keyword[0];
    Space1OfConcat(sp, keyword + t);
  }

  lemma CountedKeywordSteps(keyword: string, s: string, digits: string, s2: string, s3: string, t: string)
    requires Digit1(Multispace0(s).1) == Some((digits, s2))
    requires Space1(s2).Some? && Space1(s2).value.1 == s3
    requires Tag(keyword, s3) == Some((keyword, t))
    ensures CountedKeyword(keyword, s) == Some((Value(digits), Multispace0(t).1))
  {
  }

  /** Whitespace, digits and spaces followed by text that does not start with `keyword` fail
      the counted keyword. `tag` only checks the start, so text that does start with it (a
      longer word such as `reddish`) is not a mismatch. */
  lemma CountedKeywordMismatch(keyword: string, ws: string, digits: string, sp: string, u: string)
    requires AllMultispace(ws) && |digits| > 0 && AllDigits(digits) && |sp| > 0 && AllSpace(sp)
    requires u == [] || !IsSpace(u[0])
    requires !(keyword <= u)
    ensures CountedKeyword(keyword, ws + digits + sp + u) == None
  {
    var s2 := sp + u;
    var s1 := digits + s2;
    assert ws + digits + sp + u == ws + s1;
    Multispace0OfConcat(ws, s1);
    Digit1OfConcat(digits, s2);
    Space1OfConcat(sp, u);
  }

  /** A colour written as digits, spaces and its keyword, with whitespace around it, parses
      to that colour with the count the digits spell; the whitespace after it is consumed. */
  lemma ColorLeafParses(c: Color, ws: string, digits: string, sp: string, t: string)
    requires AllMultispace(ws) && |digits| > 0 && AllDigits(digits) && |sp| > 0 && AllSpace(sp)
    requires Value(digits) == c.count
    ensures ColorLeaf(ws + digits + sp + Keyword(c) + t) == Some((c, Multispace0(t).1))
    ensures Leaf(ws + digits + sp + Keyword(c) + t) == Some((c, Multispace0(t).1))
  {
    var u := Keyword(c) + t;
    var s := ws + digits + sp + Keyword(c) + t;
    assert s == ws + digits + sp + u by {
      Assoc(ws + digits + sp, Keyword(c), t);
    }
    CountedKeywordParses(Keyword(c), ws, digits, sp, t);
    EarlierKeywordsFail(c, ws, digits, sp, u);
    ColorLeafChoice(c, s, Multispace0(t).1);
  }

  /** The keyword parsers `alt` tries before the one of `c` fail on its keyword. */
  lemma EarlierKeywordsFail(c: Color, ws: string, digits: string, sp: string, u: string)
    requires AllMultispace(ws) && |digits| > 0 && AllDigits(digits) && |sp| > 0 && AllSpace(sp)
    requires Keyword(c) <= u
    ensures !c.Red? ==> CountedKeyword("red", ws + digits + sp + u) == None
    ensures c.Blue? ==> CountedKeyword("green", ws + digits + sp + u) == None
  {
    assert u[0] == Keyword(c)[0];
    if !c.Red? {
      DifferentFirstChar("red", u);
      CountedKeywordMismatch("red", ws, digits, sp, u);
    }
    if c.Blue? {
      DifferentFirstChar("green", u);
      CountedKeywordMismatch("green", ws, digits, sp, u);
    }
  }

  /** How `alt` picks the colour: the keyword parsers tried before the right one fail. */
  lemma ColorLeafChoice(c: Color, s: string, rest: string)
    requires Trimmed(rest)
    requires CountedKeyword(Keyword(c), s) == Some((c.count, rest))
    requires !c.Red? ==> CountedKeyword("red", s) == None
    requires c.Blue? ==> CountedKeyword("green", s) == None
    ensures ColorLeaf(s) == Some((c, rest)) && Leaf(s) == Some((c, rest))
  {
    Multispace0OfConcat([], rest);
    assert [] + rest == rest;
  }

  /** A count followed by text that does not start with `red`, `green` or `blue` fails the
      colour parser. */
  lemma UnknownKeywordFails(ws: string, digits: string, sp: string, u: string)
    requires AllMultispace(ws) && |digits| > 0 && AllDigits(digits) && |sp| > 0 && AllSpace(sp)
    requires u == [] || !IsSpace(u[0])
    requires !("red" <= u) && !("green" <= u) && !("blue" <= u)
    ensures ColorLeaf(ws + digits + sp + u) == None
    ensures Leaf(ws + digits + sp + u) == None
  {
    CountedKeywordMismatch("red", ws, digits, sp, u);
    CountedKeywordMismatch("green", ws, digits, sp, u);
    CountedKeywordMismatch("blue", ws, digits, sp, u);
  }

  /** `parse_line` once the label skip and the id are known: a colon must follow the id
      at once, and the draws are what the list of draws after it gives. */
  lemma ParseLineAfterId(s: string, digits: string, t: string)
    requires TakeTill(IsDigit, s).1 == digits + t
    requires Digit1(digits + t) == Some((digits, t))
    ensures ParseLine(s).Some? ==> |t| > 0 && t[0] == ':' && ParseLine(s).value.0.id == Value(digits)
    ensures |t| > 0 && t[0] == ':' ==>
      (ParseLine(s).Some? <==> DrawList(t[1..]).Some?)
    ensures |t| > 0 && t[0] == ':' && ParseLine(s).Some? ==>
      ParseLine(s).value ==
        (Game(Value(digits), DrawList(t[1..]).value.0), DrawList(t[1..]).value.1)
  {
  }

  /** A record from its parts: the id after the label, the colon, and the draws. */
  lemma ParseLineParts(s: string, digits: string, t: string, u: string)
    requires Digit1(TakeTill(IsDigit, s).1) == Some((digits, t))
    requires Char(':', t) == Some((':', u))
    ensures DrawList(u).None? ==> ParseLine(s).None?
    ensures DrawList(u).Some? ==>
      ParseLine(s) == Some((Game(Value(digits), DrawList(u).value.0), DrawList(u).value.1))
  {
    hide DrawList, Digit1, TakeTill, Char, SetParser, SemicolonSep, SeparatedList1, SepLoop, Value;
  }

  /** A draw parser leaves no whitespace in front of what follows it. */
  lemma SetParserRestTrimmed(t: string)
    ensures SetParser(t).Some? ==> Trimmed(SetParser(t).value.1)
  {
    SeparatedList1RestKeeps(CommaSep, Leaf, t, Trimmed);
  }

  /** The list of draws after the colon leaves no whitespace in front of what follows. */
  lemma DrawListRestTrimmed(x: string)
    ensures SeparatedList1(SemicolonSep, SetParser, x).Some? ==>
      Trimmed(SeparatedList1(SemicolonSep, SetParser, x).value.1)
  {
    forall t | SetParser(t).Some? ensures Trimmed(SetParser(t).value.1) {
      SetParserRestTrimmed(t);
    }
    SeparatedList1RestKeeps(SemicolonSep, SetParser, x, Trimmed);
  }

  /** Every draw in the list of draws after the colon has at least one colour. */
  lemma DrawListNonEmpty(x: string)
    ensures SeparatedList1(SemicolonSep, SetParser, x).Some? ==>
      NonEmptyDraws(SeparatedList1(SemicolonSep, SetParser, x).value.0)
  {
    SeparatedList1ItemsKeep(SemicolonSep, SetParser, x, d => |d| >= 1);
  }

  /** The label skip stops at the first digit and the id is the value of the whole digit
      run there; the record fails unless a colon follows the digits at once. */
  lemma ParseLineHeader(prefix: string, digits: string, t: string)
    requires forall i :: 0 <= i < |prefix| ==> !IsDigit(prefix[i])
    requires |digits| > 0 && AllDigits(digits)
    requires t == [] || !IsDigit(t[0])
    ensures ParseLine(prefix + digits + t).Some? ==>
      |t| > 0 && t[0] == ':' && ParseLine(prefix + digits + t).value.0.id == Value(digits)
  {
    Assoc(prefix, digits, t);
    assert (digits + t)[0] == digits[0];
    TakeTillOfConcat(IsDigit, prefix, digits + t);
    Digit1OfConcat(digits, t);
    ParseLineAfterId(prefix + digits + t, digits, t);
  }

  /** A draw of a single colour: after the colour, either no comma or a comma that no
      colour follows. The comma is then left unparsed. */
  lemma SetParserOne(s: string, x: Color, s1: string)
    requires Leaf(s) == Some((x, s1))
    requires CommaSep(s1).None? || (|CommaSep(s1).value.1| < |s1| && Leaf(CommaSep(s1).value.1).None?)
    ensures SetParser(s) == Some(([x], s1))
  {
    ParsersSuffixing();
    SetParserIs(s);
    hide *;
    if CommaSep(s1).None? {
      SepLoopStops(CommaSep, Leaf, s1);
    } else {
      SepLoopBacktracks(CommaSep, Leaf, s1);
    }
    SeparatedList1Step(CommaSep, Leaf, s, x, s1, [], s1);
    assert [x] + [] == [x];
  }

  lemma SetParserIs(s: string)
    ensures SetParser(s) == SeparatedList1(CommaSep, Leaf, s)
  {
  }

  lemma DrawListIs(s: string)
    ensures DrawList(s) == SeparatedList1(SemicolonSep, SetParser, s)
  {
  }

  /** A record body of a single draw, with no semicolon after it. */
  lemma DrawListOne(s: string, d: seq<Color>, s1: string)
    requires SetParser(s) == Some((d, s1))
    requires SemicolonSep(s1).None?
    ensures DrawList(s) == Some(([d], s1))
  {
    ParsersSuffixing();
    DrawListIs(s);
    hide *;
    SepLoopStops(SemicolonSep, SetParser, s1);
    SeparatedList1Step(SemicolonSep, SetParser, s, d, s1, [], s1);
    assert [d] + [] == [d];
  }

  /** A batch whose second record does not parse holds just the first. */
  lemma ParseLinesOne(s: string, g: Game, s1: string)
    requires ParseLine(s) == Some((g, s1))
    requires ParseLine(s1).None?
    ensures ParseLines(s) == Some(([g], s1))
  {
    ParsersSuffixing();
    hide ParseLine, ManyLoop, Many1;
    ManyLoopStops(ParseLine, s1);
    Many1Step(ParseLine, s, g, s1, [], s1);
    assert [g] + [] == [g];
  }

  /** A text with no digit run after the label holds no record. */
  lemma ParseLineNeedsDigit(s: string)
    requires Digit1(TakeTill(IsDigit, s).1).None?
    ensures ParseLine(s) == None
  {
  }

  /** Text with no digit anywhere holds no record. Blank text of any kind (spaces, line
      breaks, other whitespace) is such text, so a batch whose last record is followed only by
      blank text ends with that record. */
  lemma NoDigitNoRecord(s: string)
    requires forall i :: 0 <= i < |s| ==> !IsDigit(s[i])
    ensures ParseLine(s) == None
  {
    assert s + [] == s;
    TakeTillOfConcat(IsDigit, s, []);
    ParseLineNeedsDigit(s);
  }

  /** A record whose first colour does not parse fails as a whole. */
  lemma FirstLeafFailureFailsLine(prefix: string, digits: string, u: string)
    requires forall i :: 0 <= i < |prefix| ==> !IsDigit(prefix[i])
    requires |digits| > 0 && AllDigits(digits)
    requires Leaf(u).None?
    ensures ParseLine(prefix + digits + ":" + u) == None
  {
    var t := ":" + u;
    Assoc(prefix + digits, ":", u);
    Assoc(prefix, digits, t);
    assert (digits + t)[0] == digits[0];
    assert t[1..] == u;
    TakeTillOfConcat(IsDigit, prefix, digits + t);
    Digit1OfConcat(digits, t);
    ParseLineAfterId(prefix + digits + t, digits, t);
  }
}
