/** The canonical spelling of game records (`Game 1: 3 red, 4 blue; 2 green`, one record
    per line) and the round trip through the day-2 parser: parsing the spelling of any
    well-shaped games gives back exactly those games. */
module CubeText {
  import opened Decimal
  import opened Seqs
  import opened Nom
  import opened Cubes
  import opened CubeParser

  /** `<count> <keyword>`. */
  function ColorText(c: Color): string {
    Digits(c.count) + " " + Keyword(c)
  }

  /** `, <colour>` for each colour of `cs`. */
  function CommaList(cs: seq<Color>): string {
    if |cs| == 0 then "" else ", " + ColorText(cs[0]) + CommaList(cs[1..])
  }

  /** The colours of a draw, separated by `, `. */
  function DrawText(d: seq<Color>): string
    requires |d| >= 1
  {
    ColorText(d[0]) + CommaList(d[1..])
  }

  /** `; <draw>` for each draw of `ds`. */
  function SemicolonList(ds: seq<seq<Color>>): string
    requires NonEmptyDraws(ds)
  {
    if |ds| == 0 then "" else "; " + DrawText(ds[0]) + SemicolonList(ds[1..])
  }

  /** `Game <id>: ` and the draws, separated by `; `. */
  function GameText(g: Game): string
    requires WellShaped(g)
  {
    "Game " + Digits(g.id) + ": " + DrawText(g.sets[0]) + SemicolonList(g.sets[1..])
  }

  /** A line break and a record for each game of `gs`. */
  function NewlineList(gs: seq<Game>): string
    requires AllWellShaped(gs)
  {
    if |gs| == 0 then "" else "\n" + GameText(gs[0]) + NewlineList(gs[1..])
  }

  /** One record per line, with no line break after the last. */
  function GamesText(gs: seq<Game>): string
    requires |gs| >= 1 && AllWellShaped(gs)
  {
    GameText(gs[0]) + NewlineList(gs[1..])
  }

  /** What follows `r` cannot continue a draw: no comma followed by a colour. */
  predicate EndsDraw(r: string) {
    SepLoop(CommaSep, Leaf, r) == Some(([], r))
  }

  /** What follows `r` cannot continue a game: no further colour and no further draw. */
  predicate EndsGame(r: string) {
    EndsDraw(r) && SepLoop(SemicolonSep, SetParser, r) == Some(([], r))
  }

  /** Text that starts with neither whitespace nor a comma nor a semicolon ends a game. */
  lemma EndsGameWhen(r: string)
    requires Trimmed(r)
    requires r == [] || (r[0] != ',' && r[0] != ';')
    ensures EndsGame(r)
  {
    SeparatorFails(',', r);
    SeparatorFails(';', r);
  }

  lemma SeparatorFails(c: char, r: string)
    requires Trimmed(r)
    requires r == [] || r[0] != c
    ensures Separator(c, r) == None
  {
    Multispace0OfConcat([], r);
    assert [] + r == r;
  }

  lemma SeparatorSteps(c: char, s: string, s2: string, s3: string)
    requires Multispace0(s).1 == s
    requires Char(c, s) == Some((c, s2))
    requires Multispace0(s2).1 == s3
    ensures Separator(c, s) == Some((c, s3))
  {
  }

  lemma CharOfCons(c: char, y: string)
    ensures Char(c, [c] + y) == Some((c, y))
  {
    assert ([c] + y)[1..] == y;
  }

  /** A separator character followed by one space and text that does not start with
      whitespace is consumed with the space. */
  lemma SeparatorParses(c: char, y: string)
    requires !IsMultispace(c)
    requires Trimmed(y)
    ensures Separator(c, [c, ' '] + y) == Some((c, y))
  {
    var z := [' '] + y;
    assert [c, ' '] + y == [c] + z;
    CharOfCons(c, z);
    EmptyConcat([c] + z);
    Multispace0OfConcat([], [c] + z);
    Multispace0OfConcat([' '], y);
    SeparatorSteps(c, [c] + z, z, y);
  }

  /** The spelling of a colour, after any whitespace, parses back to the colour. */
  lemma ColorTextParses(c: Color, ws: string, t: string)
    requires AllMultispace(ws)
    ensures Leaf(ws + (ColorText(c) + t)) == Some((c, Multispace0(t).1))
  {
    var ds := Digits(c.count);
    Assoc(ds + " ", Keyword(c), t);
    Assoc(ds, " ", Keyword(c) + t);
    Assoc5(ws, ds, " ", Keyword(c), t);
    ColorLeafParses(c, ws, ds, " ", t);
  }

  lemma CommaListShape(cs: seq<Color>, t: string)
    requires |cs| > 0
    ensures CommaList(cs) + t == [',', ' '] + (ColorText(cs[0]) + (CommaList(cs[1..]) + t))
    ensures (ColorText(cs[0]) + (CommaList(cs[1..]) + t))[0] == Digits(cs[0].count)[0]
  {
    Regroup(", ", ColorText(cs[0]), CommaList(cs[1..]), t);
    ColorTextFirst(cs[0]);
    FirstOfConcat(ColorText(cs[0]), CommaList(cs[1..]) + t);
  }

  lemma ColorTextFirst(c: Color)
    ensures |ColorText(c)| > 0 && ColorText(c)[0] == Digits(c.count)[0]
  {
    var ds := Digits(c.count);
    Assoc(ds, " ", Keyword(c));
    FirstOfConcat(ds, " " + Keyword(c));
  }

  /** Text that does not start with whitespace is left as it is by a leading `multispace0`. */
  lemma UntrimmedStays(x: string)
    requires Trimmed(x)
    ensures Multispace0(x).1 == x
  {
    EmptyConcat(x);
    Multispace0OfConcat([], x);
  }

  lemma CommaListUntouched(cs: seq<Color>, t: string)
    requires |cs| > 0
    ensures Multispace0(CommaList(cs) + t).1 == CommaList(cs) + t
  {
    CommaListShape(cs, t);
    UntrimmedStays(CommaList(cs) + t);
  }

  lemma CommaListSeparator(cs: seq<Color>, t: string)
    requires |cs| > 0
    ensures CommaSep(CommaList(cs) + t) == Some((',', ColorText(cs[0]) + (CommaList(cs[1..]) + t)))
    ensures |ColorText(cs[0]) + (CommaList(cs[1..]) + t)| < |CommaList(cs) + t|
  {
    CommaListShape(cs, t);
    SeparatorParses(',', ColorText(cs[0]) + (CommaList(cs[1..]) + t));
  }

  lemma ColorTextAlone(c: Color, rest: string)
    ensures Leaf(ColorText(c) + rest) == Some((c, Multispace0(rest).1))
  {
    EmptyConcat(ColorText(c) + rest);
    ColorTextParses(c, [], rest);
  }

  lemma CommaListStep(cs: seq<Color>, t: string)
    requires |cs| > 0
    requires SepLoop(CommaSep, Leaf, Multispace0(CommaList(cs[1..]) + t).1) == Some((cs[1..], Multispace0(t).1))
    ensures SepLoop(CommaSep, Leaf, CommaList(cs) + t) == Some(([cs[0]] + cs[1..], Multispace0(t).1))
  {
    var rest := CommaList(cs[1..]) + t;
    CommaListSeparator(cs, t);
    ColorTextAlone(cs[0], rest);
    CommaLoopStep(CommaList(cs) + t, ColorText(cs[0]) + rest, cs[0], Multispace0(rest).1, cs[1..], Multispace0(t).1);
  }

  /** One more colour in front of a list that parses. */
  lemma CommaListCons(cs: seq<Color>, t: string)
    requires |cs| > 0
    requires SepLoop(CommaSep, Leaf, Multispace0(CommaList(cs[1..]) + t).1) == Some((cs[1..], Multispace0(t).1))
    ensures SepLoop(CommaSep, Leaf, Multispace0(CommaList(cs) + t).1) == Some((cs, Multispace0(t).1))
  {
    CommaListStep(cs, t);
    CommaListUntouched(cs, t);
    HeadTail(cs);
  }

  lemma {:induction false} CommaListParses(cs: seq<Color>, t: string)
    requires EndsDraw(Multispace0(t).1)
    ensures SepLoop(CommaSep, Leaf, Multispace0(CommaList(cs) + t).1) == Some((cs, Multispace0(t).1))
    decreases |cs|
  {
    if |cs| == 0 {
      EmptyConcat(t);
    } else {
      CommaListParses(cs[1..], t);
      CommaListCons(cs, t);
    }
  }

  /** The spelling of a draw, after any whitespace, parses back to the draw. */
  lemma DrawTextParses(d: seq<Color>, ws: string, t: string)
    requires |d| >= 1 && AllMultispace(ws)
    requires EndsDraw(Multispace0(t).1)
    ensures SetParser(ws + (DrawText(d) + t)) == Some((d, Multispace0(t).1))
  {
    var rest := CommaList(d[1..]) + t;
    Assoc(ColorText(d[0]), CommaList(d[1..]), t);
    ColorTextParses(d[0], ws, rest);
    CommaListParses(d[1..], t);
    SeparatedList1Step(CommaSep, Leaf, ws + (DrawText(d) + t), d[0], Multispace0(rest).1, d[1..], Multispace0(t).1);
    HeadTail(d);
  }

  lemma SemicolonListShape(ds: seq<seq<Color>>, t: string)
    requires |ds| > 0 && NonEmptyDraws(ds)
    ensures SemicolonList(ds) + t == [';', ' '] + (DrawText(ds[0]) + (SemicolonList(ds[1..]) + t))
  {
    Regroup("; ", DrawText(ds[0]), SemicolonList(ds[1..]), t);
  }

  lemma DrawTextTrimmed(d: seq<Color>, rest: string)
    requires |d| >= 1
    ensures Trimmed(DrawText(d) + rest)
  {
    ColorTextFirst(d[0]);
    FirstOfConcat(ColorText(d[0]), CommaList(d[1..]));
    FirstOfConcat(DrawText(d), rest);
  }

  lemma SemicolonListFirst(ds: seq<seq<Color>>, t: string)
    requires |ds| > 0 && NonEmptyDraws(ds)
    ensures (SemicolonList(ds) + t)[0] == ';'
  {
    SemicolonListShape(ds, t);
    FirstOfConcat([';', ' '], DrawText(ds[0]) + (SemicolonList(ds[1..]) + t));
  }

  lemma SemicolonListUntouched(ds: seq<seq<Color>>, t: string)
    requires |ds| > 0 && NonEmptyDraws(ds)
    ensures Multispace0(SemicolonList(ds) + t).1 == SemicolonList(ds) + t
  {
    SemicolonListFirst(ds, t);
    UntrimmedStays(SemicolonList(ds) + t);
  }

  lemma SemicolonListSeparator(ds: seq<seq<Color>>, t: string)
    requires |ds| > 0 && NonEmptyDraws(ds)
    ensures SemicolonSep(SemicolonList(ds) + t) == Some((';', DrawText(ds[0]) + (SemicolonList(ds[1..]) + t)))
    ensures |DrawText(ds[0]) + (SemicolonList(ds[1..]) + t)| < |SemicolonList(ds) + t|
  {
    SemicolonListShape(ds, t);
    DrawTextTrimmed(ds[0], SemicolonList(ds[1..]) + t);
    SeparatorParses(';', DrawText(ds[0]) + (SemicolonList(ds[1..]) + t));
  }

  /** A comma cannot follow where a semicolon list starts. */
  lemma SemicolonListNoComma(ds: seq<seq<Color>>, t: string)
    requires |ds| > 0 && NonEmptyDraws(ds)
    ensures CommaSep(SemicolonList(ds) + t) == None
  {
    SemicolonListFirst(ds, t);
    SeparatorFails(',', SemicolonList(ds) + t);
  }

  /** After the spelling of more draws, or nothing, a draw cannot continue. */
  lemma SemicolonListEndsDraw(ds: seq<seq<Color>>, t: string)
    requires NonEmptyDraws(ds)
    requires EndsDraw(Multispace0(t).1)
    ensures EndsDraw(Multispace0(SemicolonList(ds) + t).1)
  {
    if |ds| == 0 {
      EmptyConcat(t);
    } else {
      SemicolonListNoComma(ds, t);
      SepLoopStops(CommaSep, Leaf, SemicolonList(ds) + t);
      SemicolonListUntouched(ds, t);
    }
  }

  /** A draw followed by the spelling of more draws parses back to the draw. */
  lemma DrawTextBeforeDraws(d: seq<Color>, ds: seq<seq<Color>>, t: string)
    requires |d| >= 1 && NonEmptyDraws(ds)
    requires EndsDraw(Multispace0(t).1)
    ensures SetParser(DrawText(d) + (SemicolonList(ds) + t)) == Some((d, Multispace0(SemicolonList(ds) + t).1))
  {
    SemicolonListEndsDraw(ds, t);
    EmptyConcat(DrawText(d) + (SemicolonList(ds) + t));
    DrawTextParses(d, [], SemicolonList(ds) + t);
  }

  lemma SemicolonListStep(ds: seq<seq<Color>>, t: string)
    requires |ds| > 0 && NonEmptyDraws(ds)
    requires EndsDraw(Multispace0(t).1)
    requires SepLoop(SemicolonSep, SetParser, Multispace0(SemicolonList(ds[1..]) + t).1) == Some((ds[1..], Multispace0(t).1))
    ensures SepLoop(SemicolonSep, SetParser, SemicolonList(ds) + t) == Some(([ds[0]] + ds[1..], Multispace0(t).1))
  {
    NonEmptyDrawsSplit(ds);
    hide *;
    var rest := SemicolonList(ds[1..]) + t;
    SemicolonListSeparator(ds, t);
    DrawTextBeforeDraws(ds[0], ds[1..], t);
    SemicolonLoopStep(SemicolonList(ds) + t, DrawText(ds[0]) + rest, ds[0], Multispace0(rest).1, ds[1..], Multispace0(t).1);
  }

  /** One more draw in front of a list that parses. */
  lemma SemicolonListCons(ds: seq<seq<Color>>, t: string)
    requires |ds| > 0 && NonEmptyDraws(ds)
    requires EndsDraw(Multispace0(t).1)
    requires SepLoop(SemicolonSep, SetParser, Multispace0(SemicolonList(ds[1..]) + t).1) == Some((ds[1..], Multispace0(t).1))
    ensures SepLoop(SemicolonSep, SetParser, Multispace0(SemicolonList(ds) + t).1) == Some((ds, Multispace0(t).1))
  {
    SemicolonListStep(ds, t);
    SemicolonListUntouched(ds, t);
    HeadTail(ds);
  }

  lemma {:induction false} SemicolonListParses(ds: seq<seq<Color>>, t: string)
    requires NonEmptyDraws(ds)
    requires EndsGame(Multispace0(t).1)
    ensures SepLoop(SemicolonSep, SetParser, Multispace0(SemicolonList(ds) + t).1) == Some((ds, Multispace0(t).1))
    decreases |ds|
  {
    if |ds| == 0 {
      EmptyConcat(t);
    } else {
      SemicolonListParses(ds[1..], t);
      SemicolonListCons(ds, t);
    }
  }

  /** The head of a record: the label skip, the id and the colon. */
  lemma GameHeadParses(id: nat, x: string)
    ensures TakeTill(IsDigit, "Game " + (Digits(id) + (":" + x))).1 == Digits(id) + (":" + x)
    ensures Digit1(Digits(id) + (":" + x)) == Some((Digits(id), ":" + x))
    ensures Char(':', ":" + x) == Some((':', x))
  {
    var ds := Digits(id);
    assert (ds + (":" + x))[0] == ds[0];
    assert (":" + x)[1..] == x;
    TakeTillOfConcat(IsDigit, "Game ", ds + (":" + x));
    Digit1OfConcat(ds, ":" + x);
  }

  lemma GameTextShape(g: Game, t: string)
    requires WellShaped(g)
    ensures GameText(g) + t ==
      "Game " + (Digits(g.id) + (":" + (" " + (DrawText(g.sets[0]) + (SemicolonList(g.sets[1..]) + t)))))
  {
    GameTextRegroup(Digits(g.id), DrawText(g.sets[0]), SemicolonList(g.sets[1..]), t);
  }

  lemma GameTextRegroup(id: string, d: string, ds: string, t: string)
    ensures "Game " + id + ": " + d + ds + t == "Game " + (id + (":" + (" " + (d + (ds + t)))))
  {
    var body := d + (ds + t);
    Regroup("Game " + id + ": ", d, ds, t);
    Regroup("Game ", id, ": ", body);
    Assoc(":", " ", body);
    assert ": " == ":" + " ";
  }

  /** The draws of a game after its colon parse back to the draws. */
  lemma GameBodyParses(d: seq<Color>, ds: seq<seq<Color>>, t: string)
    requires |d| >= 1 && NonEmptyDraws(ds)
    requires EndsGame(Multispace0(t).1)
    ensures DrawList(" " + (DrawText(d) + (SemicolonList(ds) + t))) == Some(([d] + ds, Multispace0(t).1))
  {
    var rest := SemicolonList(ds) + t;
    SemicolonListEndsDraw(ds, t);
    DrawTextParses(d, " ", rest);
    SemicolonListParses(ds, t);
    SeparatedList1Step(SemicolonSep, SetParser, " " + (DrawText(d) + rest), d, Multispace0(rest).1, ds, Multispace0(t).1);
  }

  /** The spelling of a well-shaped game parses back to the game; whatever whitespace
      follows it is consumed, provided the text after that does not continue the game. */
  lemma GameTextParses(g: Game, t: string)
    requires WellShaped(g)
    requires EndsGame(Multispace0(t).1)
    ensures ParseLine(GameText(g) + t) == Some((g, Multispace0(t).1))
  {
    var x := " " + (DrawText(g.sets[0]) + (SemicolonList(g.sets[1..]) + t));
    GameTextShape(g, t);
    GameHeadParses(g.id, x);
    GameBodyParses(g.sets[0], g.sets[1..], t);
    HeadTail(g.sets);
    ParseLineAfterId(GameText(g) + t, Digits(g.id), ":" + x);
  }

  lemma NewlineListShape(gs: seq<Game>, t: string)
    requires |gs| > 0 && AllWellShaped(gs)
    ensures NewlineList(gs) + t == "\n" + (GameText(gs[0]) + (NewlineList(gs[1..]) + t))
    ensures (GameText(gs[0]) + (NewlineList(gs[1..]) + t))[0] == 'G'
  {
    Assoc("\n", GameText(gs[0]), NewlineList(gs[1..]));
    Assoc("\n", GameText(gs[0]) + NewlineList(gs[1..]), t);
    Assoc(GameText(gs[0]), NewlineList(gs[1..]), t);
  }

  /** A line break before a record is what the trailing `multispace0` of the previous
      record consumes. */
  lemma LineBreakSkipped(y: string)
    requires |y| > 0 && y[0] == 'G'
    ensures Multispace0("\n" + y).1 == y
  {
    Multispace0OfConcat("\n", y);
  }

  /** A record on the next line cannot continue the current one. */
  lemma AfterLineBreak(y: string)
    requires |y| > 0 && y[0] == 'G'
    ensures EndsGame(Multispace0("\n" + y).1)
  {
    LineBreakSkipped(y);
    EndsGameWhen(y);
  }

  lemma {:induction false} NewlineListParses(gs: seq<Game>, t: string)
    requires AllWellShaped(gs)
    requires EndsGame(Multispace0(t).1) && ParseLine(Multispace0(t).1).None?
    ensures ManyLoop(ParseLine, Multispace0(NewlineList(gs) + t).1) == Some((gs, Multispace0(t).1))
    decreases |gs|
  {
    if |gs| == 0 {
      EmptyConcat(t);
    } else {
      AllWellShapedSplit(gs);
      hide *;
      var rest := NewlineList(gs[1..]) + t;
      var y := GameText(gs[0]) + rest;
      NewlineListShape(gs, t);
      LineBreakSkipped(y);
      NewlineListEndsGame(gs[1..], t);
      GameTextParses(gs[0], rest);
      NewlineListParses(gs[1..], t);
      ManyLoopStep(ParseLine, y, gs[0], Multispace0(rest).1, gs[1..], Multispace0(t).1);
      HeadTail(gs);
    }
  }

  /** After the spelling of more games, or nothing, the current game cannot continue. */
  lemma NewlineListEndsGame(gs: seq<Game>, t: string)
    requires AllWellShaped(gs)
    requires EndsGame(Multispace0(t).1)
    ensures EndsGame(Multispace0(NewlineList(gs) + t).1)
  {
    if |gs| == 0 {
      EmptyConcat(t);
    } else {
      NewlineListShape(gs, t);
      AfterLineBreak(GameText(gs[0]) + (NewlineList(gs[1..]) + t));
    }
  }

  /** Round trip: the text of one or more well-shaped games parses back to exactly those
      games, in order, when what follows them neither continues the last game nor starts
      another one that parses. With nothing after them the remainder is empty. */
  lemma GamesTextParses(gs: seq<Game>, t: string)
    requires |gs| >= 1 && AllWellShaped(gs)
    requires EndsGame(Multispace0(t).1) && ParseLine(Multispace0(t).1).None?
    ensures ParseLines(GamesText(gs) + t) == Some((gs, Multispace0(t).1))
  {
    var rest := NewlineList(gs[1..]) + t;
    Assoc(GameText(gs[0]), NewlineList(gs[1..]), t);
    NewlineListEndsGame(gs[1..], t);
    GameTextParses(gs[0], rest);
    NewlineListParses(gs[1..], t);
    Many1Step(ParseLine, GamesText(gs) + t, gs[0], Multispace0(rest).1, gs[1..], Multispace0(t).1);
    HeadTail(gs);
  }

  /** The answer for the text of well-shaped games is the sum of the ids of the possible ones. */
  lemma GamesTextSum(gs: seq<Game>)
    requires |gs| >= 1 && AllWellShaped(gs)
    ensures PossibleIdSum(GamesText(gs)) == Some(SumPossibleIds(gs, CubeLimits))
  {
    var e: string := [];
    assert GamesText(gs) + e == GamesText(gs);
    EndsGameWhen(e);
    GamesTextParses(gs, e);
  }
}
