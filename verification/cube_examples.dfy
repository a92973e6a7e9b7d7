/** Worked records for day 2: what the parser makes of a few concrete lines, including
    malformed ones, which it does not always reject. Each proof first settles the facts
    about the concrete characters it needs and then argues from the general lemmas alone
    (`hide *`), so that the solver does not evaluate the parser on the whole line. */
module CubeExamples {
  import opened Decimal
  import opened Seqs
  import opened Nom
  import opened Cubes
  import opened CubeParser
  import opened CubeText

  /** A text with no decimal digit in it. */
  lemma NoDigitIn(s: string)
    requires forall i :: 0 <= i < |s| ==> !('0' <= s[i] <= '9')
    ensures forall i :: 0 <= i < |s| ==> !IsDigit(s[i])
  {
  }

  lemma OneDigit(c: char)
    requires '0' <= c <= '9'
    ensures |[c]| > 0 && AllDigits([c]) && Value([c]) == c as int - '0' as int
  {
  }

  lemma NotDigit(c: char)
    requires !('0' <= c <= '9')
    ensures !IsDigit(c)
  {
  }

  lemma OneBlank()
    ensures AllMultispace(" ") && AllMultispace([]) && AllSpace(" ") && |" "| > 0
  {
  }

  /** A text that starts with something other than white space. */
  lemma StartsPrintable(s: string)
    requires |s| > 0 && s[0] != ' ' && s[0] != '\t' && s[0] != '\r' && s[0] != '\n'
    ensures Trimmed(s) && !IsSpace(s[0]) && !IsMultispace(s[0])
  {
  }

  lemma CommaSepIs(s: string)
    ensures CommaSep(s) == Separator(',', s)
  {
  }

  lemma SemicolonSepIs(s: string)
    ensures SemicolonSep(s) == Separator(';', s)
  {
  }

  /** What the record `Game 1: 3 red` consists of. */
  lemma SmallRecordFacts()
    ensures Keyword(Red(3)) == "red"
    ensures Digits(1) == "1" && Value("1") == 1
    ensures GamePossible(Game(1, [[Red(3)]]), CubeLimits)
  {
  }

  /** Nothing left: no digit run. */
  lemma NothingLeft()
    ensures Digit1("").None?
  {
  }

  // The concrete texts below, assembled from their parts.

  lemma MissingColonSpelling()
    ensures "Game " + "5" + " 5 red" == "Game 5 5 red"
  {
  }

  lemma PurpleSpelling()
    ensures " " + "1" + " " + "purple" == " 1 purple"
    ensures "Game " + "2" + ":" + " 1 purple" == "Game 2: 1 purple"
  {
  }

  lemma NoGamesSpelling()
    ensures "no games\n" + [] == "no games\n" && "" + "" == ""
  {
  }

  lemma BadColorSpelling()
    ensures " " + "3" + " " + "red" + ", 4 purple" == " 3 red, 4 purple"
    ensures [',', ' '] + "4 purple" == ", 4 purple"
    ensures [] + "4" + " " + "purple" == "4 purple"
    ensures "Game 1:" + " 3 red, 4 purple" == "Game 1: 3 red, 4 purple"
  {
  }

  lemma LineBreakSpelling()
    ensures "\n" + "Game 2: 1 purple" == "\nGame 2: 1 purple"
  {
  }

  lemma FirstDrawSpelling()
    ensures " " + "3" + " " + "red" + "\nGame 2: 1 purple" == " 3 red\nGame 2: 1 purple"
  {
  }

  lemma BatchSpelling()
    ensures "Game 1:" + " 3 red\nGame 2: 1 purple" == "Game 1: 3 red\nGame 2: 1 purple"
  {
  }

  /** A record with no colon after its id does not parse. */
  lemma MissingColonFailsRecord()
    ensures ParseLine("Game 5 5 red") == None
  {
    hide *;
    NoDigitIn("Game ");
    OneDigit('5');
    NotDigit(' ');
    MissingColonSpelling();
    ParseLineHeader("Game ", "5", " 5 red");
  }

  /** A record whose first colour is not one of the three does not parse. */
  lemma UnknownColorFailsRecord()
    ensures ParseLine("Game 2: 1 purple") == None
  {
    hide *;
    NoDigitIn("Game ");
    OneDigit('1');
    OneDigit('2');
    OneBlank();
    StartsPrintable("purple");
    PurpleSpelling();
    UnknownKeywordFails(" ", "1", " ", "purple");
    FirstLeafFailureFailsLine("Game ", "2", " 1 purple");
  }

  lemma BadFirstDrawSpelling()
    ensures " " + "1" + " " + "purple\nGame 1: 3 red" == " 1 purple\nGame 1: 3 red"
  {
  }

  lemma BadFirstSpelling()
    ensures "Game " + "2" + ":" + " 1 purple\nGame 1: 3 red" == "Game 2: 1 purple\nGame 1: 3 red"
  {
  }

  /** A bad first record is not skipped: `many1` fails, and there is no answer even though a
      good record follows. */
  lemma BadFirstRecordNoAnswer()
    ensures PossibleIdSum("Game 2: 1 purple\nGame 1: 3 red") == None
  {
    hide *;
    NoDigitIn("Game ");
    OneDigit('1');
    OneDigit('2');
    OneBlank();
    StartsPrintable("purple\nGame 1: 3 red");
    BadFirstDrawSpelling();
    BadFirstSpelling();
    UnknownKeywordFails(" ", "1", " ", "purple\nGame 1: 3 red");
    FirstLeafFailureFailsLine("Game ", "2", " 1 purple\nGame 1: 3 red");
  }

  /** Text with no digit at all holds no record, so there is no answer. */
  lemma NoRecordNoAnswer()
    ensures PossibleIdSum("") == None
    ensures PossibleIdSum("no games\n") == None
  {
    hide *;
    NoDigitIn("no games\n");
    NoDigitIn("");
    NoGamesSpelling();
    NothingLeft();
    TakeTillOfConcat(IsDigit, "no games\n", []);
    TakeTillOfConcat(IsDigit, "", "");
    ParseLineNeedsDigit("no games\n");
    ParseLineNeedsDigit("");
  }

  /** A colour that is not one of the three, after a good one, is not an error: the draw
      ends before the comma, which is left unparsed. */
  lemma UnknownColorEndsDraw()
    ensures DrawList(" 3 red, 4 purple") == Some(([[Red(3)]], ", 4 purple"))
  {
    var rest := ", 4 purple";
    var x := " 3 red, 4 purple";
    hide *;
    OneDigit('3');
    OneBlank();
    StartsPrintable(rest);
    SmallRecordFacts();
    BadColorSpelling();
    UntrimmedStays(rest);
    ColorLeafParses(Red(3), " ", "3", " ", rest);
    CommaThenPurple();
    SetParserOne(x, Red(3), rest);
    SemicolonSepIs(rest);
    SeparatorFails(';', rest);
    DrawListOne(x, [Red(3)], rest);
  }

  /** After the comma comes no colour. */
  lemma CommaThenPurple()
    ensures CommaSep(", 4 purple") == Some((',', "4 purple"))
    ensures Leaf("4 purple").None?
  {
    hide *;
    OneDigit('4');
    OneBlank();
    StartsPrintable("4 purple");
    StartsPrintable("purple");
    StartsPrintable(",");
    BadColorSpelling();
    CommaSepIs(", 4 purple");
    SeparatorParses(',', "4 purple");
    UnknownKeywordFails([], "4", " ", "purple");
  }

  /** The label, the id and the colon of a record with id 1. */
  lemma RecordOneHead(x: string)
    ensures Digit1(TakeTill(IsDigit, "Game 1:" + x).1) == Some(("1", ":" + x))
    ensures Char(':', ":" + x) == Some((':', x))
  {
    hide *;
    SmallRecordFacts();
    GameHeadParses(1, x);
    assert "Game " + ("1" + (":" + x)) == "Game 1:" + x;
  }

  /** So the record ends there too, and what follows the bad colour is left unparsed. */
  lemma UnknownColorEndsRecord()
    ensures ParseLine("Game 1: 3 red, 4 purple") == Some((Game(1, [[Red(3)]]), ", 4 purple"))
  {
    var x := " 3 red, 4 purple";
    hide *;
    RecordOneHead(x);
    BadColorSpelling();
    UnknownColorEndsDraw();
    SmallRecordFacts();
    ParseLineParts("Game 1: 3 red, 4 purple", "1", ":" + x, x);
  }

  /** The draws of the first record of the batch below. */
  lemma FirstOfTwoDraws()
    ensures DrawList(" 3 red\nGame 2: 1 purple") == Some(([[Red(3)]], "Game 2: 1 purple"))
  {
    var bad := "Game 2: 1 purple";
    var x := " 3 red\nGame 2: 1 purple";
    hide *;
    RedBeforeRecord();
    StartsPrintable(bad);
    CommaSepIs(bad);
    SeparatorFails(',', bad);
    SetParserOne(x, Red(3), bad);
    SemicolonSepIs(bad);
    SeparatorFails(';', bad);
    DrawListOne(x, [Red(3)], bad);
  }

  /** The colour of that draw; the line break after it is consumed. */
  lemma RedBeforeRecord()
    ensures Leaf(" 3 red\nGame 2: 1 purple") == Some((Red(3), "Game 2: 1 purple"))
  {
    var bad := "Game 2: 1 purple";
    var t := "\nGame 2: 1 purple";
    hide *;
    OneDigit('3');
    OneBlank();
    StartsPrintable(bad);
    SmallRecordFacts();
    LineBreakSpelling();
    FirstDrawSpelling();
    LineBreakSkipped(bad);
    ColorLeafParses(Red(3), " ", "3", " ", t);
  }

  lemma ReddishSpelling()
    ensures " " + "3" + " " + "red" + "dish" == " 3 reddish"
  {
  }

  /** `tag` only looks at the start of the text: `reddish` is read as `red`, and the rest of
      the word is left over. */
  lemma KeywordPrefixIsColor()
    ensures Leaf(" 3 reddish") == Some((Red(3), "dish"))
  {
    hide *;
    OneDigit('3');
    OneBlank();
    StartsPrintable("dish");
    SmallRecordFacts();
    ReddishSpelling();
    Multispace0OfConcat([], "dish");
    EmptyConcat("dish");
    ColorLeafParses(Red(3), " ", "3", " ", "dish");
  }

  /** The first record of the batch below parses, up to the start of the second. */
  lemma FirstOfTwoRecords()
    ensures ParseLine("Game 1: 3 red\nGame 2: 1 purple") == Some((Game(1, [[Red(3)]]), "Game 2: 1 purple"))
  {
    var x := " 3 red\nGame 2: 1 purple";
    hide *;
    RecordOneHead(x);
    BatchSpelling();
    FirstOfTwoDraws();
    SmallRecordFacts();
    ParseLineParts("Game 1: 3 red\nGame 2: 1 purple", "1", ":" + x, x);
  }

  /** A record that does not parse ends the batch: the records after it are dropped, and
      the answer counts only the records before it. */
  lemma BadRecordEndsBatch()
    ensures ParseLines("Game 1: 3 red\nGame 2: 1 purple") ==
      Some(([Game(1, [[Red(3)]])], "Game 2: 1 purple"))
    ensures PossibleIdSum("Game 1: 3 red\nGame 2: 1 purple") == Some(1)
  {
    var g := Game(1, [[Red(3)]]);
    hide *;
    FirstOfTwoRecords();
    UnknownColorFailsRecord();
    ParseLinesOne("Game 1: 3 red\nGame 2: 1 purple", g, "Game 2: 1 purple");
    assert SumPossibleIds([g], CubeLimits) == 1 by {
      SmallRecordFacts();
      SumPossibleIdsSingle(g, CubeLimits);
    }
  }

  /** Twenty red cubes in one draw is over the limit of 12, so the game is left out of the
      sum; a game within every limit adds its id. */
  lemma OverRedExcluded()
    ensures !GamePossible(Game(3, [[Red(20), Blue(8)], [Blue(4), Red(5)]]), CubeLimits)
    ensures SumPossibleIds([Game(3, [[Red(20), Blue(8)], [Blue(4), Red(5)]]), Game(1, [[Red(3)]])], CubeLimits) == 1
  {
    var bad := Game(3, [[Red(20), Blue(8)], [Blue(4), Red(5)]]);
    var good := Game(1, [[Red(3)]]);
    assert !GamePossible(bad, CubeLimits);
    SmallRecordFacts();
    SumPossibleIdsSingle(bad, CubeLimits);
    SumPossibleIdsSingle(good, CubeLimits);
    SumPossibleIdsAppend([bad], [good], CubeLimits);
    assert [bad] + [good] == [bad, good];
  }

  /** The record the source gives as its example is not possible: its second draw shows
      15 green cubes, over the limit of 13. */
  /** Each colour entry is checked on its own: a draw naming 12 red twice shows 24 red cubes,
      yet the game is kept. */
  lemma RepeatedColorKept()
    ensures GamePossible(Game(1, [[Red(12), Red(12)]]), CubeLimits)
    ensures SumPossibleIds([Game(1, [[Red(12), Red(12)]])], CubeLimits) == 1
  {
  }

  lemma SourceExampleImpossible()
    ensures !GamePossible(Game(100, [[Blue(5), Green(5)], [Blue(7), Green(15)], [Red(4), Green(7), Blue(12)],
                                     [Green(7), Blue(1)], [Blue(5), Green(9), Red(1)]]), CubeLimits)
  {
  }
}
