# Cube game and calibration values, modelled in Dafny

This project models two Advent-of-Code style programs written in Rust.

**Day 2 (the cube game)** is the main part. Each input record reads
`Game 100: 5 blue, 5 green; 7 blue, 15 green`:

- a label, the game id and a colon;
- then draws separated by `;`;
- each draw is a list of colours separated by `,`;
- each colour is a count, spaces, and one of `red`, `green` or `blue`.

The program parses the whole text with nom parser combinators. It keeps the games in which no
colour entry of any draw exceeds its colour's limit (12 red, 13 green, 14 blue), and prints
the sum of their ids.

**Day 1 (calibration values)** folds over each line's characters. The fold keeps the first
non-zero digit and the last digit. The line's value is ten times the first plus the last, and
the answer is the sum over the lines.

Modules:

- `Decimal`: decimal digits, the value of a digit run, and the canonical digits of a number.
- `Sums`: sums over sequences. Appending adds sums, and a permutation keeps the sum.
- `Nom`: the nom 7 parsers the program uses. The primitives are `take_till`, `digit1`,
  `space1`, `multispace0`, `char` and `tag`. The combinators are `alt`, `separated_list1` and
  `many1`, with nom 7's loop semantics:
  - a separator not followed by an item is given back;
  - an iteration that consumes nothing is an error;
  - `many1` stops at the first failure.
- `Cubes`: `Color`, `Game`, the limits, the per-draw and per-game checks, the filter and the
  sum of ids.
- `CubeParser`: `parse_line` and its sub-parsers, `parse_lines`, and the computation of
  `main` as a function from the text to an optional answer.
- `CubeText`: a canonical printer for games. It models nothing in the program. It exists to
  state the round trip: printing a list of well-formed games and parsing the text gives the
  same games back, and the answer is the sum of the possible ids.
- `CubeExamples`: concrete records, including the malformed records the program handles in
  unexpected ways.
- `Calibration`: the day-1 fold, `str::lines`, and the sum.

The whole day-2 text is parsed as one stream, as `many1(parse_line)` does. The trailing
`multispace0` of a record's last colour eats the line break. The label skip of the next
record passes over any characters that are not digits.

Five behaviours of the program that a reader may not expect:

- **A bad record after the first ends the batch silently.** `many1` stops at the first record
  that does not parse. `main` then sums the records before it and ignores the rest of the
  text. A bad first record, by contrast, makes `many1` fail, and `main` returns that error.
- **A bad colour after a good one is not an error.** In `3 red, 4 purple`, the colour list
  gives the comma back. The draw list and the record then end at that comma. The record
  `Game 1: 3 red, 4 purple` parses as game 1 with the single draw `3 red`, and the text after
  it is left unparsed.
- **Empty input has no answer.** `many1` fails on it, so `main` returns an error.
- **Each colour entry is checked on its own.** A colour listed twice in one draw is not added
  up: the draw `12 red, 12 red` shows 24 red cubes, yet the game is kept.
- **A colour word is matched by its start.** `tag("red")` only checks that the text starts
  with `red`. So ` 3 reddish` is read as 3 red, and `dish` is left over; the record
  `Game 1: 3 reddish` is accepted as game 1 with the draw `3 red`.

## Model

| member | source | states |
|---|---|---|
| Decimal.Digits | day2/src/main.rs:32 | the canonical digits of `n` read back as `n`, with no leading zero, so every id can be written and parsed |
| Decimal.LeadingZeroIgnored | day2/src/main.rs:32 | a leading `0` does not change the value of a digit run, as `str::parse` reads it |
| Decimal.Value | day2/src/main.rs:32 | the value `str::parse` gives a non-empty digit run (the same at lines 38, 44 and 50) is 0 exactly when every digit is `0`; `Value` of the empty run is 0 by the model's own convention, a case `digit1` never produces (`str::parse` would reject it) |
| Decimal.DigitCharacters | day2/src/main.rs:31-32 | the characters `is_ascii_digit` and `digit1` accept (and `to_digit(10)` maps to a value) are exactly the ten characters written for the values 0 to 9 |
| Decimal.DigitValue | day1/src/main.rs:11 | `to_digit(10)` of a decimal digit is a single digit below 10 |
| Nom.TakeTill | day2/src/main.rs:31 | `take_till` splits the input into a prefix of non-stop characters and a rest that is empty or starts with a stop character |
| Nom.TakeTillOfConcat | day2/src/main.rs:31 | such a split is unique: a text that is non-stop characters followed by a stop character splits exactly there |
| Nom.Digit1 | day2/src/main.rs:32 | `digit1` succeeds exactly when the input starts with a digit, and then takes the whole maximal run of digits |
| Nom.Digit1OfConcat | day2/src/main.rs:32 | on a digit run followed by a non-digit, `digit1` returns exactly that run |
| Nom.Char | day2/src/main.rs:33 | `char(c)` succeeds exactly when the input starts with `c` and consumes just that character |
| Nom.Space1 | day2/src/main.rs:37 | `space1` succeeds exactly when the input starts with a space or tab, and takes the maximal run of them |
| Nom.Space1OfConcat | day2/src/main.rs:37 | on spaces followed by a non-space, `space1` takes exactly those spaces |
| Nom.Tag | day2/src/main.rs:37 | `tag(t)` succeeds exactly when `t` is a prefix of the input, and then leaves the input after `t` |
| Nom.TagOfConcat | day2/src/main.rs:37 | `tag(t)` on `t + u` leaves `u` |
| Nom.DifferentFirstChar | day2/src/main.rs:54 | a keyword whose first character differs from the input's fails, which is how `alt` moves on to the next colour |
| Nom.Multispace0 | day2/src/main.rs:40 | `multispace0` never fails; it takes the maximal run of spaces, tabs, CR and LF |
| Nom.Multispace0OfConcat | day2/src/main.rs:40 | on whitespace followed by a non-whitespace character, `multispace0` takes exactly that whitespace |
| Nom.Multispace0Idempotent | day2/src/main.rs:40 | a second `multispace0` consumes nothing |
| Nom.Alt3 | day2/src/main.rs:54 | `alt` of three parsers succeeds iff one of them does, and returns the first success in order |
| Nom.SeparatedList1 | day2/src/main.rs:56-59 | `separated_list1` returns at least one item and a suffix of its input; with a consuming separator it succeeds iff the first item parses; the first item is the item parsed at the input, and each later one is the item parsed after a consuming separator, from where the previous item stopped, up to the remainder; it stops only where no further separator-and-item pair parses |
| Nom.SepLoop | day2/src/main.rs:56-59 | the loop after the first item returns a suffix of its input, its items are the items parsed after successive consuming separators, chained from the input to the remainder, and it stops only where separator-then-item fails; with a consuming separator it never errors |
| Nom.SepLoopStep | day2/src/main.rs:56-59 | a separator that consumes input, followed by an item, adds that item in front of the rest of the loop |
| Nom.SepLoopStops | day2/src/main.rs:56-59 | when the separator fails, the loop ends with no items and consumes nothing |
| Nom.SepLoopBacktracks | day2/src/main.rs:56-59 | a separator not followed by an item is given back: the loop ends before it |
| Nom.SeparatedList1Step | day2/src/main.rs:56-59 | the list is the first item followed by the items of the loop |
| Nom.SepLoopRestKeeps | day2/src/main.rs:56-59 | a property that every item's remainder has also holds for the remainder of the loop |
| Nom.SeparatedList1RestKeeps | day2/src/main.rs:56-59 | the same for the whole list |
| Nom.SepLoopItemsKeep | day2/src/main.rs:56-59 | a property that every parsed item has holds for every element of the loop's list |
| Nom.SeparatedList1ItemsKeep | day2/src/main.rs:56-59 | the same for the whole list |
| Nom.Many1 | day2/src/main.rs:67-69 | `many1(p)` returns at least one output; the outputs are `p` applied again and again from the input to the remainder; `p` fails on the remainder; with a consuming `p` it succeeds iff `p` succeeds once |
| Nom.ManyLoop | day2/src/main.rs:67-69 | the loop after the first success repeats `p` until `p` fails, and never errors when `p` consumes |
| Nom.ManyLoopStep | day2/src/main.rs:67-69 | a consuming success adds its output in front of the rest of the loop |
| Nom.ManyLoopStops | day2/src/main.rs:67-69 | a failure ends the loop with no outputs and nothing consumed |
| Nom.Many1Step | day2/src/main.rs:67-69 | the outputs of `many1` are the first success followed by the loop's outputs |
| CubeParser.CountedKeyword | day2/src/main.rs:36-40 | a whitespace-delimited `digits space keyword` parser consumes input and leaves a suffix |
| CubeParser.CountedKeywordParses | day2/src/main.rs:36-40 | on whitespace, digits, spaces, the keyword and a rest, it yields the digits' value and the rest after its whitespace |
| CubeParser.CountedKeywordMismatch | day2/src/main.rs:36-40 | when the text after the spaces does not start with the keyword, the parser fails |
| CubeParser.RedLeaf | day2/src/main.rs:36-40 | the red parser consumes input and leaves a suffix |
| CubeParser.GreenLeaf | day2/src/main.rs:42-46 | the green parser consumes input and leaves a suffix |
| CubeParser.BlueLeaf | day2/src/main.rs:48-52 | the blue parser consumes input and leaves a suffix |
| CubeParser.ColorLeaf | day2/src/main.rs:54 | the `alt` of the three colours consumes input and leaves a suffix |
| CubeParser.Leaf | day2/src/main.rs:58 | a colour followed by `multispace0` consumes input and leaves text that starts with no whitespace |
| CubeParser.ColorLeafParses | day2/src/main.rs:36-58 | a written colour of any of the three kinds parses to exactly that colour and count, whatever comes after it |
| CubeParser.EarlierKeywordsFail | day2/src/main.rs:54 | for a green or blue colour, the alternatives tried before it fail |
| CubeParser.ColorLeafChoice | day2/src/main.rs:54 | when a colour's own parser succeeds and the earlier ones fail, `alt` returns that colour |
| CubeParser.UnknownKeywordFails | day2/src/main.rs:36-58 | a count followed by text that does not start with `red`, `green` or `blue` is not a colour |
| CubeParser.Separator | day2/src/main.rs:57 | a whitespace-delimited separator character consumes input and leaves a suffix |
| CubeParser.CommaSep | day2/src/main.rs:57 | the comma separator consumes input and leaves a suffix |
| CubeParser.SemicolonSep | day2/src/main.rs:62 | the semicolon separator consumes input and leaves a suffix |
| CubeParser.SetParser | day2/src/main.rs:56-59 | a draw has at least one colour and the parser consumes input; its first colour is the colour parsed at the input, and each later one the colour parsed after a comma, chained up to the remainder; it stops only where no further comma-and-colour pair parses |
| CubeParser.SetParserRestTrimmed | day2/src/main.rs:56-59 | what follows a parsed draw starts with no whitespace |
| CubeParser.SetParserOne | day2/src/main.rs:56-59 | a colour followed by no comma, or by a comma with no colour after it, is a draw of that one colour, and the comma stays unparsed |
| CubeParser.DrawList | day2/src/main.rs:62 | the draws of a record are at least one, each non-empty, and what follows them starts with no whitespace; the first draw is the one parsed at the input, and each later one the draw parsed after a semicolon, chained up to the remainder; it stops only where no further semicolon-and-draw pair parses |
| CubeParser.DrawListRestTrimmed | day2/src/main.rs:62 | what follows the semicolon list of draws starts with no whitespace |
| CubeParser.DrawListNonEmpty | day2/src/main.rs:62 | every draw in the list has at least one colour |
| CubeParser.DrawListOne | day2/src/main.rs:62 | a draw followed by no semicolon is a list of that one draw |
| CubeParser.ParseLine | day2/src/main.rs:27-65 | a parsed record leaves a strict suffix of its input that starts with no whitespace; it has at least one draw, and each draw at least one colour |
| CubeParser.ParseLineAfterId | day2/src/main.rs:31-33 | after the label and the id digits, a record parses only if a colon follows; its id is the value of those digits; its draws are those parsed after the colon |
| CubeParser.ParseLineParts | day2/src/main.rs:31-64 | once label, id and colon are read, the record parses exactly when its draw list does, into the id's value and those draws |
| CubeParser.ParseLineHeader | day2/src/main.rs:31-33 | after a label with no digit, the id is the whole digit run, and the record parses only if a colon follows that run at once |
| CubeParser.ParseLineNeedsDigit | day2/src/main.rs:31-32 | text with no digit after the label skip is not a record |
| CubeParser.NoDigitNoRecord | day2/src/main.rs:31-32 | text with no digit at all, such as blank text, is not a record |
| CubeParser.FirstLeafFailureFailsLine | day2/src/main.rs:31-62 | when the first colour after the colon does not parse, the record does not parse |
| CubeParser.ParseLines | day2/src/main.rs:67-69 | the batch succeeds iff the first record parses; the games are the records parsed one after another; the record at the remainder does not parse |
| CubeParser.ParseLinesOne | day2/src/main.rs:67-69 | one record followed by one that does not parse is a batch of that one game, with the bad record left unparsed |
| CubeParser.PossibleIdSum | day2/src/main.rs:74-95 | there is an answer iff the first record parses, and then it is the sum of the ids of the parsed games that are possible under 12/13/14 |
| Sums.SumOf | day2/src/main.rs:94-95 | `Iterator::sum` over the mapped elements: no element's term exceeds the sum, and the sum over nothing is 0 |
| Cubes.WithinLimit | day2/src/main.rs:86-90 | a colour passes iff its count is at most the limit of its own colour (12 red, 13 green, 14 blue) |
| Cubes.SetPossible | day2/src/main.rs:82-91 | a draw passes iff every colour in it is within its colour's limit |
| Cubes.SetsPossible | day2/src/main.rs:78-93 | a list of draws passes iff each draw passes |
| Cubes.GamePossible | day2/src/main.rs:78-93 | a game is kept iff every colour of every draw is within its limit |
| Cubes.PossibleIgnoresOrder | day2/src/main.rs:78-93 | reordering the draws of a game does not change whether it is kept |
| Cubes.PossibleIgnoresColorOrder | day2/src/main.rs:82-91 | reordering the colours within draws does not change whether it is kept |
| Cubes.PossibleMonotone | day2/src/main.rs:86-90 | raising the limits never drops a kept game |
| Cubes.PossibleGames | day2/src/main.rs:76-93 | the filter keeps exactly the possible games and never more games than it was given |
| Cubes.PossibleGamesCount | day2/src/main.rs:76-93 | each possible game is kept as many times as it occurs, and an impossible one never |
| Cubes.PossibleGamesAppend | day2/src/main.rs:76-93 | filtering a concatenation is concatenating the filtered parts, so order is kept |
| Cubes.PossibleGamesSum | day2/src/main.rs:76-95 | the kept ids add up to at most all the ids, and the filter keeps every game when all are possible |
| Cubes.SumPossibleIds | day2/src/main.rs:94-95 | the answer is at most the sum of all ids, and equal to it when every game is possible |
| Cubes.SumPossibleIdsSingle | day2/src/main.rs:94-95 | one game adds its id if it is possible and nothing otherwise |
| Cubes.SumPossibleIdsAppend | day2/src/main.rs:76-95 | the sum over a concatenation is the sum of the sums |
| Cubes.NothingPossibleSumsToZero | day2/src/main.rs:76-95 | when no game is possible, for instance with no games, the sum is 0 |
| Cubes.SumPossibleIdsPermutation | day2/src/main.rs:76-95 | the order of the games does not change the sum |
| CubeText.ColorTextParses | day2/src/main.rs:36-58 | a printed colour, after any whitespace, parses back to itself |
| CubeText.SeparatorParses | day2/src/main.rs:57 | a separator character followed by a space parses, leaving what comes after |
| CubeText.SeparatorFails | day2/src/main.rs:57 | trimmed text that does not start with the separator character is no separator |
| CubeText.CommaListParses | day2/src/main.rs:56-59 | the loop over printed `, colour` pieces gives back exactly those colours |
| CubeText.DrawTextParses | day2/src/main.rs:56-59 | a printed draw parses back to that draw, when what follows cannot continue it |
| CubeText.SemicolonListParses | day2/src/main.rs:62 | the loop over printed `; draw` pieces gives back exactly those draws |
| CubeText.GameHeadParses | day2/src/main.rs:31-33 | the label skip, `digit1` and the colon read back the printed id |
| CubeText.GameBodyParses | day2/src/main.rs:62 | the printed draws of a game parse back to those draws |
| CubeText.GameTextParses | day2/src/main.rs:27-65 | round trip: every game with at least one draw and no empty draw, printed, parses back to itself whatever follows that cannot continue it |
| CubeText.LineBreakSkipped | day2/src/main.rs:40 | the line break between records is eaten by the trailing `multispace0` |
| CubeText.NewlineListParses | day2/src/main.rs:67-69 | the `many1` loop over printed records separated by line breaks gives back exactly those games |
| CubeText.GamesTextParses | day2/src/main.rs:67-69 | round trip: a non-empty list of well-formed games, printed one per line, parses back to exactly that list |
| CubeText.GamesTextSum | day2/src/main.rs:74-95 | on such a text the answer is the sum of the ids of the possible games among them |
| CubeExamples.MissingColonFailsRecord | day2/src/main.rs:33 | `Game 5 5 red` is not a record |
| CubeExamples.UnknownColorFailsRecord | day2/src/main.rs:54-62 | `Game 2: 1 purple` is not a record |
| CubeExamples.NoRecordNoAnswer | day2/src/main.rs:67-74 | empty text, and text with no digit, have no answer |
| CubeExamples.BadFirstRecordNoAnswer | day2/src/main.rs:67-74 | a bad first record is not skipped: `Game 2: 1 purple` followed by a good record gives no answer |
| CubeExamples.CommaThenPurple | day2/src/main.rs:54-58 | after `, ` the word `purple` is no colour |
| CubeExamples.KeywordPrefixIsColor | day2/src/main.rs:36-40 | ` 3 reddish` is read as 3 red, leaving `dish`: `tag` matches only the start of the text |
| CubeExamples.UnknownColorEndsDraw | day2/src/main.rs:56-62 | in ` 3 red, 4 purple` the draws end before the comma |
| CubeExamples.RecordOneHead | day2/src/main.rs:31-33 | the label, id and colon of `Game 1:` parse |
| CubeExamples.UnknownColorEndsRecord | day2/src/main.rs:27-64 | `Game 1: 3 red, 4 purple` parses as game 1 with the single draw `3 red`, leaving `, 4 purple` |
| CubeExamples.RedBeforeRecord | day2/src/main.rs:36-40 | the colour of the first record of a two-record text eats the line break |
| CubeExamples.FirstOfTwoDraws | day2/src/main.rs:62 | the first record's draws end where the next record begins |
| CubeExamples.FirstOfTwoRecords | day2/src/main.rs:27-65 | the first of two records parses up to the second |
| CubeExamples.BadRecordEndsBatch | day2/src/main.rs:67-95 | a bad second record is dropped with everything after it, and the answer counts only the first record |
| CubeExamples.OverRedExcluded | day2/src/main.rs:86-94 | a game with 20 red cubes in one draw is left out of the sum, and a game within the limits adds its id |
| CubeExamples.RepeatedColorKept | day2/src/main.rs:82-91 | the draw `12 red, 12 red` is within the limits, since each colour entry is checked alone, and its game adds its id |
| CubeExamples.SourceExampleImpossible | day2/src/main.rs:29 | the example record in the source is not possible: 15 green is over 13 |
| Calibration.Step | day1/src/main.rs:12-17 | a non-digit leaves both values alone; a digit always becomes the last value; a non-zero first value never changes, and a zero one takes the digit; both stay single digits |
| Calibration.ScanLine | day1/src/main.rs:7-17 | both values the fold keeps are single digits |
| Calibration.LineValue | day1/src/main.rs:19 | a line's value is at most 99 |
| Calibration.DigitsOf | day1/src/main.rs:10-11 | `filter_map(to_digit(10))` yields single digits, no more than the line has characters, and none exactly when the line has no digit |
| Calibration.FirstNonZero | day1/src/main.rs:14-16 | the reference first digit is 0 iff every digit is 0, and otherwise the first non-zero digit in the list |
| Calibration.DigitsOfAppend | day1/src/main.rs:10-11 | the digits of joined text are the digits of its parts, joined |
| Calibration.FirstNonZeroAppend | day1/src/main.rs:14-16 | a new digit becomes the first one only while no non-zero digit has been seen |
| Calibration.ScanLineMeaning | day1/src/main.rs:7-17 | the fold computes the first non-zero digit and the last digit of the line's digits, or 0 where there is none |
| Calibration.LineValueMeaning | day1/src/main.rs:7-19 | a line's value is ten times its first non-zero digit plus its last digit |
| Calibration.SingleDigitLine | day1/src/main.rs:12-19 | a line with one digit `d` has value `11*d` |
| Calibration.LeadingZeroNeverSticks | day1/src/main.rs:14-16 | a `0` in front of a line does not change its value: `first_num` is still 0 after it |
| Calibration.NonDigitsIgnored | day1/src/main.rs:11 | inserting a non-digit anywhere does not change a line's value |
| Calibration.FirstZeroIff | day1/src/main.rs:14-16 | the first value stays 0 iff every digit of the line is 0, and then the last is 0 too |
| Calibration.ZeroValueIff | day1/src/main.rs:7-19 | a line's value is 0 iff it has no digit other than 0 |
| Calibration.ScanLoop | day1/src/main.rs:7-19 | the imperative fold over a line returns the reference first and last digits, giving the line's value |
| Calibration.TotalAppend | day1/src/main.rs:4-21 | the total of joined line lists is the sum of their totals |
| Calibration.TotalOfPrefix | day1/src/main.rs:4-21 | one more line adds its value |
| Calibration.TotalPermutation | day1/src/main.rs:4-21 | the order of the lines does not change the total |
| Calibration.Total | day1/src/main.rs:4-21 | the sum over the lines is at most 99 per line, and 0 with no lines |
| Calibration.SumLines | day1/src/main.rs:4-21 | the loop over the lines computes the total, at most 99 per line |
| Calibration.LineEnd | day1/src/main.rs:5 | a line ends at the first line feed, or at the end of the text |
| Calibration.DropCarriageReturn | day1/src/main.rs:5 | a line loses at most its last character, and only when that is a CR |
| Calibration.Lines | day1/src/main.rs:5 | `lines()` gives no lines exactly for empty text, no more lines than characters, and no line holds a line feed |
| Calibration.LinesCons | day1/src/main.rs:5 | a plain line followed by a line feed is split off as the first line |
| Calibration.LinesUnlines | day1/src/main.rs:5 | `lines()` gives back the lines of text joined with line feeds, when none of them holds a line feed or ends in CR, and the last is not empty |
| Calibration.CalibrateUnlines | day1/src/main.rs:4-21 | on such text the answer is the total over exactly those lines |
| Calibration.Calibrate | day1/src/main.rs:4-21 | the answer for a text is at most 99 per character, and 0 for empty text |
| Calibration.CarriageReturnIgnored | day1/src/main.rs:5-19 | dropping a CR before a line feed does not change a line's value |

## Left out

- Reading the input with `include_str!`, printing the answer, and the `anyhow` error
  plumbing are left out. The parse error that `?` returns becomes `None`.
- `trim_end` on the input is left out. On day 2, trailing whitespace (Unicode whitespace
  included) holds no digit, so no record parses from it (`CubeParser.NoDigitNoRecord`), and
  `main` discards whatever text `many1` leaves. It is not always eaten by the last record's
  `multispace0`: in `Game 1: 3 red,` followed by a line break, the comma is given back and
  the line break stays in the remainder. On day 1, the line split is applied to the text as
  given; the removed characters are not digits, so they can only add lines worth 0 or leave
  a line's value unchanged (`Calibration.NonDigitsIgnored`). The model does not prove that
  this holds for the whole text.
- `CubeParser.PossibleIdSum`: does not model the 64-bit width of the sum, and ids and counts
  are unbounded naturals. `str::parse::<u64>` panics through `expect` on a digit run above
  `u64::MAX`; the model reads every digit run as its exact value.
- `Calibration.SumLines`: does not model the 32-bit width of the `u32` sum. A line adds at
  most 99, so the sum stays below 2^32 for fewer than 43 million lines.
- nom's error values (`Error` versus `Failure`, error kinds and positions) are collapsed to
  `None`. The program only propagates them.
- nom works on `&str` by Unicode scalar; the model uses `seq<char>`. `digit1` and
  `to_digit(10)` accept ASCII digits only, as in the model. The only whitespace is space, tab,
  CR and LF, as in nom's `multispace0`. `trim_end` is left out (see above), so Unicode
  whitespace plays no part in the model.
- `Calibration.Lines`: models the current behaviour of `str::lines`, where a CR is removed
  only before a line feed. A lone trailing CR at the end of the text is kept.
  `Calibration.CarriageReturnIgnored` shows the choice cannot change any line's value.
- The `Debug` derivations are left out. They only print.
