/** The cube game of day 2: the parsed records, the per-colour limits, the check that a
    game is possible under them, and the sum of the ids of the possible games. */
module Cubes {
  import opened Sums

  /** A number of cubes of one colour shown in a draw. */
  datatype Color = Red(count: nat) | Green(count: nat) | Blue(count: nat)

  /** One game record: its id and its draws ("sets"), in the order they were written. */
  datatype Game = Game(id: nat, sets: seq<seq<Color>>)

  /** The most cubes of each colour a single draw may show. */
  datatype Limits = Limits(red: nat, green: nat, blue: nat)

  const MaxRedCubes: nat := 12
  const MaxGreenCubes: nat := 13
  const MaxBlueCubes: nat := 14

  /** The limits the puzzle fixes. */
  const CubeLimits := Limits(MaxRedCubes, MaxGreenCubes, MaxBlueCubes)

  /** The limit `lim` sets for the colour of `c`. */
  function LimitOf(c: Color, lim: Limits): nat {
    match c
    case Red(_) => lim.red
    case Green(_) => lim.green
    case Blue(_) => lim.blue
  }

  /** Every draw has at least one colour and there is at least one draw: the shape every
      successfully parsed game has. */
  predicate WellShaped(g: Game) {
    |g.sets| >= 1 && NonEmptyDraws(g.sets)
  }

  predicate NonEmptyDraws(sets: seq<seq<Color>>) {
    forall i :: 0 <= i < |sets| ==> |sets[i]| >= 1
  }

  predicate AllWellShaped(games: seq<Game>) {
    forall i :: 0 <= i < |games| ==> WellShaped(games[i])
  }

  lemma NonEmptyDrawsSplit(sets: seq<seq<Color>>)
    requires |sets| > 0
    ensures NonEmptyDraws(sets) <==> |sets[0]| >= 1 && NonEmptyDraws(sets[1..])
  {
    assert forall i :: 0 < i < |sets| ==> sets[i] == sets[1..][i - 1];
  }

  lemma AllWellShapedSplit(games: seq<Game>)
    requires |games| > 0
    ensures AllWellShaped(games) <==> WellShaped(games[0]) && AllWellShaped(games[1..])
  {
    assert forall i :: 0 < i < |games| ==> games[i] == games[1..][i - 1];
  }

  /** The check on a single colour, a `match` on its variant: its count is within the
      limit of its own colour. */
  predicate WithinLimit(c: Color, lim: Limits)
    ensures WithinLimit(c, lim) <==> c.count <= LimitOf(c, lim)
  {
    match c
    case Red(n) => n <= lim.red
    case Green(n) => n <= lim.green
    case Blue(n) => n <= lim.blue
  }

  /** `draw.iter().all(...)`: left to right, stopping at the first colour over its limit.
      A draw passes exactly when every colour in it is within its limit. */
  predicate SetPossible(draw: seq<Color>, lim: Limits)
    ensures SetPossible(draw, lim) <==>
      forall j :: 0 <= j < |draw| ==> draw[j].count <= LimitOf(draw[j], lim)
  {
    assert forall j :: 0 < j < |draw| ==> draw[j] == draw[1..][j - 1];
    |draw| == 0 || (WithinLimit(draw[0], lim) && SetPossible(draw[1..], lim))
  }

  /** `sets.iter().all(...)` over the draws of a game: a list of draws passes exactly when
      each of its draws, taken alone, passes. */
  predicate SetsPossible(sets: seq<seq<Color>>, lim: Limits)
    ensures SetsPossible(sets, lim) <==> forall i :: 0 <= i < |sets| ==> SetPossible(sets[i], lim)
  {
    assert forall i :: 0 < i < |sets| ==> sets[i] == sets[1..][i - 1];
    |sets| == 0 || (SetPossible(sets[0], lim) && SetsPossible(sets[1..], lim))
  }

  /** The filter predicate applied to each game: a game is possible exactly when every
      colour of every draw is within its limit. */
  predicate GamePossible(g: Game, lim: Limits)
    ensures GamePossible(g, lim) <==>
      forall i, j :: 0 <= i < |g.sets| && 0 <= j < |g.sets[i]| ==>
        g.sets[i][j].count <= LimitOf(g.sets[i][j], lim)
  {
    SetsPossible(g.sets, lim)
  }

  /** Reordering the draws of a game changes nothing. */
  lemma PossibleIgnoresOrder(g: Game, h: Game, lim: Limits)
    requires multiset(g.sets) == multiset(h.sets)
    ensures GamePossible(g, lim) <==> GamePossible(h, lim)
  {
    forall i | 0 <= i < |g.sets| ensures g.sets[i] in h.sets {
      assert g.sets[i] in multiset(h.sets);
    }
    forall i | 0 <= i < |h.sets| ensures h.sets[i] in g.sets {
      assert h.sets[i] in multiset(g.sets);
    }
  }

  /** Reordering the colours within each draw changes nothing. */
  lemma PossibleIgnoresColorOrder(g: Game, h: Game, lim: Limits)
    requires |g.sets| == |h.sets|
    requires forall i :: 0 <= i < |g.sets| ==> multiset(g.sets[i]) == multiset(h.sets[i])
    ensures GamePossible(g, lim) <==> GamePossible(h, lim)
  {
    forall i | 0 <= i < |g.sets|
      ensures SetPossible(g.sets[i], lim) <==> SetPossible(h.sets[i], lim)
    {
      forall j | 0 <= j < |g.sets[i]| ensures g.sets[i][j] in h.sets[i] {
        assert g.sets[i][j] in multiset(h.sets[i]);
      }
      forall j | 0 <= j < |h.sets[i]| ensures h.sets[i][j] in g.sets[i] {
        assert h.sets[i][j] in multiset(g.sets[i]);
      }
    }
  }

  /** Raising limits never makes a possible game impossible. */
  lemma PossibleMonotone(g: Game, lo: Limits, hi: Limits)
    requires lo.red <= hi.red && lo.green <= hi.green && lo.blue <= hi.blue
    ensures GamePossible(g, lo) ==> GamePossible(g, hi)
  {
  }

  function GameId(g: Game): nat {
    g.id
  }

  /** The `filter` step: the possible games, in their original order. */
  function PossibleGames(games: seq<Game>, lim: Limits): (r: seq<Game>)
    ensures forall g :: g in r <==> g in games && GamePossible(g, lim)
    ensures |r| <= |games|
  {
    if |games| == 0 then []
    else if GamePossible(games[0], lim) then [games[0]] + PossibleGames(games[1..], lim)
    else PossibleGames(games[1..], lim)
  }

  /** The filter keeps every game when all are possible, and the ids it keeps add up to no
      more than all the ids. */
  lemma {:induction false} PossibleGamesSum(games: seq<Game>, lim: Limits)
    ensures SumOf(PossibleGames(games, lim), GameId) <= SumOf(games, GameId)
    ensures (forall i :: 0 <= i < |games| ==> GamePossible(games[i], lim)) ==>
      PossibleGames(games, lim) == games
  {
    if |games| > 0 {
      PossibleGamesSum(games[1..], lim);
      assert forall i :: 0 < i < |games| ==> games[i] == games[1..][i - 1];
      if GamePossible(games[0], lim) {
        assert ([games[0]] + PossibleGames(games[1..], lim))[1..] == PossibleGames(games[1..], lim);
      }
    }
  }

  /** The answer to the puzzle: the sum of the ids of the possible games. It is at most the
      sum of all ids, and equal to it when every game is possible. */
  function SumPossibleIds(games: seq<Game>, lim: Limits): (r: nat)
    ensures r <= SumOf(games, GameId)
    ensures (forall i :: 0 <= i < |games| ==> GamePossible(games[i], lim)) ==> r == SumOf(games, GameId)
  {
    PossibleGamesSum(games, lim);
    SumOf(PossibleGames(games, lim), GameId)
  }

  lemma {:induction false} PossibleGamesAppend(a: seq<Game>, b: seq<Game>, lim: Limits)
    ensures PossibleGames(a + b, lim) == PossibleGames(a, lim) + PossibleGames(b, lim)
  {
    if |a| > 0 {
      assert (a + b)[0] == a[0] && (a + b)[1..] == a[1..] + b;
      PossibleGamesAppend(a[1..], b, lim);
    } else {
      assert a + b == b;
    }
  }

  /** Each game adds its id when it is possible and nothing otherwise, so with
      `SumPossibleIdsSingle` this determines the sum of every list of games. */
  lemma SumPossibleIdsAppend(a: seq<Game>, b: seq<Game>, lim: Limits)
    ensures SumPossibleIds(a + b, lim) == SumPossibleIds(a, lim) + SumPossibleIds(b, lim)
  {
    PossibleGamesAppend(a, b, lim);
    SumOfAppend(PossibleGames(a, lim), PossibleGames(b, lim), GameId);
  }

  lemma SumPossibleIdsSingle(g: Game, lim: Limits)
    ensures SumPossibleIds([g], lim) == if GamePossible(g, lim) then g.id else 0
  {
    assert [g][1..] == [];
    if GamePossible(g, lim) {
      assert PossibleGames([g], lim) == [g];
      assert SumOf([g], GameId) == GameId(g) + SumOf([g][1..], GameId);
    } else {
      assert PossibleGames([g], lim) == [];
    }
  }

  /** When no game is possible the sum is zero; with no games at all in particular. */
  lemma NothingPossibleSumsToZero(games: seq<Game>, lim: Limits)
    requires forall g :: g in games ==> !GamePossible(g, lim)
    ensures SumPossibleIds(games, lim) == 0
  {
    var r := PossibleGames(games, lim);
    assert forall i :: 0 <= i < |r| ==> r[i] in r;
  }

  lemma {:induction false} PossibleGamesCount(games: seq<Game>, lim: Limits, g: Game)
    ensures multiset(PossibleGames(games, lim))[g] ==
      if GamePossible(g, lim) then multiset(games)[g] else 0
  {
    if |games| > 0 {
      PossibleGamesCount(games[1..], lim, g);
      assert games == [games[0]] + games[1..];
    }
  }

  /** The order of the games does not change the sum. */
  lemma SumPossibleIdsPermutation(a: seq<Game>, b: seq<Game>, lim: Limits)
    requires multiset(a) == multiset(b)
    ensures SumPossibleIds(a, lim) == SumPossibleIds(b, lim)
  {
    forall g
      ensures multiset(PossibleGames(a, lim))[g] == multiset(PossibleGames(b, lim))[g]
    {
      PossibleGamesCount(a, lim, g);
      PossibleGamesCount(b, lim, g);
    }
    assert multiset(PossibleGames(a, lim)) == multiset(PossibleGames(b, lim));
    SumOfPermutation(PossibleGames(a, lim), PossibleGames(b, lim), GameId);
  }
}
