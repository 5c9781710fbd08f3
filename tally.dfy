/**
 * What a batch counts (src/lib/batch.ts), on values: each game's outcome is
 * recorded into per-identity score totals and win counts, a draw count and a
 * game count. The identity type is a parameter; a naughts batch uses the
 * marks "X" and "O".
 */
module Tallies {
  import opened Misc

  /** What a batch keeps of one game's result: the scores, whether it was a tie, and otherwise the winner. */
  datatype GameOutcome<Id> = GameOutcome(scores: map<Id, real>, tie: bool, winner: Id)

  /** An outcome a batch over identities can add up: a score for each, and a winner among them unless tied. */
  ghost predicate Counted<Id>(game: GameOutcome<Id>, identities: seq<Id>)
  {
    (forall i | 0 <= i < |identities| :: identities[i] in game.scores) && (game.tie || game.winner in identities)
  }

  /** The sum of identity's scores over games. */
  ghost function TotalOf<Id>(games: seq<GameOutcome<Id>>, identity: Id): real
    requires forall g | g in games :: identity in g.scores
  {
    if |games| == 0 then 0.0
    else TotalOf(games[..|games| - 1], identity) + games[|games| - 1].scores[identity]
  }

  /** The number of games identity won. */
  ghost function WinsOf<Id>(games: seq<GameOutcome<Id>>, identity: Id): nat
  {
    if |games| == 0 then 0
    else WinsOf(games[..|games| - 1], identity) + if !games[|games| - 1].tie && games[|games| - 1].winner == identity then 1 else 0
  }

  /** The number of tied games. */
  ghost function DrawsOf<Id>(games: seq<GameOutcome<Id>>): nat
  {
    if |games| == 0 then 0
    else DrawsOf(games[..|games| - 1]) + if games[|games| - 1].tie then 1 else 0
  }

  /** The average of identity's scores over games. */
  ghost function Mean<Id>(games: seq<GameOutcome<Id>>, identity: Id): real
    requires |games| > 0 && forall g | g in games :: identity in g.scores
  {
    TotalOf(games, identity) / (|games| as real)
  }

  /** One more game adds its score to identity's total, one to its wins if it won, and one to the draws if tied. */
  lemma OneMoreGame<Id>(games: seq<GameOutcome<Id>>, game: GameOutcome<Id>, identity: Id)
    ensures WinsOf(games + [game], identity) == WinsOf(games, identity) + if !game.tie && game.winner == identity then 1 else 0
    ensures DrawsOf(games + [game]) == DrawsOf(games) + if game.tie then 1 else 0
    ensures (forall g | g in games + [game] :: identity in g.scores) ==>
              TotalOf(games + [game], identity) == TotalOf(games, identity) + game.scores[identity]
  {
    assert (games + [game])[..|games|] == games;
  }

  /** The sum of counts[id] over ids. */
  ghost function SumOf<Id>(counts: map<Id, int>, ids: seq<Id>): int
    requires forall i | 0 <= i < |ids| :: ids[i] in counts
  {
    if |ids| == 0 then 0 else counts[ids[0]] + SumOf(counts, ids[1..])
  }

  /** The win counts of the ids, one entry each. */
  ghost function WinCounts<Id>(games: seq<GameOutcome<Id>>, ids: seq<Id>): (counts: map<Id, int>)
    ensures forall i | 0 <= i < |ids| :: ids[i] in counts && counts[ids[i]] == WinsOf(games, ids[i])
    decreases |ids|
  {
    if |ids| == 0 then map[]
    else WinCounts(games, ids[..|ids| - 1])[ids[|ids| - 1] := WinsOf(games, ids[|ids| - 1])]
  }

  /** One more game adds one to the winner's count among distinct ids, and nothing when it is a tie or the winner is elsewhere. */
  lemma {:induction false} WinSumStep<Id>(games: seq<GameOutcome<Id>>, game: GameOutcome<Id>, ids: seq<Id>, counts: map<Id, int>, next: map<Id, int>)
    requires Distinct(ids)
    requires forall i | 0 <= i < |ids| :: ids[i] in counts && counts[ids[i]] == WinsOf(games, ids[i])
    requires forall i | 0 <= i < |ids| :: ids[i] in next && next[ids[i]] == WinsOf(games + [game], ids[i])
    ensures SumOf(next, ids) == SumOf(counts, ids) + if !game.tie && game.winner in ids then 1 else 0
    decreases |ids|
  {
    if |ids| > 0 {
      OneMoreGame(games, game, ids[0]);
      assert Distinct(ids[1..]) by {
        forall i, j | 0 <= i < j < |ids[1..]|
          ensures ids[1..][i] != ids[1..][j]
        {
          assert ids[1..][i] == ids[i + 1] && ids[1..][j] == ids[j + 1];
        }
      }
      WinSumStep(games, game, ids[1..], counts, next);
      assert ids == [ids[0]] + ids[1..];
      if game.winner == ids[0] {
        assert game.winner !in ids[1..] by {
          forall k | 0 <= k < |ids[1..]|
            ensures ids[1..][k] != ids[0]
          {
            assert ids[1..][k] == ids[k + 1];
          }
        }
      }
    }
  }

  /** With every count zero the sum is zero. */
  lemma {:induction false} ZeroSum<Id>(counts: map<Id, int>, ids: seq<Id>)
    requires forall i | 0 <= i < |ids| :: ids[i] in counts && counts[ids[i]] == 0
    ensures SumOf(counts, ids) == 0
    decreases |ids|
  {
    if |ids| > 0 {
      ZeroSum(counts, ids[1..]);
    }
  }

  /** Every game is a draw or a win for exactly one of the distinct identities. */
  lemma {:induction false} GamesAreDrawsOrWins<Id>(games: seq<GameOutcome<Id>>, ids: seq<Id>, counts: map<Id, int>)
    requires Distinct(ids) && forall g | g in games :: g.tie || g.winner in ids
    requires forall i | 0 <= i < |ids| :: ids[i] in counts && counts[ids[i]] == WinsOf(games, ids[i])
    ensures |games| == DrawsOf(games) + SumOf(counts, ids)
    decreases |games|
  {
    if |games| == 0 {
      ZeroSum(counts, ids);
    } else {
      var init := games[..|games| - 1];
      var last := games[|games| - 1];
      assert games == init + [last];
      var before := WinCounts(init, ids);
      GamesAreDrawsOrWins(init, ids, before);
      WinSumStep(init, last, ids, before, counts);
    }
  }

  /** x added to itself n times. */
  function Times(x: real, n: nat): real
  {
    if n == 0 then 0.0 else Times(x, n - 1) + x
  }

  lemma {:induction false} Product(x: real, n: nat)
    ensures Times(x, n) == x * (n as real)
  {
    if n > 0 {
      Product(x, n - 1);
      assert x * (n as real) == x * ((n - 1) as real) + x;
    }
  }

  lemma Quotient(t: real, n: real, lo: real, hi: real)
    requires n > 0.0 && lo * n <= t <= hi * n
    ensures lo <= t / n <= hi
  {
    assert t / n * n == t;
  }

  lemma {:induction false} TotalBounded<Id>(games: seq<GameOutcome<Id>>, identity: Id, lo: real, hi: real)
    requires forall g | g in games :: identity in g.scores && lo <= g.scores[identity] <= hi
    ensures Times(lo, |games|) <= TotalOf(games, identity) <= Times(hi, |games|)
    decreases |games|
  {
    if |games| > 0 {
      var init := games[..|games| - 1];
      assert games[|games| - 1] in games;
      assert forall g | g in init :: g in games;
      TotalBounded(init, identity, lo, hi);
    }
  }

  /** When every game gives identity a score within [lo, hi], so does its average. */
  lemma MeanBounded<Id>(games: seq<GameOutcome<Id>>, identity: Id, lo: real, hi: real)
    requires |games| > 0 && forall g | g in games :: identity in g.scores && lo <= g.scores[identity] <= hi
    ensures lo <= Mean(games, identity) <= hi
  {
    TotalBounded(games, identity, lo, hi);
    Product(lo, |games|);
    Product(hi, |games|);
    Quotient(TotalOf(games, identity), |games| as real, lo, hi);
  }

  /** totals with scores[k] added to the entry of each k in ids, in order. */
  ghost function Added<Id>(totals: map<Id, real>, ids: seq<Id>, scores: map<Id, real>): (sums: map<Id, real>)
    requires forall i | 0 <= i < |ids| :: ids[i] in totals && ids[i] in scores
    ensures sums.Keys == totals.Keys
    decreases |ids|
  {
    if |ids| == 0 then totals
    else
      var sums := Added(totals, ids[..|ids| - 1], scores);
      var k := ids[|ids| - 1];
      sums[k := sums[k] + scores[k]]
  }

  /** Over distinct ids, each id's entry gains its score once, and no other entry changes. */
  lemma {:induction false} AddedMeaning<Id>(totals: map<Id, real>, ids: seq<Id>, scores: map<Id, real>)
    requires Distinct(ids) && forall i | 0 <= i < |ids| :: ids[i] in totals && ids[i] in scores
    ensures forall i | 0 <= i < |ids| :: Added(totals, ids, scores)[ids[i]] == totals[ids[i]] + scores[ids[i]]
    ensures forall k | k in totals && k !in ids :: Added(totals, ids, scores)[k] == totals[k]
    decreases |ids|
  {
    if |ids| > 0 {
      AddedMeaning(totals, ids[..|ids| - 1], scores);
    }
  }

  /** The loop of processGameResult over the identities. */
  method AddScores<Id(==)>(totals: map<Id, real>, ids: seq<Id>, scores: map<Id, real>) returns (sums: map<Id, real>)
    requires forall i | 0 <= i < |ids| :: ids[i] in totals && ids[i] in scores
    ensures sums == Added(totals, ids, scores)
  {
    sums := totals;
    for i := 0 to |ids|
      invariant sums == Added(totals, ids[..i], scores)
    {
      assert ids[..i + 1][..i] == ids[..i];
      sums := sums[ids[i] := sums[ids[i]] + scores[ids[i]]];
    }
    assert ids[..|ids|] == ids;
  }

  /** What a batch counts: each identity's total score and wins, the draws, and the games played. */
  datatype Counters<Id> = Counters(totalScore: map<Id, real>, wins: map<Id, int>, numDraws: int, numGamesPlayed: int)

  /** Every identity has a total and a win count. */
  ghost predicate Keyed<Id>(c: Counters<Id>, identities: seq<Id>)
  {
    forall i | 0 <= i < |identities| :: identities[i] in c.totalScore && identities[i] in c.wins
  }

  /** processGameResult on the counters: game's scores added, and one more game, and a draw or a win for its winner. */
  ghost function Record<Id>(c: Counters<Id>, identities: seq<Id>, game: GameOutcome<Id>): (r: Counters<Id>)
    requires Keyed(c, identities) && Counted(game, identities)
    ensures Keyed(r, identities)
  {
    var winner := game.winner;
    Counters(
      Added(c.totalScore, identities, game.scores),
      if game.tie then c.wins else c.wins[winner := c.wins[winner] + 1],
      c.numDraws + (if game.tie then 1 else 0),
      c.numGamesPlayed + 1)
  }

  /** processGameResult's update, on values: the scores added, a draw or the winner's win counted, one more game. */
  method Tally<Id(==)>(c: Counters<Id>, identities: seq<Id>, game: GameOutcome<Id>) returns (r: Counters<Id>)
    requires Keyed(c, identities) && Counted(game, identities)
    ensures r == Record(c, identities, game)
  {
    var totalScore := AddScores(c.totalScore, identities, game.scores);
    var wins, numDraws := c.wins, c.numDraws;
    if game.tie {
      numDraws := numDraws + 1;
    } else {
      wins := wins[game.winner := wins[game.winner] + 1];
    }
    r := Counters(totalScore, wins, numDraws, c.numGamesPlayed + 1);
  }

  /** The counters after recording games, in order, from c. */
  ghost function Replay<Id>(c: Counters<Id>, identities: seq<Id>, games: seq<GameOutcome<Id>>): (r: Counters<Id>)
    requires Keyed(c, identities) && forall g | g in games :: Counted(g, identities)
    ensures Keyed(r, identities)
  {
    if |games| == 0 then c
    else
      var init := games[..|games| - 1];
      assert forall g | g in init :: g in games;
      Record(Replay(c, identities, init), identities, games[|games| - 1])
  }

  /**
   * Replaying games adds each identity's total score and wins over them to
   * its counters, their draws to the draws and their number to the games
   * played.
   */
  lemma {:induction false} ReplaySums<Id>(c: Counters<Id>, identities: seq<Id>, games: seq<GameOutcome<Id>>)
    requires Distinct(identities) && Keyed(c, identities) && forall g | g in games :: Counted(g, identities)
    ensures var r := Replay(c, identities, games);
      r.numGamesPlayed == c.numGamesPlayed + |games| && r.numDraws == c.numDraws + DrawsOf(games) &&
      forall i | 0 <= i < |identities| ::
        r.totalScore[identities[i]] == c.totalScore[identities[i]] + TotalOf(games, identities[i]) &&
        r.wins[identities[i]] == c.wins[identities[i]] + WinsOf(games, identities[i])
    decreases |games|
  {
    if |games| > 0 {
      var init := games[..|games| - 1];
      var game := games[|games| - 1];
      assert games == init + [game];
      assert game in games && forall g | g in init :: g in games;
      ReplaySums(c, identities, init);
      AddedMeaning(Replay(c, identities, init).totalScore, identities, game.scores);
      forall i | 0 <= i < |identities|
        ensures TotalOf(games, identities[i]) == TotalOf(init, identities[i]) + game.scores[identities[i]]
        ensures WinsOf(games, identities[i]) == WinsOf(init, identities[i]) + if !game.tie && game.winner == identities[i] then 1 else 0
      {
        OneMoreGame(init, game, identities[i]);
      }
      OneMoreGame(init, game, game.winner);
    }
  }

  /** A batch's invariant: it started from zero for every identity, and its counters are the outcomes recorded since. */
  ghost predicate Counting<Id>(identities: seq<Id>, start: Counters<Id>, history: seq<GameOutcome<Id>>, current: Counters<Id>)
  {
    Distinct(identities) && Keyed(start, identities) &&
    start.numDraws == 0 && start.numGamesPlayed == 0 &&
    (forall i | 0 <= i < |identities| :: start.totalScore[identities[i]] == 0.0 && start.wins[identities[i]] == 0) &&
    (forall g | g in history :: Counted(g, identities)) &&
    current == Replay(start, identities, history)
  }

  /** Recording one more countable outcome keeps the invariant. */
  lemma CountingStep<Id>(identities: seq<Id>, start: Counters<Id>, history: seq<GameOutcome<Id>>, current: Counters<Id>, game: GameOutcome<Id>)
    requires Counting(identities, start, history, current) && Counted(game, identities)
    ensures Counting(identities, start, history + [game], Record(current, identities, game))
  {
    assert (history + [game])[..|history|] == history;
  }

  /**
   * Under the invariant the counters are the sums over the recorded
   * outcomes: games, draws, each identity's total score and wins, and every
   * game is a draw or one identity's win.
   */
  lemma CountingSums<Id>(identities: seq<Id>, start: Counters<Id>, history: seq<GameOutcome<Id>>, current: Counters<Id>)
    requires Counting(identities, start, history, current)
    ensures current.numGamesPlayed == |history| && current.numDraws == DrawsOf(history)
    ensures forall i | 0 <= i < |identities| ::
              identities[i] in current.totalScore && current.totalScore[identities[i]] == TotalOf(history, identities[i]) &&
              identities[i] in current.wins && current.wins[identities[i]] == WinsOf(history, identities[i])
    ensures current.numGamesPlayed == current.numDraws + SumOf(current.wins, identities)
  {
    ReplaySums(start, identities, history);
    assert forall g | g in history :: g.tie || g.winner in identities;
    GamesAreDrawsOrWins(history, identities, current.wins);
  }
}
