/**
 * A batch of games between the same two bots (src/lib/batch.ts): every game's
 * result is recorded into per-identity score totals, win counts and a draw
 * count, and the batch result holds each identity's average score. A normal
 * batch plays batchSize games from the start; a magic batch explores, first
 * in first out, every game a magic bot's alternative outputs lead to.
 */
module Batches {
  import opened Wrappers
  import opened Misc
  import opened Boards
  import opened GameResults
  import opened GamePlayers
  import opened SingleGames
  import opened GameBases
  import opened Tallies

  /** What the batch reads of a game result: getScore for each identity, isTie, and getWinner unless tied. */
  ghost function OutcomeOf(result: GameResult): GameOutcome<string>
    reads result
    requires result.Valid() && (result.IsTie() || result.winner != "" || |result.keys| > 0)
  {
    GameOutcome(result.scores, result.IsTie(), if result.IsTie() then "" else result.GetWinner())
  }

  /** The position every game of a batch starts from: an empty board, X to move, no turns taken. */
  function StartPosition(): (pos: Position)
    ensures PlayablePosition(pos)
  {
    NewBoardIsBlank();
    OnlyMarksCells(NewData);
    Position(NewData, 0, map["X" := 0, "O" := 0])
  }

  /** The outcome processResult reports for a finished position. */
  function EndOutcome(pos: Position): GameOutcome<string>
    requires "X" in pos.numTurns && "O" in pos.numTurns
  {
    var scores := ResultScores(pos.data, pos.numTurns["X"], pos.numTurns["O"]);
    var tie := GameState(pos.data) == 3;
    GameOutcome(scores, tie, if tie then "" else Leader(scores, Identities))
  }

  /** Every outcome of a finished naughts game can be added up by a batch over its identities. */
  lemma EndOutcomeCounted(pos: Position)
    requires "X" in pos.numTurns && "O" in pos.numTurns
    ensures Counted(EndOutcome(pos), Identities)
  {
    var scores := ResultScores(pos.data, pos.numTurns["X"], pos.numTurns["O"]);
    if GameState(pos.data) != 3 {
      var w := Leader(scores, Identities);
      assert w == "X" || w == "O";
      assert w == Identities[0] || w == Identities[1];
    }
  }

  /** Game i of a normal batch: played out from the start with that game's move function. */
  function NormalGame(plays: nat -> Process, i: nat): GameOutcome<string>
  {
    EndOutcome(Playout(StartPosition(), plays(i)))
  }

  /** f(1), ..., f(n), in order. */
  function Numbered<T>(f: nat -> T, n: nat): (s: seq<T>)
    ensures |s| == n
  {
    if n == 0 then [] else Numbered(f, n - 1) + [f(n)]
  }

  /** Entry j of Numbered(f, n) is f(j + 1). */
  lemma {:induction false} NumberedAt<T>(f: nat -> T, n: nat)
    ensures forall j | 0 <= j < n :: Numbered(f, n)[j] == f(j + 1)
  {
    if n > 0 {
      NumberedAt(f, n - 1);
    }
  }

  /**
   * The outcomes of games 1 .. n of a normal batch, in order, each played
   * with its own move function: the bots choose afresh in every game.
   */
  function NormalOutcomes(plays: nat -> Process, n: nat): (games: seq<GameOutcome<string>>)
    ensures |games| == n
  {
    Numbered(i => NormalGame(plays, i), n)
  }

  /** One more game of a normal batch appends its outcome. */
  lemma NormalOutcomesStep(plays: nat -> Process, n: nat)
    ensures NormalOutcomes(plays, n + 1) == NormalOutcomes(plays, n) + [NormalGame(plays, n + 1)]
  {
  }

  /** Entry j of a normal batch's outcomes is game j + 1, played with plays(j + 1). */
  lemma NormalOutcomesMeaning(plays: nat -> Process, n: nat)
    ensures forall j | 0 <= j < n :: NormalOutcomes(plays, n)[j] == NormalGame(plays, j + 1)
  {
    NumberedAt(i => NormalGame(plays, i), n);
  }

  lemma AppendEmpty<T>(s: seq<T>)
    ensures s + [] == s
  {
  }

  lemma PrependEmpty<T>(s: seq<T>)
    ensures [] + s == s
  {
  }

  /** Two different players are pairwise different over any prefix. */
  lemma PairDistinct<T>(s: seq<T>, n: nat)
    requires |s| == 2 && s[0] != s[1] && n <= 2
    ensures forall i, j | 0 <= i < j < n :: s[i] != s[j]
  {
  }

  /** Sequences that agree at every index are equal. */
  lemma SameSeq<T>(s: seq<T>, t: seq<T>)
    requires |s| == |t| && forall j | 0 <= j < |s| :: s[j] == t[j]
    ensures s == t
  {
  }

  lemma AppendAssoc<T>(s: seq<T>, t: seq<T>, u: seq<T>)
    ensures (s + t) + u == s + (t + u)
  {
  }

  /** A saved game as a position, and back. */
  function PositionOf(state: SavedGame): Position
    requires 0 <= state.currentBotIndex
  {
    Position(state.board.data, state.currentBotIndex, state.numTurns)
  }

  function SavedOf(pos: Position): SavedGame
  {
    SavedGame(pos.numTurns, pos.index, BoardState(pos.data))
  }

  /** A saved game the rules can be resumed from. */
  predicate Resumable(state: SavedGame)
  {
    0 <= state.currentBotIndex && PlayablePosition(PositionOf(state))
  }

  /**
   * What the turn of the bot to move leaves on the queue for an unfinished
   * saved game: every alternative when that bot is magic, else the one game
   * after its move.
   */
  function Successors(state: SavedGame, magic: seq<bool>, process: Process, processMagic: ProcessMagic): seq<SavedGame>
    requires Resumable(state) && !IsEnded(state.board.data) && |magic| == 2
  {
    var pos := PositionOf(state);
    OpenBoardHasMove(pos.data);
    if magic[pos.index] then Explored(pos, processMagic) else [SavedOf(Turn(pos, process))]
  }

  /** The start of a game as a saved state can be resumed. */
  lemma StartResumable()
    ensures Resumable(SavedOf(StartPosition()))
  {
    assert PositionOf(SavedOf(StartPosition())) == StartPosition();
  }

  /** Every game a turn leaves on the queue can be resumed and has a free cell fewer. */
  lemma SuccessorsResumable(state: SavedGame, magic: seq<bool>, process: Process, processMagic: ProcessMagic)
    requires Resumable(state) && !IsEnded(state.board.data) && |magic| == 2
    ensures forall next | next in Successors(state, magic, process, processMagic) ::
              Resumable(next) && BlanksBelow(next.board.data, CellCount) < BlanksBelow(state.board.data, CellCount)
  {
    var pos := PositionOf(state);
    OpenBoardHasMove(pos.data);
    if magic[pos.index] {
      var identity := Identities[pos.index];
      var outputs := processMagic(pos.index, Inputs(pos.data, identity), PossibleMoves(pos.data));
      var states := Explored(pos, processMagic);
      forall next | next in states
        ensures Resumable(next) && BlanksBelow(next.board.data, CellCount) < BlanksBelow(state.board.data, CellCount)
      {
        var i :| 0 <= i < |states| && states[i] == next;
        TurnProgresses(pos, outputs[i]);
      }
    } else {
      TurnProgresses(pos, BotOutput(pos, process));
    }
  }

  /**
   * The outcomes a magic batch adds, in order, when at most fuel saved games
   * are taken off the queue: a finished game adds its outcome, an unfinished
   * one is replaced at the back by what its turn leaves. The state taken off
   * while fuel steps remain is played with the move function plays(fuel), so
   * every step's plain bot chooses afresh.
   */
  ghost function MagicOutcomes(queue: seq<SavedGame>, magic: seq<bool>, plays: nat -> Process, processMagic: ProcessMagic, fuel: nat): (games: seq<GameOutcome<string>>)
    requires |magic| == 2 && forall s | s in queue :: Resumable(s)
    ensures forall g | g in games :: Counted(g, Identities)
    decreases fuel
  {
    if fuel == 0 || |queue| == 0 then []
    else
      assert queue[0] in queue && forall s | s in queue[1..] :: s in queue;
      assert Resumable(queue[0]);
      if IsEnded(queue[0].board.data) then
        EndOutcomeCounted(PositionOf(queue[0]));
        [EndOutcome(PositionOf(queue[0]))] + MagicOutcomes(queue[1..], magic, plays, processMagic, fuel - 1)
      else
        SuccessorsResumable(queue[0], magic, plays(fuel), processMagic);
        MagicOutcomes(queue[1..] + Successors(queue[0], magic, plays(fuel), processMagic), magic, plays, processMagic, fuel - 1)
  }

  /**
   * The outcomes a batch records after startBatch: the magic exploration from
   * the start, or the batchSize games the plain bots play, each with its own
   * move function.
   */
  ghost function BatchOutcomes(magic: bool, batchSize: nat, flags: seq<bool>, plays: nat -> Process, processMagic: ProcessMagic, fuel: nat): seq<GameOutcome<string>>
    requires |flags| == 2
  {
    StartResumable();
    if magic then MagicOutcomes([SavedOf(StartPosition())], flags, plays, processMagic, fuel)
    else NormalOutcomes(plays, batchSize)
  }

  /** Every outcome a batch records has a score for each identity and a winner among them unless tied. */
  lemma BatchOutcomesCounted(magic: bool, batchSize: nat, flags: seq<bool>, plays: nat -> Process, processMagic: ProcessMagic, fuel: nat)
    requires |flags| == 2
    ensures forall g | g in BatchOutcomes(magic, batchSize, flags, plays, processMagic, fuel) :: Counted(g, Identities)
  {
    StartResumable();
    if !magic {
      NormalOutcomesMeaning(plays, batchSize);
      forall g | g in NormalOutcomes(plays, batchSize)
        ensures Counted(g, Identities)
      {
        var j :| 0 <= j < batchSize && NormalOutcomes(plays, batchSize)[j] == g;
        EndOutcomeCounted(Playout(StartPosition(), plays(j + 1)));
      }
    }
  }

  /**
   * The first step of the exploration, after the outcomes already recorded:
   * a finished game adds its outcome and leaves the rest of the queue; any
   * other adds nothing and queues the turn's successors at the back.
   */
  lemma MagicOutcomesStep(recorded: seq<GameOutcome<string>>, queue: seq<SavedGame>, magic: seq<bool>,
                          plays: nat -> Process, processMagic: ProcessMagic, fuel: nat)
    requires |magic| == 2 && (forall s | s in queue :: Resumable(s)) && fuel > 0 && |queue| > 0
    ensures Resumable(queue[0])
    ensures IsEnded(queue[0].board.data) ==>
              (forall s | s in queue[1..] + [] :: Resumable(s)) &&
              recorded + MagicOutcomes(queue, magic, plays, processMagic, fuel) ==
              (recorded + [EndOutcome(PositionOf(queue[0]))]) + MagicOutcomes(queue[1..] + [], magic, plays, processMagic, fuel - 1)
    ensures !IsEnded(queue[0].board.data) ==>
              (forall s | s in queue[1..] + Successors(queue[0], magic, plays(fuel), processMagic) :: Resumable(s)) &&
              recorded + MagicOutcomes(queue, magic, plays, processMagic, fuel) ==
              recorded + MagicOutcomes(queue[1..] + Successors(queue[0], magic, plays(fuel), processMagic), magic, plays, processMagic, fuel - 1)
  {
    assert queue[0] in queue && forall s | s in queue[1..] :: s in queue;
    if IsEnded(queue[0].board.data) {
      assert queue[1..] + [] == queue[1..];
      AppendAssoc(recorded, [EndOutcome(PositionOf(queue[0]))], MagicOutcomes(queue[1..], magic, plays, processMagic, fuel - 1));
    } else {
      SuccessorsResumable(queue[0], magic, plays(fuel), processMagic);
    }
  }

  /** The outcomes depend on the fuel's value only. */
  lemma SameFuel(queue: seq<SavedGame>, magic: seq<bool>, plays: nat -> Process, processMagic: ProcessMagic, fuel: nat, other: nat)
    requires |magic| == 2 && (forall s | s in queue :: Resumable(s)) && fuel == other
    ensures MagicOutcomes(queue, magic, plays, processMagic, fuel) == MagicOutcomes(queue, magic, plays, processMagic, other)
  {
  }

  /** createBot of the bot's kind under its name, loaded with fromDict of the bot's toDict. */
  method Clone(bot: GamePlayer) returns (clone: GamePlayer)
    ensures fresh(clone)
    ensures clone.name == bot.name && clone.data == bot.ToDict() && clone.magic == bot.magic && clone.genetic == bot.genetic
  {
    clone := new GamePlayer();
    clone.name := bot.name;
    clone.magic := bot.magic;
    clone.genetic := bot.genetic;
    clone.FromDict(bot.ToDict());
  }

  /** cloneBots: one new player per bot, each a clone of that bot. */
  method CloneBots(bots: seq<GamePlayer>) returns (clones: seq<GamePlayer>)
    requires |bots| == 2
    ensures |clones| == 2 && fresh(clones[0]) && fresh(clones[1]) && clones[0] != clones[1]
    ensures forall i | 0 <= i < 2 ::
              clones[i].name == bots[i].name && clones[i].data == bots[i].ToDict() &&
              clones[i].magic == bots[i].magic && clones[i].genetic == bots[i].genetic
  {
    var first := Clone(bots[0]);
    var second := Clone(bots[1]);
    clones := [first, second];
  }

  /**
   * A new game object in its initial state, started with clones of the bots:
   * a blank board, X to move, no turns taken, and one fresh clone per bot
   * with that bot's flags.
   */
  method StartedGame(bots: seq<GamePlayer>) returns (gameObj: GameBase)
    requires |bots| == 2
    ensures fresh(gameObj) && fresh(gameObj.game) && fresh(gameObj.game.gameBoard)
    ensures gameObj.Valid() && gameObj.Current() == StartPosition()
    ensures |gameObj.bots| == 2 && fresh(gameObj.bots[0]) && fresh(gameObj.bots[1]) && gameObj.bots[0] != gameObj.bots[1]
    ensures gameObj.bots[0].magic == bots[0].magic && gameObj.bots[1].magic == bots[1].magic
  {
    var single := new SingleGame();
    single.SetInitialState();
    gameObj := new GameBase(single);
    var clones := CloneBots(bots);
    gameObj.Start(clones);
    NewBoardIsBlank(); OnlyMarksCells(NewData);
  }

  /** The scores after the loop of processBatchResult has set the first n identities' averages. */
  function ScoresUpTo(identities: seq<string>, averages: map<string, real>, n: nat): map<string, real>
    requires n <= |identities| && forall i | 0 <= i < |identities| :: identities[i] in averages
  {
    if n == 0 then map[] else ScoresUpTo(identities, averages, n - 1)[identities[n - 1] := averages[identities[n - 1]]]
  }

  /** The first n identities hold their averages, and nothing else is set. */
  lemma {:induction false} ScoresUpToDomain(identities: seq<string>, averages: map<string, real>, n: nat)
    requires n <= |identities| && forall i | 0 <= i < |identities| :: identities[i] in averages
    ensures forall j | 0 <= j < n :: identities[j] in ScoresUpTo(identities, averages, n) &&
              ScoresUpTo(identities, averages, n)[identities[j]] == averages[identities[j]]
    ensures forall k | k in ScoresUpTo(identities, averages, n) :: k in identities[..n]
  {
    if n > 0 {
      ScoresUpToDomain(identities, averages, n - 1);
      assert identities[..n] == identities[..n - 1] + [identities[n - 1]];
    }
  }

  /** Among distinct identities, the n-th is not yet set after the first n. */
  lemma ScoresUpToAbsent(identities: seq<string>, averages: map<string, real>, n: nat)
    requires Distinct(identities) && n < |identities| && forall i | 0 <= i < |identities| :: identities[i] in averages
    ensures identities[n] !in ScoresUpTo(identities, averages, n)
  {
    ScoresUpToDomain(identities, averages, n);
  }

  /**
   * The loop of processBatchResult: each identity's average is given to its
   * bot as its score and set as the identity's score in a new batch result.
   */
  method Averages(identities: seq<string>, averages: map<string, real>, bots: seq<GamePlayer>) returns (batchResult: GameResult)
    requires Distinct(identities) && forall i | 0 <= i < |identities| :: identities[i] in averages
    requires |identities| <= |bots| && forall i, j | 0 <= i < j < |identities| :: bots[i] != bots[j]
    modifies bots`score
    ensures fresh(batchResult) && batchResult.Valid() && batchResult.IsBatch()
    ensures batchResult.keys == identities && batchResult.winner == ""
    ensures forall i | 0 <= i < |identities| ::
              batchResult.scores[identities[i]] == averages[identities[i]] &&
              bots[i].score == Some(averages[identities[i]])
  {
    batchResult := new GameResult();
    batchResult.SetBatch();
    for i := 0 to |identities|
      invariant fresh(batchResult) && batchResult.IsBatch() && batchResult.winner == ""
      invariant batchResult.scores == ScoresUpTo(identities, averages, i)
      invariant |batchResult.keys| == i && forall j | 0 <= j < i :: batchResult.keys[j] == identities[j]
      invariant forall j | 0 <= j < i :: bots[j].score == Some(averages[identities[j]])
    {
      var identity := identities[i];
      ScoresUpToAbsent(identities, averages, i);
      bots[i].score := Some(averages[identity]);
      batchResult.SetScore(identity, bots[i].Score());
    }
    SameSeq(batchResult.keys, identities);
    ScoresUpToDomain(identities, averages, |identities|);
  }

  /** A finished game's result is what the batch reads as its outcome, and the batch can count it. */
  lemma ResultOutcome(result: GameResult, pos: Position)
    requires PlayablePosition(pos) && IsResultOf(result, pos.data, pos.numTurns["X"], pos.numTurns["O"])
    ensures result.Valid() && (result.IsTie() || result.winner != "" || |result.keys| > 0)
    ensures OutcomeOf(result) == EndOutcome(pos) && Counted(OutcomeOf(result), Identities)
  {
    EndOutcomeCounted(pos);
  }

  /**
   * A batch result as processBatchResult leaves it: status batch, one score
   * per identity, and each identity's score, as well as the score of the bot
   * playing it, is the identity's mean over the games.
   */
  ghost predicate MeansScored(result: GameResult, bots: seq<GamePlayer>, identities: seq<string>, history: seq<GameOutcome<string>>)
    reads result, bots
  {
    result.Valid() && result.IsBatch() && result.keys == identities && |identities| <= |bots| &&
    |history| > 0 && (forall g | g in history :: forall i | 0 <= i < |identities| :: identities[i] in g.scores) &&
    forall i | 0 <= i < |identities| ::
      identities[i] in result.scores && result.scores[identities[i]] == Mean(history, identities[i]) &&
      bots[i].score == Some(Mean(history, identities[i]))
  }

  /**
   * One game of a normal batch: a new game object in its initial state,
   * started with clones of the bots and run to its end. With plain bots its
   * outcome is that of the game played out from the start.
   */
  method PlayGame(bots: seq<GamePlayer>, process: Process, processMagic: ProcessMagic) returns (result: GameResult)
    requires |bots| == 2 && !bots[0].magic && !bots[1].magic
    ensures fresh(result) && result.Valid() && (result.IsTie() || result.winner != "" || |result.keys| > 0)
    ensures OutcomeOf(result) == EndOutcome(Playout(StartPosition(), process))
  {
    var gameObj := StartedGame(bots);
    result := gameObj.Run(process, processMagic);
    ResultOutcome(result, gameObj.Current());
  }

  /**
   * One saved game of a magic batch: a new game object given the batch's
   * clones and the saved state. A finished game gives its result; otherwise
   * the bot to move takes its turn and the states it leaves are returned.
   */
  method PlayState(bots: seq<GamePlayer>, state: SavedGame, process: Process, processMagic: ProcessMagic)
    returns (result: Option<GameResult>, next: seq<SavedGame>)
    requires |bots| == 2 && bots[0] != bots[1] && Resumable(state)
    modifies bots
    ensures forall i | 0 <= i < 2 :: bots[i].magic == old(bots[i].magic)
    ensures IsEnded(state.board.data) ==>
              result.Some? && fresh(result.value) && result.value.Valid() &&
              (result.value.IsTie() || result.value.winner != "" || |result.value.keys| > 0) &&
              OutcomeOf(result.value) == EndOutcome(PositionOf(state)) && next == []
    ensures !IsEnded(state.board.data) ==>
              result == None && next == Successors(state, [old(bots[0].magic), old(bots[1].magic)], process, processMagic)
  {
    var single := new SingleGame();
    var gameObj := new GameBase(single);
    gameObj.SetBots(bots);
    gameObj.FromDict(state);
    if gameObj.game.IsEnded() {
      var r := gameObj.ProcessResult();
      ResultOutcome(r, PositionOf(state));
      result, next := Some(r), [];
    } else {
      next := gameObj.DoTurn(process, processMagic);
      result := None;
    }
  }

  class Batch {
    const bots: seq<GamePlayer>
    /** The batch configuration: games per normal batch, and whether the batch is magic. */
    const batchSize: nat
    const magic: bool
    var totalScore: map<string, real>
    var wins: map<string, int>
    var numDraws: int
    var identities: seq<string>
    var numGamesPlayed: int
    /** The counters when the batch started, and the outcomes processed since, in order. */
    ghost var start: Counters<string>
    ghost var history: seq<GameOutcome<string>>

    constructor (bots: seq<GamePlayer>, batchSize: nat, magic: bool)
      ensures this.bots == bots && this.batchSize == batchSize && this.magic == magic
      ensures totalScore == map[] && wins == map[] && numDraws == 0 && identities == [] && numGamesPlayed == 0
      ensures history == [] && Valid()
    {
      this.bots := bots;
      this.batchSize := batchSize;
      this.magic := magic;
      totalScore := map[];
      wins := map[];
      numDraws := 0;
      identities := [];
      numGamesPlayed := 0;
      start := Counters(map[], map[], 0, 0);
      history := [];
    }

    /** The four counters as one value. */
    function Current(): Counters<string>
      reads this
    {
      Counters(totalScore, wins, numDraws, numGamesPlayed)
    }

    /** The counters are those the outcomes processed since startBatch leave, from zero. */
    ghost predicate Valid()
      reads this
    {
      Counting(identities, start, history, Current())
    }

    /** The counters are the sums over the processed outcomes, and every game was a draw or one identity's win. */
    lemma Sums()
      requires Valid()
      ensures numGamesPlayed == |history| && numDraws == DrawsOf(history)
      ensures forall i | 0 <= i < |identities| ::
                identities[i] in totalScore && totalScore[identities[i]] == TotalOf(history, identities[i]) &&
                identities[i] in wins && wins[identities[i]] == WinsOf(history, identities[i])
      ensures numGamesPlayed == numDraws + SumOf(wins, identities)
    {
      CountingSums(identities, start, history, Current());
    }

    /** startBatch: the game's identities, each with no score and no wins, and no games played or drawn. */
    method StartBatch()
      modifies this`identities, this`totalScore, this`wins, this`numGamesPlayed, this`numDraws, this`start, this`history
      ensures Valid() && identities == Identities && history == []
      ensures numGamesPlayed == 0 && numDraws == 0
      ensures forall i | 0 <= i < |identities| :: totalScore[identities[i]] == 0.0 && wins[identities[i]] == 0
      ensures forall k | k in old(totalScore) && k !in identities :: k in totalScore && totalScore[k] == old(totalScore)[k]
      ensures forall k | k in old(wins) && k !in identities :: k in wins && wins[k] == old(wins)[k]
    {
      identities := Identities;
      var totals := totalScore;
      var counts := wins;
      for i := 0 to |identities|
        invariant forall j | 0 <= j < i :: identities[j] in totals && totals[identities[j]] == 0.0
        invariant forall j | 0 <= j < i :: identities[j] in counts && counts[identities[j]] == 0
        invariant forall k | k in totalScore && k !in identities :: k in totals && totals[k] == totalScore[k]
        invariant forall k | k in wins && k !in identities :: k in counts && counts[k] == wins[k]
      {
        totals := totals[identities[i] := 0.0];
        counts := counts[identities[i] := 0];
      }
      totalScore := totals;
      wins := counts;
      numGamesPlayed := 0;
      numDraws := 0;
      start := Current();
      history := [];
    }

    /**
     * processGameResult: one more game; each identity's score is added to its
     * total, and the draws or the winner's wins go up by one. A score missing
     * for an identity, or a winner outside them, would count as NaN.
     */
    method ProcessGameResult(result: GameResult)
      requires Valid() && result.Valid() && (result.IsTie() || result.winner != "" || |result.keys| > 0)
      requires Counted(OutcomeOf(result), identities)
      modifies this`totalScore, this`wins, this`numDraws, this`numGamesPlayed, this`history
      ensures Valid() && history == old(history) + [OutcomeOf(result)]
      ensures Current() == Record(old(Current()), identities, OutcomeOf(result))
    {
      var tie := result.IsTie();
      var winner := if tie then "" else result.GetWinner();
      var game := GameOutcome(result.scores, tie, winner);
      CountingStep(identities, start, history, Current(), game);
      var next := Tally(Current(), identities, game);
      totalScore, wins, numDraws, numGamesPlayed := next.totalScore, next.wins, next.numDraws, next.numGamesPlayed;
      history := history + [game];
    }

    /**
     * processBatchResult: at least one game must have been played; each bot's
     * score, and its identity's score in the batch result, is the identity's
     * average score over the games.
     */
    method ProcessBatchResult() returns (batchResult: GameResult)
      requires Valid() && numGamesPlayed > 0
      requires |identities| <= |bots| && forall i, j | 0 <= i < j < |identities| :: bots[i] != bots[j]
      modifies bots`score
      ensures Valid() && history == old(history) && identities == old(identities)
      ensures fresh(batchResult) && batchResult.winner == "" && MeansScored(batchResult, bots, identities, history)
    {
      var games := numGamesPlayed as real;
      AveragesAreMeans();
      batchResult := Averages(identities, map identity | identity in totalScore :: totalScore[identity] / games, bots);
    }

    /** The averages processBatchResult reports are the means of the processed outcomes. */
    lemma AveragesAreMeans()
      requires Valid() && numGamesPlayed > 0
      ensures forall g | g in history :: forall i | 0 <= i < |identities| :: identities[i] in g.scores
      ensures forall i | 0 <= i < |identities| ::
                identities[i] in totalScore && totalScore[identities[i]] / (numGamesPlayed as real) == Mean(history, identities[i])
    {
      Sums();
    }

    /** One pass of runNormalBatch's loop: a game from the start with clones of the bots, and its result processed. */
    method PlayNormalGame(process: Process, processMagic: ProcessMagic)
      requires Valid() && identities == Identities && |bots| == 2 && !bots[0].magic && !bots[1].magic
      modifies this`totalScore, this`wins, this`numDraws, this`numGamesPlayed, this`history
      ensures Valid() && history == old(history) + [EndOutcome(Playout(StartPosition(), process))]
    {
      var result := PlayGame(bots, process, processMagic);
      EndOutcomeCounted(Playout(StartPosition(), process));
      ProcessGameResult(result);
    }

    /**
     * runNormalBatch: games 1 .. batchSize, each from the start with fresh
     * clones of the bots; game i is played with the move function plays(i),
     * so the bots choose afresh in every game. The loop runs over the games
     * already played, n, and plays game n + 1.
     */
    method RunNormalBatch(plays: nat -> Process, processMagic: ProcessMagic)
      requires Valid() && identities == Identities && |bots| == 2 && !bots[0].magic && !bots[1].magic
      modifies this`totalScore, this`wins, this`numDraws, this`numGamesPlayed, this`history
      ensures Valid()
      ensures history == old(history) + NormalOutcomes(plays, batchSize)
    {
      assert NormalOutcomes(plays, 0) == [];
      AppendEmpty(history);
      for n := 0 to batchSize
        invariant Valid() && history == old(history) + NormalOutcomes(plays, n)
      {
        NormalOutcomesStep(plays, n);
        AppendAssoc(old(history), NormalOutcomes(plays, n), [NormalGame(plays, n + 1)]);
        PlayNormalGame(plays(n + 1), processMagic);
      }
    }

    /**
     * One pass of runMagicBatch's loop: a new game object given the batch's
     * clones and the saved state. A finished game has its result processed;
     * otherwise the bot to move takes its turn and the states it leaves are
     * returned for the queue.
     */
    method PlaySaved(first: GamePlayer, second: GamePlayer, ghost flags: seq<bool>, state: SavedGame, process: Process, processMagic: ProcessMagic)
      returns (outputStates: seq<SavedGame>)
      requires Valid() && identities == Identities && first != second && Resumable(state)
      requires flags == [first.magic, second.magic]
      modifies this`totalScore, this`wins, this`numDraws, this`numGamesPlayed, this`history, first, second
      ensures Valid() && identities == old(identities) && flags == [first.magic, second.magic]
      ensures IsEnded(state.board.data) ==> history == old(history) + [EndOutcome(PositionOf(state))] && outputStates == []
      ensures !IsEnded(state.board.data) ==>
                history == old(history) &&
                outputStates == Successors(state, flags, process, processMagic)
    {
      var result;
      result, outputStates := PlayState([first, second], state, process, processMagic);
      if result.Some? {
        EndOutcomeCounted(PositionOf(state));
        ProcessGameResult(result.value);
      }
    }

    /**
     * One pass of runMagicBatch's loop on its queue: the front state is
     * played and the states it leaves go on the back. What is recorded
     * plus what the rest of the queue adds is what the whole queue added.
     */
    method Explore(first: GamePlayer, second: GamePlayer, ghost flags: seq<bool>, gameStack: seq<SavedGame>,
                   plays: nat -> Process, processMagic: ProcessMagic, left: nat)
      returns (next: seq<SavedGame>, rest: nat)
      requires Valid() && identities == Identities && first != second && flags == [first.magic, second.magic]
      requires (forall s | s in gameStack :: Resumable(s)) && |gameStack| > 0 && left > 0
      modifies this`totalScore, this`wins, this`numDraws, this`numGamesPlayed, this`history, first, second
      ensures Valid() && identities == old(identities) && flags == [first.magic, second.magic]
      ensures rest == left - 1 && forall s | s in next :: Resumable(s)
      ensures history + MagicOutcomes(next, flags, plays, processMagic, rest) ==
              old(history) + MagicOutcomes(gameStack, flags, plays, processMagic, left)
    {
      var state := gameStack[0];
      MagicOutcomesStep(history, gameStack, flags, plays, processMagic, left);
      var outputStates := PlaySaved(first, second, flags, state, plays(left), processMagic);
      next := gameStack[1..] + outputStates;
      rest := left - 1;
      SameFuel(next, flags, plays, processMagic, left - 1, rest);
    }

    /**
     * runMagicBatch: the start state goes on a queue; each state taken off
     * the front is either a finished game, whose result is processed, or has
     * its turn taken, the states it leaves going on the back. At most fuel
     * states are taken; the state taken while left steps remain is played
     * with the move function plays(left).
     */
    method RunMagicBatch(plays: nat -> Process, processMagic: ProcessMagic, fuel: nat)
      requires Valid() && identities == Identities && |bots| == 2
      modifies this`totalScore, this`wins, this`numDraws, this`numGamesPlayed, this`history
      ensures Valid()
      ensures history == old(history) +
                MagicOutcomes([SavedOf(StartPosition())], [old(bots[0].magic), old(bots[1].magic)], plays, processMagic, fuel)
    {
      var startGameObj := StartedGame(bots);
      var startGameState := startGameObj.ToDict();
      var first, second := startGameObj.bots[0], startGameObj.bots[1];
      ghost var flags := [first.magic, second.magic];
      ghost var all := MagicOutcomes([startGameState], flags, plays, processMagic, fuel);
      AppendEmpty(all);
      var gameStack := [startGameState];
      var left := fuel;
      while |gameStack| > 0 && left > 0
        invariant Valid() && identities == Identities
        invariant fresh(first) && fresh(second) && first != second && [first.magic, second.magic] == flags
        invariant forall s | s in gameStack :: Resumable(s)
        invariant old(history) + all == history + MagicOutcomes(gameStack, flags, plays, processMagic, left)
        decreases left
      {
        gameStack, left := Explore(first, second, flags, gameStack, plays, processMagic, left);
      }
    }

    /** runBatch up to processBatchResult: startBatch, then a magic or a normal batch. */
    method PlayBatch(plays: nat -> Process, processMagic: ProcessMagic, fuel: nat)
      requires |bots| == 2
      requires !magic ==> !bots[0].magic && !bots[1].magic
      modifies this`identities, this`totalScore, this`wins, this`numGamesPlayed, this`numDraws, this`start, this`history
      ensures Valid() && identities == Identities
      ensures history == BatchOutcomes(magic, batchSize, [old(bots[0].magic), old(bots[1].magic)], plays, processMagic, fuel)
    {
      ghost var flags := [bots[0].magic, bots[1].magic];
      StartBatch();
      if magic {
        RunMagicBatch(plays, processMagic, fuel);
        PrependEmpty(MagicOutcomes([SavedOf(StartPosition())], flags, plays, processMagic, fuel));
      } else {
        RunNormalBatch(plays, processMagic);
        PrependEmpty(NormalOutcomes(plays, batchSize));
      }
    }

    /**
     * runBatch: startBatch, a magic or a normal batch, then
     * processBatchResult, which fails when no game was played. Each bot's
     * score is its identity's mean score over the games the batch recorded.
     */
    method RunBatch(plays: nat -> Process, processMagic: ProcessMagic, fuel: nat) returns (batchResult: Option<GameResult>)
      requires |bots| == 2 && bots[0] != bots[1]
      requires !magic ==> !bots[0].magic && !bots[1].magic
      modifies this`identities, this`totalScore, this`wins, this`numGamesPlayed, this`numDraws, this`start, this`history, bots`score
      ensures Valid() && identities == Identities && |identities| == |bots|
      ensures history == BatchOutcomes(magic, batchSize, [old(bots[0].magic), old(bots[1].magic)], plays, processMagic, fuel)
      ensures batchResult.None? <==> history == []
      ensures batchResult.Some? ==> fresh(batchResult.value) && MeansScored(batchResult.value, bots, identities, history)
    {
      PlayBatch(plays, processMagic, fuel);
      Sums();
      if numGamesPlayed == 0 {
        batchResult := None;
      } else {
        PairDistinct(bots, |identities|);
        var r := ProcessBatchResult();
        batchResult := Some(r);
      }
    }
  }
}
