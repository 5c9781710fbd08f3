/**
 * The rules of one game of naughts and crosses between two bots
 * (src/games/naughts/singlegame.ts): the inputs each bot sees, how a bot's
 * numeric output becomes a move, when the game ends and how it is scored.
 */
module SingleGames {
  import opened Boards
  import opened NaughtsBots
  import opened GameResults
  import opened GamePlayers

  const Identities: seq<string> := ["X", "O"]
  const InputCount: nat := 18
  const OutputCount: nat := 9

  // ---------------------------------------------------------------- inputs

  /** getInputs' first loop over the cells below n: 1 where the cell holds identity's mark. */
  function OwnInputs(data: string, identity: string, n: nat): (inputs: seq<int>)
    ensures |inputs| == n
  {
    if n == 0 then []
    else OwnInputs(data, identity, n - 1) + [if CellAt(data, n - 1) == identity then 1 else 0]
  }

  /** getInputs' second loop over the cells below n: 1 where the cell holds neither identity's mark nor a blank. */
  function OtherInputs(data: string, identity: string, n: nat): (inputs: seq<int>)
    ensures |inputs| == n
  {
    if n == 0 then []
    else OtherInputs(data, identity, n - 1) + [if CellAt(data, n - 1) == identity || CellAt(data, n - 1) == " " then 0 else 1]
  }

  /** The inputs a bot playing identity sees: the own-mark flags of the nine cells, then the other-mark flags. */
  function Inputs(data: string, identity: string): seq<int>
  {
    OwnInputs(data, identity, CellCount) + OtherInputs(data, identity, CellCount)
  }

  lemma {:induction false} OwnInputsMeaning(data: string, identity: string, n: nat)
    ensures forall p | 0 <= p < n :: (OwnInputs(data, identity, n)[p] == 1 <==> CellAt(data, p) == identity)
    ensures forall p | 0 <= p < n :: OwnInputs(data, identity, n)[p] == 0 || OwnInputs(data, identity, n)[p] == 1
  {
    if n > 0 {
      OwnInputsMeaning(data, identity, n - 1);
    }
  }

  lemma {:induction false} OtherInputsMeaning(data: string, identity: string, n: nat)
    ensures forall p | 0 <= p < n ::
              (OtherInputs(data, identity, n)[p] == 1 <==> CellAt(data, p) != identity && CellAt(data, p) != " ")
    ensures forall p | 0 <= p < n :: OtherInputs(data, identity, n)[p] == 0 || OtherInputs(data, identity, n)[p] == 1
  {
    if n > 0 {
      OtherInputsMeaning(data, identity, n - 1);
    }
  }

  /**
   * Each input is 0 or 1; input p says the cell holds the bot's own mark,
   * input p + 9 that it holds some other mark; no cell sets both.
   */
  lemma InputsMeaning(data: string, identity: string)
    ensures |Inputs(data, identity)| == InputCount
    ensures forall p | 0 <= p < 9 :: (Inputs(data, identity)[p] == 1 <==> CellAt(data, p) == identity)
    ensures forall p | 0 <= p < 9 ::
              (Inputs(data, identity)[p + 9] == 1 <==> CellAt(data, p) != identity && CellAt(data, p) != " ")
    ensures forall i | 0 <= i < 18 :: Inputs(data, identity)[i] == 0 || Inputs(data, identity)[i] == 1
    ensures forall p | 0 <= p < 9 :: !(Inputs(data, identity)[p] == 1 && Inputs(data, identity)[p + 9] == 1)
  {
    OwnInputsMeaning(data, identity, CellCount);
    OtherInputsMeaning(data, identity, CellCount);
    var own := OwnInputs(data, identity, CellCount);
    var other := OtherInputs(data, identity, CellCount);
    assert forall p | 0 <= p < 9 :: Inputs(data, identity)[p] == own[p] && Inputs(data, identity)[p + 9] == other[p];
  }

  /**
   * The inputs lose nothing: a bot that rebuilds a board from them, as the
   * naughts bots do, sees every cell of a board of marks and blanks as it is.
   */
  lemma InputsRoundTrip(data: string, identity: string)
    requires |data| == 9 && OnlyMarks(data)
    requires identity == "X" || identity == "O"
    ensures forall p | 0 <= p < 9 :: CellAt(InputBoard(identity, Inputs(data, identity), 9), p) == CellAt(data, p)
  {
    var inputs := Inputs(data, identity);
    InputsMeaning(data, identity);
    OnlyMarksCells(data);
    InputBoardCells(identity, inputs, 9);
    forall p | 0 <= p < 9
      ensures ExpectedCell(identity, inputs, p) == CellAt(data, p)
    {
      OtherIdentitySwaps(identity);
    }
  }

  // ---------------------------------------------------------------- choosing a move

  /** |output − move| */
  function Distance(output: int, move: nat): nat
  {
    if output >= move then output - move else move - output
  }

  /**
   * The target update's loop holds after the first n moves: a move replaces
   * the current target only when strictly closer to output.
   */
  function ClosestIn(moves: seq<nat>, output: int, n: nat): nat
    requires 0 < n <= |moves|
  {
    if n == 1 then moves[0]
    else
      var c := ClosestIn(moves, output, n - 1);
      if Distance(output, moves[n - 1]) < Distance(output, c) then moves[n - 1] else c
  }

  /**
   * The target is one of the first n moves, none of them is closer to output,
   * and every move listed before it is strictly farther: the first closest.
   */
  lemma {:induction false} ClosestInIsFirstClosest(moves: seq<nat>, output: int, n: nat)
    requires 0 < n <= |moves|
    ensures exists i | 0 <= i < n :: moves[i] == ClosestIn(moves, output, n) &&
              forall j | 0 <= j < i :: Distance(output, moves[j]) > Distance(output, moves[i])
    ensures forall j | 0 <= j < n :: Distance(output, ClosestIn(moves, output, n)) <= Distance(output, moves[j])
  {
    if n > 1 {
      ClosestInIsFirstClosest(moves, output, n - 1);
      var c := ClosestIn(moves, output, n - 1);
      if Distance(output, moves[n - 1]) < Distance(output, c) {
        assert moves[n - 1] == ClosestIn(moves, output, n);
      }
    }
  }

  /** The move update makes for output when moves lists the free cells. */
  function Target(moves: seq<nat>, output: int): nat
    requires |moves| > 0
  {
    ClosestIn(moves, output, |moves|)
  }

  /**
   * On a board's free cells the target is a free cell, no free cell is closer
   * to output, and on a tie it is the lowest of the closest cells.
   */
  lemma TargetIsLowestClosest(data: string, output: int)
    requires |PossibleMoves(data)| > 0
    ensures Target(PossibleMoves(data), output) in PossibleMoves(data)
    ensures CellAt(data, Target(PossibleMoves(data), output)) == " " && Target(PossibleMoves(data), output) < 9
    ensures forall m | m in PossibleMoves(data) :: Distance(output, Target(PossibleMoves(data), output)) <= Distance(output, m)
    ensures forall m | m in PossibleMoves(data) && Distance(output, m) == Distance(output, Target(PossibleMoves(data), output)) ::
              Target(PossibleMoves(data), output) <= m
  {
    var moves := PossibleMoves(data);
    ClosestInIsFirstClosest(moves, output, |moves|);
    PossibleMovesSpec(data);
    var t := Target(moves, output);
    var i :| 0 <= i < |moves| && moves[i] == t && forall j | 0 <= j < i :: Distance(output, moves[j]) > Distance(output, moves[i]);
    forall m | m in moves && Distance(output, m) == Distance(output, t)
      ensures t <= m
    {
      var k :| 0 <= k < |moves| && moves[k] == m;
    }
  }

  /** An output that names a free cell marks exactly that cell. */
  lemma ExactOutputIsTarget(data: string, output: nat)
    requires output in PossibleMoves(data)
    ensures Target(PossibleMoves(data), output) == output
  {
    TargetIsLowestClosest(data, output);
    assert Distance(output, output) == 0;
  }

  // ---------------------------------------------------------------- scoring

  /** calculateScore: 10 − numTurns, times 1 for a win, −10 for a loss and 0 for a tie. */
  function CalculateScore(numTurns: int, outcome: int): (score: int)
    ensures outcome == 0 ==> score == 0
    ensures numTurns < 10 && outcome > 0 ==> score > 0
    ensures numTurns < 10 && outcome < 0 ==> score <= -10
  {
    (10 - numTurns) * (if outcome > 0 then 1 else if outcome < 0 then -10 else 0)
  }

  /**
   * Within the turns a game allows, a win scores positive, a loss negative and
   * a tie nothing; a quicker win scores more and a quicker loss costs more.
   */
  lemma ScoreRewardsQuickWins(n: int, n': int)
    requires n < n' < 10
    ensures CalculateScore(n, 1) > CalculateScore(n', 1) > 0
    ensures CalculateScore(n, -1) < CalculateScore(n', -1) < 0
    ensures CalculateScore(n, 0) == 0
  {
  }

  /** The outcomes getResult gives the two identities for a final board state. */
  function Outcomes(state: nat): seq<int>
  {
    if state == 1 then [1, -1] else if state == 2 then [-1, 1] else [0, 0]
  }

  // ---------------------------------------------------------------- the game

  class SingleGame {
    var gameBoard: Board

    constructor ()
      ensures fresh(gameBoard) && gameBoard.data == NewData
    {
      gameBoard := new Board();
    }

    method SetInitialState()
      modifies this
      ensures fresh(gameBoard) && gameBoard.data == NewData
    {
      gameBoard := new Board();
    }

    /** setState: a new board holding the saved board. */
    method SetState(state: BoardState)
      modifies this
      ensures fresh(gameBoard) && gameBoard.data == state.data
    {
      gameBoard := new Board();
      gameBoard.FromDict(state);
    }

    /** getState: the board, which setState restores. */
    method GetState() returns (state: BoardState)
      ensures state.data == gameBoard.data
    {
      state := gameBoard.ToDict();
    }

    /** getInputs: the inputs for identity and the free cells. */
    method GetInputs(identity: string) returns (inputs: seq<int>, moves: seq<nat>)
      ensures inputs == Inputs(gameBoard.data, identity)
      ensures moves == PossibleMoves(gameBoard.data)
    {
      inputs := [];
      for pos := 0 to 9
        invariant inputs == OwnInputs(gameBoard.data, identity, pos)
      {
        var c := gameBoard.GetAt(pos);
        inputs := inputs + [if c == identity then 1 else 0];
      }
      ghost var own := inputs;
      for pos := 0 to 9
        invariant inputs == own + OtherInputs(gameBoard.data, identity, pos)
      {
        var c := gameBoard.GetAt(pos);
        inputs := inputs + [if c == identity || c == " " then 0 else 1];
      }
      moves := gameBoard.GetPossibleMoves();
    }

    /**
     * update: a free cell must exist; the free cell closest to output (the
     * lowest of the closest) takes identity's mark.
     */
    method Update(identity: string, output: int)
      requires |PossibleMoves(gameBoard.data)| > 0
      modifies gameBoard
      ensures gameBoard.data == Placed(old(gameBoard.data), Target(PossibleMoves(old(gameBoard.data)), output), identity)
    {
      var moves := gameBoard.GetPossibleMoves();
      var targetMove: nat;
      if |moves| == 1 {
        targetMove := moves[0];
      } else {
        targetMove := moves[0];
        var lowestDiff := Distance(output, moves[0]);
        for i := 1 to |moves|
          invariant targetMove == ClosestIn(moves, output, i)
          invariant lowestDiff == Distance(output, targetMove)
        {
          var diff := Distance(output, moves[i]);
          if diff < lowestDiff {
            lowestDiff := diff;
            targetMove := moves[i];
          }
        }
      }
      gameBoard.SetAt(targetMove, identity);
    }

    predicate IsEnded()
      reads this, gameBoard
    {
      Boards.IsEnded(gameBoard.data)
    }

    /**
     * getResult: two bots and a finished board are required. X's win scores
     * X with outcome 1 and O with −1, O's win the reverse, a draw 0 each; the
     * status is a win or a tie accordingly, and the scores are listed X then O.
     */
    method GetResult(bots: seq<GamePlayer>, numTurns: map<string, int>) returns (result: GameResult)
      requires |bots| == 2
      requires GameState(gameBoard.data) > 0
      requires "X" in numTurns && "O" in numTurns
      ensures fresh(result) && IsResultOf(result, gameBoard.data, numTurns["X"], numTurns["O"])
    {
      result := new GameResult();
      var outcome := gameBoard.GetGameState();
      var outcomes := [0, 0];
      result.SetTie();
      if outcome == 1 {
        result.SetWin();
        outcomes := [1, -1];
      } else if outcome == 2 {
        result.SetWin();
        outcomes := [-1, 1];
      }
      assert outcomes == Outcomes(GameState(gameBoard.data));
      ghost var scores := ResultScores(gameBoard.data, numTurns["X"], numTurns["O"]);
      result.SetScore("X", CalculateScore(numTurns["X"], outcomes[0]) as real);
      assert "O" !in result.scores;
      result.SetScore("O", CalculateScore(numTurns["O"], outcomes[1]) as real);
      assert result.scores == scores;
    }
  }

  /** The scores getResult gives. */
  function ResultScores(data: string, turnsX: int, turnsO: int): map<string, real>
  {
    map["X" := CalculateScore(turnsX, Outcomes(GameState(data))[0]) as real,
        "O" := CalculateScore(turnsO, Outcomes(GameState(data))[1]) as real]
  }

  /**
   * What getResult reports for a finished board and the two turn counts: the
   * scores listed X then O, no stated winner, and a win status for a won board,
   * a tie status for a drawn one.
   */
  ghost predicate IsResultOf(result: GameResult, data: string, turnsX: int, turnsO: int)
    reads result
  {
    result.Valid() && result.keys == Identities && result.winner == "" &&
    result.scores == ResultScores(data, turnsX, turnsO) &&
    (result.IsWin() <==> GameState(data) == 1 || GameState(data) == 2) &&
    (result.IsTie() <==> GameState(data) == 3)
  }

  /**
   * getWinner over the scores of a won game (X listed first) names the board's
   * winner whenever neither bot took ten turns.
   */
  lemma ScoresCrownWinner(data: string, turnsX: int, turnsO: int)
    requires Winner(data) != "" && turnsX < 10 && turnsO < 10
    ensures Leader(ResultScores(data, turnsX, turnsO), Identities) == Winner(data)
  {
    var scores := ResultScores(data, turnsX, turnsO);
    assert Leader(scores, Identities) == if scores["X"] > scores["O"] then "X" else "O";
  }

  /** A game's update on a board of marks and blanks keeps one, with one free cell fewer. */
  lemma UpdateMarksOneFreeCell(data: string, identity: string, output: int)
    requires |data| == 9 && OnlyMarks(data)
    requires identity == "X" || identity == "O"
    requires |PossibleMoves(data)| > 0
    ensures var next := Placed(data, Target(PossibleMoves(data), output), identity);
            |next| == 9 && OnlyMarks(next) &&
            BlanksBelow(next, CellCount) < BlanksBelow(data, CellCount) &&
            CellAt(next, Target(PossibleMoves(data), output)) == identity &&
            forall p: nat | p != Target(PossibleMoves(data), output) :: CellAt(next, p) == CellAt(data, p)
  {
    var t := Target(PossibleMoves(data), output);
    TargetIsLowestClosest(data, output);
    PlacedOnlyMarks(data, t, identity);
    PlacedHasFewerBlanks(data, t, identity);
    PlacedCells(data, t, identity);
  }
}
