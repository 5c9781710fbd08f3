/**
 * The turn loop every game shares (src/lib/gamebase.ts), with the rules of
 * the one game in this model, naughts and crosses, as its game methods: the
 * bots, whose turn it is, the number of turns each identity has had, saving
 * and restoring that state, one turn, a whole game and its result.
 *
 * A bot's process and processMagic are functions of the bot's position in
 * the line-up, its inputs and the free cells.
 */
module GameBases {
  import opened Wrappers
  import opened Boards
  import opened GameResults
  import opened GamePlayers
  import opened SingleGames

  /** toDict of a game: the turn counts, whose turn it is and the board. */
  datatype SavedGame = SavedGame(numTurns: map<string, int>, currentBotIndex: int, board: BoardState)

  /** The output a bot gives for its inputs and the free cells. */
  type Process = (nat, seq<int>, seq<nat>) -> int
  /** The outputs a magic bot gives, one per position to explore. */
  type ProcessMagic = (nat, seq<int>, seq<nat>) -> seq<int>

  /** The bot index after a turn: the next bot, wrapping round to the first. */
  function NextIndex(index: int, botCount: nat): (next: int)
    ensures 0 <= index < botCount ==> 0 <= next < botCount
  {
    if index + 1 >= botCount then 0 else index + 1
  }

  /** Where a game stands: the board, whose turn it is and the turns each identity has had. */
  datatype Position = Position(data: string, index: nat, numTurns: map<string, int>)

  predicate PlayablePosition(pos: Position)
  {
    |pos.data| == 9 && OnlyMarks(pos.data) && pos.index < 2 &&
    "X" in pos.numTurns && "O" in pos.numTurns
  }

  /** The output the bot to move at pos gives for the position's inputs and free cells. */
  function BotOutput(pos: Position, process: Process): int
    requires PlayablePosition(pos)
  {
    process(pos.index, Inputs(pos.data, Identities[pos.index]), PossibleMoves(pos.data))
  }

  /**
   * The turn output makes at pos: the free cell it picks takes the current
   * identity's mark, that identity's count goes up and the other bot is to move.
   */
  function TurnWith(pos: Position, output: int): Position
    requires PlayablePosition(pos) && |PossibleMoves(pos.data)| > 0
  {
    var identity := Identities[pos.index];
    Position(Placed(pos.data, Target(PossibleMoves(pos.data), output), identity), NextIndex(pos.index, 2),
             pos.numTurns[identity := pos.numTurns[identity] + 1])
  }

  /** One non-magic turn from pos: the bot's own output decides the move. */
  function Turn(pos: Position, process: Process): Position
    requires PlayablePosition(pos) && |PossibleMoves(pos.data)| > 0
  {
    TurnWith(pos, BotOutput(pos, process))
  }

  /**
   * A magic turn from pos: one saved game per output of the bot, each the
   * position after that output's move, with the turn counted and the next
   * bot to move.
   */
  function Explored(pos: Position, processMagic: ProcessMagic): (states: seq<SavedGame>)
    requires PlayablePosition(pos) && |PossibleMoves(pos.data)| > 0
  {
    var identity := Identities[pos.index];
    var outputs := processMagic(pos.index, Inputs(pos.data, identity), PossibleMoves(pos.data));
    Explore(pos.data, pos.index, pos.numTurns[identity := pos.numTurns[identity] + 1], outputs)
  }

  /** The saved games after each of outputs is applied for the bot at index, turns as given. */
  function Explore(data: string, index: nat, numTurns: map<string, int>, outputs: seq<int>): (states: seq<SavedGame>)
    requires |PossibleMoves(data)| > 0 && index < 2
    ensures |states| == |outputs|
  {
    seq(|outputs|, i requires 0 <= i < |outputs| =>
      SavedGame(numTurns, NextIndex(index, 2),
                BoardState(Placed(data, Target(PossibleMoves(data), outputs[i]), Identities[index]))))
  }

  /** Whatever the output, a turn leaves a playable position with one free cell fewer. */
  lemma TurnProgresses(pos: Position, output: int)
    requires PlayablePosition(pos) && |PossibleMoves(pos.data)| > 0
    ensures PlayablePosition(TurnWith(pos, output))
    ensures BlanksBelow(TurnWith(pos, output).data, CellCount) < BlanksBelow(pos.data, CellCount)
  {
    UpdateMarksOneFreeCell(pos.data, Identities[pos.index], output);
  }

  /** run's loop: turns until the game has ended. */
  function Playout(pos: Position, process: Process): (final: Position)
    requires PlayablePosition(pos)
    ensures PlayablePosition(final) && IsEnded(final.data)
    decreases BlanksBelow(pos.data, CellCount)
  {
    if IsEnded(pos.data) then pos
    else
      OpenBoardHasMove(pos.data);
      TurnProgresses(pos, BotOutput(pos, process));
      Playout(Turn(pos, process), process)
  }

  /**
   * A game played out gives each identity at most one turn per free cell of
   * the starting board beyond those it had, and at least as many as before.
   */
  lemma {:induction false} PlayoutCountsTurns(pos: Position, process: Process)
    requires PlayablePosition(pos)
    ensures var final := Playout(pos, process);
            pos.numTurns["X"] <= final.numTurns["X"] && pos.numTurns["O"] <= final.numTurns["O"] &&
            (final.numTurns["X"] - pos.numTurns["X"]) + (final.numTurns["O"] - pos.numTurns["O"])
              <= BlanksBelow(pos.data, CellCount) - BlanksBelow(final.data, CellCount)
    decreases BlanksBelow(pos.data, CellCount)
  {
    if !IsEnded(pos.data) {
      OpenBoardHasMove(pos.data);
      TurnProgresses(pos, BotOutput(pos, process));
      PlayoutCountsTurns(Turn(pos, process), process);
    }
  }

  class GameBase {
    /** The game methods: the naughts and crosses rules. */
    const game: SingleGame
    var bots: seq<GamePlayer>
    var currentBotIndex: int
    var numTurns: map<string, int>

    constructor (game: SingleGame)
      ensures this.game == game
      ensures bots == [] && currentBotIndex == 0 && numTurns == map[]
    {
      this.game := game;
      bots := [];
      currentBotIndex := 0;
      numTurns := map[];
    }

    /** A game in progress: two bots, a valid turn, both turn counts and a board of marks and blanks. */
    ghost predicate Valid()
      reads this, game, game.gameBoard
    {
      |bots| == 2 && 0 <= currentBotIndex < 2 && "X" in numTurns && "O" in numTurns &&
      |game.gameBoard.data| == 9 && OnlyMarks(game.gameBoard.data)
    }

    /** The game as a position. */
    ghost function Current(): (pos: Position)
      reads this, game, game.gameBoard
      requires Valid()
      ensures PlayablePosition(pos)
    {
      Position(game.gameBoard.data, currentBotIndex, numTurns)
    }

    /** setBots: one bot per identity is required. */
    method SetBots(newBots: seq<GamePlayer>)
      requires |newBots| == |Identities|
      modifies this
      ensures bots == newBots
      ensures currentBotIndex == old(currentBotIndex) && numTurns == old(numTurns)
    {
      bots := newBots;
    }

    /**
     * start: the bots take the identities in order, every identity's turn count
     * is set to 0, and the first bot is to move.
     */
    method Start(newBots: seq<GamePlayer>)
      requires |newBots| == |Identities|
      requires newBots[0] != newBots[1]
      modifies this, newBots
      ensures bots == newBots
      ensures forall i | 0 <= i < |bots| :: bots[i].identity == Identities[i]
      ensures forall i | 0 <= i < |newBots| ::
                newBots[i].name == old(newBots[i].name) && newBots[i].score == old(newBots[i].score) &&
                newBots[i].data == old(newBots[i].data) && newBots[i].magic == old(newBots[i].magic) &&
                newBots[i].genetic == old(newBots[i].genetic)
      ensures numTurns == old(numTurns)["X" := 0]["O" := 0]
      ensures currentBotIndex == 0
    {
      SetBots(newBots);
      for i := 0 to |bots|
        modifies newBots
        invariant forall j | 0 <= j < i :: bots[j].identity == Identities[j]
        invariant forall j | 0 <= j < |newBots| ::
                    newBots[j].name == old(newBots[j].name) && newBots[j].score == old(newBots[j].score) &&
                    newBots[j].data == old(newBots[j].data) && newBots[j].magic == old(newBots[j].magic) &&
                    newBots[j].genetic == old(newBots[j].genetic)
      {
        bots[i].identity := Identities[i];
      }
      for i := 0 to |Identities|
        modifies this`numTurns
        invariant numTurns == if i == 0 then old(numTurns) else if i == 1 then old(numTurns)["X" := 0] else old(numTurns)["X" := 0]["O" := 0]
      {
        numTurns := numTurns[Identities[i] := 0];
      }
      currentBotIndex := 0;
    }

    /** toDict: the turn counts, the bot to move and the board. */
    method ToDict() returns (state: SavedGame)
      ensures state == SavedGame(numTurns, currentBotIndex, BoardState(game.gameBoard.data))
    {
      var board := game.GetState();
      state := SavedGame(numTurns, currentBotIndex, board);
    }

    /** fromDict: everything toDict saved comes back; the board is a new one. */
    method FromDict(state: SavedGame)
      modifies this, game
      ensures numTurns == state.numTurns && currentBotIndex == state.currentBotIndex
      ensures fresh(game.gameBoard) && game.gameBoard.data == state.board.data
      ensures bots == old(bots)
    {
      numTurns := state.numTurns;
      currentBotIndex := state.currentBotIndex;
      game.SetState(state.board);
    }

    /** loadFromState: start, then the saved state. */
    method LoadFromState(newBots: seq<GamePlayer>, state: SavedGame)
      requires |newBots| == |Identities|
      requires newBots[0] != newBots[1]
      modifies this, game, newBots
      ensures bots == newBots
      ensures forall i | 0 <= i < |bots| :: bots[i].identity == Identities[i]
      ensures numTurns == state.numTurns && currentBotIndex == state.currentBotIndex
      ensures fresh(game.gameBoard) && game.gameBoard.data == state.board.data
    {
      Start(newBots);
      FromDict(state);
    }

    /**
     * doTurn: the current identity's turn count goes up. A plain bot's output
     * is applied and the next bot is to move; the one state returned is the
     * game after it. A magic bot's outputs are each applied to the position
     * in turn and saved, and the game goes back to the position before each;
     * one state is returned per output.
     */
    method DoTurn(process: Process, processMagic: ProcessMagic) returns (states: seq<SavedGame>)
      requires Valid() && !IsEnded(game.gameBoard.data)
      modifies this, game, game.gameBoard
      ensures Valid() && bots == old(bots)
      ensures |PossibleMoves(old(game.gameBoard.data))| > 0
      ensures numTurns == old(numTurns)[Identities[old(currentBotIndex)] := old(numTurns)[Identities[old(currentBotIndex)]] + 1]
      ensures !bots[old(currentBotIndex)].magic ==>
                game.gameBoard == old(game.gameBoard) &&
                Current() == Turn(old(Current()), process) &&
                states == [SavedGame(numTurns, currentBotIndex, BoardState(game.gameBoard.data))]
      ensures bots[old(currentBotIndex)].magic ==>
                Current() == old(Current()).(numTurns := numTurns) &&
                states == Explored(old(Current()), processMagic)
    {
      ghost var pos := Current();
      var index := currentBotIndex;
      var bot := bots[index];
      var identity := Identities[index];
      numTurns := numTurns[identity := numTurns[identity] + 1];
      var inputs, availableMoves := game.GetInputs(identity);
      OpenBoardHasMove(game.gameBoard.data);
      if bot.magic {
        var outputs := processMagic(index, inputs, availableMoves);
        states := MagicTurn(identity, outputs);
        assert states == Explored(pos, processMagic);
      } else {
        var output := process(index, inputs, availableMoves);
        states := PlainTurn(identity, output, pos);
      }
    }

    /** A plain bot's output applied: the next bot is to move, and the game after it is returned. */
    method PlainTurn(identity: string, output: int, ghost pos: Position) returns (states: seq<SavedGame>)
      requires Valid() && identity == Identities[currentBotIndex]
      requires PlayablePosition(pos) && |PossibleMoves(pos.data)| > 0
      requires pos.data == game.gameBoard.data && pos.index == currentBotIndex
      requires numTurns == pos.numTurns[identity := pos.numTurns[identity] + 1]
      modifies this, game.gameBoard
      ensures Valid() && bots == old(bots) && numTurns == old(numTurns)
      ensures game.gameBoard == old(game.gameBoard)
      ensures game.gameBoard.data == Placed(old(game.gameBoard.data), Target(PossibleMoves(old(game.gameBoard.data)), output), identity)
      ensures currentBotIndex == NextIndex(old(currentBotIndex), 2)
      ensures states == [SavedGame(numTurns, currentBotIndex, BoardState(game.gameBoard.data))]
      ensures Current() == TurnWith(pos, output)
    {
      TurnProgresses(pos, output);
      game.Update(identity, output);
      currentBotIndex := currentBotIndex + 1;
      if currentBotIndex >= |bots| {
        currentBotIndex := 0;
      }
      var state := ToDict();
      states := [state];
    }

    /**
     * A magic bot's outputs explored: each is applied to the current position
     * and the result saved, after which the saved position comes back.
     */
    method MagicTurn(identity: string, outputs: seq<int>) returns (states: seq<SavedGame>)
      requires Valid() && identity == Identities[currentBotIndex]
      requires |PossibleMoves(game.gameBoard.data)| > 0
      modifies this, game, game.gameBoard
      ensures Valid() && bots == old(bots) && numTurns == old(numTurns)
      ensures currentBotIndex == old(currentBotIndex) && game.gameBoard.data == old(game.gameBoard.data)
      ensures states == Explore(old(game.gameBoard.data), currentBotIndex, numTurns, outputs)
    {
      var curState := ToDict();
      ghost var data := curState.board.data;
      ghost var all := Explore(data, currentBotIndex, numTurns, outputs);
      states := [];
      for i := 0 to |outputs|
        invariant numTurns == curState.numTurns && currentBotIndex == curState.currentBotIndex && bots == old(bots)
        invariant game.gameBoard.data == data
        invariant game.gameBoard == old(game.gameBoard) || fresh(game.gameBoard)
        invariant states == all[..i]
      {
        game.Update(identity, outputs[i]);
        currentBotIndex := currentBotIndex + 1;
        if currentBotIndex >= |bots| {
          currentBotIndex := 0;
        }
        var state := ToDict();
        states := states + [state];
        FromDict(curState);
      }
    }

    /**
     * processResult: the game's result, each bot's score being the one its
     * identity has in the result.
     */
    method ProcessResult() returns (result: GameResult)
      requires |bots| == 2 && bots[0] != bots[1]
      requires GameState(game.gameBoard.data) > 0 && "X" in numTurns && "O" in numTurns
      modifies bots
      ensures fresh(result) && IsResultOf(result, game.gameBoard.data, numTurns["X"], numTurns["O"])
      ensures forall i | 0 <= i < |bots| :: bots[i].score == Some(result.scores[Identities[i]])
      ensures forall i | 0 <= i < |bots| ::
                bots[i].identity == old(bots[i].identity) && bots[i].name == old(bots[i].name) &&
                bots[i].data == old(bots[i].data) && bots[i].magic == old(bots[i].magic) &&
                bots[i].genetic == old(bots[i].genetic)
    {
      result := game.GetResult(bots, numTurns);
      ScoreBots(result);
    }

    /** Each bot's score becomes the one its identity has in result; nothing else of the bots changes. */
    method ScoreBots(result: GameResult)
      requires |bots| == |Identities| && bots[0] != bots[1]
      requires forall i | 0 <= i < |Identities| :: Identities[i] in result.scores
      modifies bots
      ensures forall i | 0 <= i < |bots| :: bots[i].score == Some(result.scores[Identities[i]])
      ensures forall i | 0 <= i < |bots| ::
                bots[i].identity == old(bots[i].identity) && bots[i].name == old(bots[i].name) &&
                bots[i].data == old(bots[i].data) && bots[i].magic == old(bots[i].magic) &&
                bots[i].genetic == old(bots[i].genetic)
    {
      for i := 0 to |bots|
        invariant forall j | 0 <= j < i :: bots[j].score == Some(result.scores[Identities[j]])
        invariant forall j | 0 <= j < |bots| ::
                    bots[j].identity == old(bots[j].identity) && bots[j].name == old(bots[j].name) &&
                    bots[j].data == old(bots[j].data) && bots[j].magic == old(bots[j].magic) &&
                    bots[j].genetic == old(bots[j].genetic)
      {
        bots[i].SetScore(result.GetScore(Identities[i]));
      }
    }

    /**
     * run: turns until the game has ended, then processResult. With plain
     * bots the game ends where Playout says, and the bots are scored on it.
     */
    method Run(process: Process, processMagic: ProcessMagic) returns (result: GameResult)
      requires Valid() && bots[0] != bots[1]
      requires !bots[0].magic && !bots[1].magic
      modifies this, game, game.gameBoard, bots
      ensures Valid() && Current() == Playout(old(Current()), process)
      ensures fresh(result) && IsResultOf(result, game.gameBoard.data, numTurns["X"], numTurns["O"])
      ensures forall i | 0 <= i < |bots| :: bots[i].score == Some(result.scores[Identities[i]])
    {
      ghost var start := Current();
      while !game.IsEnded()
        invariant Valid() && bots == old(bots) && game.gameBoard == old(game.gameBoard)
        invariant Playout(Current(), process) == Playout(start, process)
        invariant !bots[0].magic && !bots[1].magic
        decreases BlanksBelow(game.gameBoard.data, CellCount)
      {
        ghost var before := Current();
        OpenBoardHasMove(before.data);
        TurnProgresses(before, BotOutput(before, process));
        var _ := DoTurn(process, processMagic);
      }
      result := ProcessResult();
    }
  }
}
