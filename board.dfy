/**
 * The naughts-and-crosses board (src/games/naughts/board.ts): a string of
 * nine cells, '-' for a blank one, read and written by position, scanned
 * line by line for the outcome, rotated a quarter turn at a time and listed
 * for its free cells.
 */
module Boards {
  import Strings

  /** The data of a new board: nine blank cells. */
  const NewData: string := "---------"

  /** The number of cells, 9. */
  const CellCount: nat := |NewData|

  /** The winning lines "012", "345", ... in the order the outcome test scans them, as position lists. */
  const Lines: seq<seq<nat>> := [[0, 1, 2], [3, 4, 5], [6, 7, 8], [0, 3, 6], [1, 4, 7], [2, 5, 8], [0, 4, 8], [2, 4, 6]]

  /** Cell i of a board turned once is cell TransformMap[i] of the original. */
  const TransformMap: seq<nat> := [6, 3, 0, 7, 4, 1, 8, 5, 2]

  /** toDict / fromDict form of a board. */
  datatype BoardState = BoardState(data: string)

  // ---------------------------------------------------------------- cells

  /** getAt: the one-character substring at pos ("" past the end), a stored '-' read as " ". */
  function CellAt(data: string, pos: nat): (c: string)
    ensures |c| == if pos < |data| then 1 else 0
    ensures c != "-"
  {
    if pos < |data| then (if data[pos] == '-' then " " else [data[pos]]) else ""
  }

  lemma NewBoardIsBlank()
    ensures |NewData| == 9
    ensures forall p | 0 <= p < 9 :: CellAt(NewData, p) == " "
  {
  }

  /** setAt: substr(0, pos) + turn + substr(pos + 1). */
  function Placed(data: string, pos: nat, turn: string): (r: string)
    ensures pos < |data| ==> |r| == |data| + |turn| - 1
    ensures pos < |data| ==> r[..pos] == data[..pos] && r[pos + |turn|..] == data[pos + 1..]
    ensures pos < |data| && |turn| == 1 ==> r[pos] == turn[0]
  {
    (if pos <= |data| then data[..pos] else data) + turn + (if pos + 1 <= |data| then data[pos + 1..] else "")
  }

  /** A one-character mark placed inside the board changes that cell only and keeps the length. */
  lemma PlacedCells(data: string, pos: nat, turn: string)
    requires pos < |data| && |turn| == 1 && turn != "-"
    ensures |Placed(data, pos, turn)| == |data|
    ensures CellAt(Placed(data, pos, turn), pos) == turn
    ensures forall p: nat | p != pos :: CellAt(Placed(data, pos, turn), p) == CellAt(data, p)
  {
    var r := Placed(data, pos, turn);
    forall p: nat | p != pos
      ensures CellAt(r, p) == CellAt(data, p)
    {
      if p < pos {
        assert r[p] == r[..pos][p] == data[..pos][p];
      } else if p < |data| {
        assert r[p] == r[pos + 1..][p - pos - 1] == data[pos + 1..][p - pos - 1];
      }
    }
  }

  // ---------------------------------------------------------------- outcome

  /** The cells of a line read one after another and concatenated. */
  function LineValue(data: string, line: seq<nat>): string
    decreases |line|
  {
    if |line| == 0 then "" else LineValue(data, line[..|line| - 1]) + CellAt(data, line[|line| - 1])
  }

  /** A three-cell line reads "XXX" (or "OOO") exactly when each of its cells holds that mark. */
  lemma LineReadsMark(data: string, line: seq<nat>, mark: string)
    requires |line| == 3 && |mark| == 1
    ensures LineValue(data, line) == mark + mark + mark <==>
      CellAt(data, line[0]) == mark && CellAt(data, line[1]) == mark && CellAt(data, line[2]) == mark
  {
    var a, b, c := CellAt(data, line[0]), CellAt(data, line[1]), CellAt(data, line[2]);
    assert line[..1][..0] == [];
    assert LineValue(data, line[..1]) == a;
    assert line[..2][..1] == line[..1];
    assert LineValue(data, line[..2]) == a + b;
    assert line[..2] == line[..|line| - 1];
    assert LineValue(data, line) == a + b + c;
    if a + b + c == mark + mark + mark {
      assert |a| == 1 && |b| == 1 && |c| == 1;
      assert a == [(a + b + c)[0]] && b == [(a + b + c)[1]] && c == [(a + b + c)[2]];
    }
  }

  /** The draw test: each of the nine cells holds an X or an O. */
  predicate AllMarked(data: string)
  {
    forall p | 0 <= p < 9 :: CellAt(data, p) == "X" || CellAt(data, p) == "O"
  }

  predicate Wins(data: string, line: seq<nat>, mark: string)
  {
    LineValue(data, line) == mark + mark + mark
  }

  /**
   * getGameState from line i on: 1 for a line reading XXX, 2 for OOO; the
   * draw test runs after each line that is neither, so a full board stops the
   * scan with 3 as soon as the first line has been looked at.
   */
  function StateFrom(data: string, i: nat): (s: nat)
    requires i <= |Lines|
    ensures s <= 3
    decreases |Lines| - i
  {
    if i == |Lines| then 0
    else if Wins(data, Lines[i], "X") then 1
    else if Wins(data, Lines[i], "O") then 2
    else if AllMarked(data) then 3
    else StateFrom(data, i + 1)
  }

  /** 0 while the game goes on, 1 when X has won, 2 when O has won, 3 for a draw. */
  function GameState(data: string): (s: nat)
    ensures s <= 3
  {
    StateFrom(data, 0)
  }

  /** The outcome the line scan would give without the draw test: the first winning line, else 0. */
  function FirstWin(data: string, i: nat): (s: nat)
    requires i <= |Lines|
    ensures s <= 2
    ensures s == 0 <==> forall j | i <= j < |Lines| :: !Wins(data, Lines[j], "X") && !Wins(data, Lines[j], "O")
    decreases |Lines| - i
  {
    if i == |Lines| then 0
    else if Wins(data, Lines[i], "X") then 1
    else if Wins(data, Lines[i], "O") then 2
    else FirstWin(data, i + 1)
  }

  /** With a cell still open, the outcome is the first winning line's mark, or 0. */
  lemma {:induction false} OpenBoardState(data: string, i: nat)
    requires i <= |Lines| && !AllMarked(data)
    ensures StateFrom(data, i) == FirstWin(data, i)
    decreases |Lines| - i
  {
    if i < |Lines| {
      OpenBoardState(data, i + 1);
    }
  }

  /** On a full board only line 0-1-2 is consulted: 1 or 2 if it is complete, a draw otherwise. */
  lemma FullBoardState(data: string)
    requires AllMarked(data)
    ensures GameState(data) == if Wins(data, Lines[0], "X") then 1 else if Wins(data, Lines[0], "O") then 2 else 3
  {
  }

  /** The draw test hides a completed line other than 0-1-2 on a full board. */
  lemma DrawHidesWin(data: string)
    requires AllMarked(data)
    requires !Wins(data, Lines[0], "X") && !Wins(data, Lines[0], "O")
    requires FirstWin(data, 0) != 0
    ensures GameState(data) == 3 && FirstWin(data, 0) != GameState(data)
  {
  }

  /** isEnded */
  predicate IsEnded(data: string)
  {
    GameState(data) != 0
  }

  /** getWinner: "X" for state 1, "O" for state 2, "" for anything else. */
  function Winner(data: string): (w: string)
    ensures w == "X" <==> GameState(data) == 1
    ensures w == "O" <==> GameState(data) == 2
    ensures w == "" <==> GameState(data) != 1 && GameState(data) != 2
  {
    match GameState(data)
    case 1 => "X"
    case 2 => "O"
    case _ => ""
  }

  lemma WinnerEndsGame(data: string)
    requires Winner(data) != ""
    ensures IsEnded(data)
  {
  }

  // ---------------------------------------------------------------- rotation

  /** join("") of an array of strings; an unassigned slot joins as "". */
  function Joined(cells: seq<string>): string
    decreases |cells|
  {
    if |cells| == 0 then "" else Joined(cells[..|cells| - 1]) + cells[|cells| - 1]
  }

  /** Joining one-character strings gives one character per slot. */
  lemma {:induction false} JoinedSingles(cells: seq<string>)
    requires forall i | 0 <= i < |cells| :: |cells[i]| == 1
    ensures |Joined(cells)| == |cells|
    ensures forall i | 0 <= i < |cells| :: Joined(cells)[i] == cells[i][0]
    decreases |cells|
  {
    if |cells| > 0 {
      JoinedSingles(cells[..|cells| - 1]);
    }
  }

  /**
   * The array of one pass of getRotatedBoard's loop: origData split into
   * characters, then slot i < 9 overwritten with origData[transformMap[i]]
   * (undefined, so "", past the end of a short string).
   */
  function TurnedSlots(data: string): (slots: seq<string>)
    ensures |slots| == if |data| < 9 then 9 else |data|
  {
    seq(if |data| < 9 then 9 else |data|, i requires 0 <= i =>
      if i < 9 then (if TransformMap[i] < |data| then [data[TransformMap[i]]] else "")
      else if i < |data| then [data[i]] else "")
  }

  /** One pass of getRotatedBoard's loop. */
  function TurnedOnce(data: string): string
  {
    Joined(TurnedSlots(data))
  }

  /** n passes of the loop. */
  function Turned(data: string, n: nat): string
    decreases n
  {
    if n == 0 then data else TurnedOnce(Turned(data, n - 1))
  }

  /** JavaScript's rotations % 4, which keeps the sign of rotations: a negative count makes no pass. */
  function Quarter(rotations: int): nat
  {
    if rotations <= 0 then 0 else rotations % 4
  }

  /** The data of getRotatedBoard(rotations). */
  function Rotated(data: string, rotations: int): string
  {
    Turned(data, Quarter(rotations))
  }

  /** Position i after n applications of transformMap. */
  function Transformed(i: nat, n: nat): (r: nat)
    requires i < 9
    ensures r < 9
    decreases n
  {
    if n == 0 then i else Transformed(TransformMap[i], n - 1)
  }

  /** On a nine-cell board one pass moves cell transformMap[i] to cell i. */
  lemma TurnedOnceOfBoard(data: string)
    requires |data| == 9
    ensures |TurnedOnce(data)| == 9
    ensures forall i | 0 <= i < 9 :: TurnedOnce(data)[i] == data[TransformMap[i]]
  {
    JoinedSingles(TurnedSlots(data));
  }

  /** A board turned n times keeps its nine cells. */
  lemma {:induction false} TurnedLength(data: string, n: nat)
    requires |data| == 9
    ensures |Turned(data, n)| == 9
    decreases n
  {
    if n > 0 {
      TurnedLength(data, n - 1);
      TurnedOnceOfBoard(Turned(data, n - 1));
    }
  }

  /** Cell i after n passes is the original's cell at transformMap applied n times to i. */
  lemma {:induction false} TurnedCell(data: string, n: nat, i: nat)
    requires |data| == 9 && i < 9
    ensures |Turned(data, n)| == 9
    ensures Turned(data, n)[i] == data[Transformed(i, n)]
    decreases n
  {
    TurnedLength(data, n);
    if n > 0 {
      var prev := Turned(data, n - 1);
      TurnedLength(data, n - 1);
      TurnedOnceOfBoard(prev);
      TurnedCell(data, n - 1, TransformMap[i]);
    }
  }

  /** Applying transformMap n times and once more, in either order. */
  lemma {:induction false} TransformedLast(i: nat, n: nat)
    requires i < 9 && n > 0
    ensures Transformed(i, n) == Transformed(TransformMap[i], n - 1)
    ensures Transformed(i, n) == TransformMap[Transformed(i, n - 1)]
    decreases n
  {
    if n > 1 {
      TransformedLast(TransformMap[i], n - 1);
    }
  }

  /** Four quarter turns bring every position back. */
  lemma FourQuartersIdentity(i: nat)
    requires i < 9
    ensures Transformed(i, 4) == i
  {
  }

  /** Four passes give back a nine-cell board, so only rotations % 4 matters. */
  lemma FourTurnsIdentity(data: string)
    requires |data| == 9
    ensures Turned(data, 4) == data
  {
    TurnedLength(data, 4);
    forall i | 0 <= i < 9
      ensures Turned(data, 4)[i] == data[i]
    {
      TurnedCell(data, 4, i);
      FourQuartersIdentity(i);
    }
  }

  // ---------------------------------------------------------------- free cells

  /** The positions below n whose cell reads " ", ascending. */
  function MovesBelow(data: string, n: nat): (moves: seq<nat>)
    ensures |moves| <= n
  {
    if n == 0 then []
    else MovesBelow(data, n - 1) + (if CellAt(data, n - 1) == " " then [n - 1] else [])
  }

  /** The moves below n are exactly the blank positions below n, in ascending order. */
  lemma {:induction false} MovesBelowSpec(data: string, n: nat)
    ensures forall m: nat :: m in MovesBelow(data, n) <==> m < n && CellAt(data, m) == " "
    ensures forall j | 0 <= j < |MovesBelow(data, n)| :: MovesBelow(data, n)[j] < n
    ensures forall j, k | 0 <= j < k < |MovesBelow(data, n)| :: MovesBelow(data, n)[j] < MovesBelow(data, n)[k]
  {
    if n > 0 {
      MovesBelowSpec(data, n - 1);
    }
  }

  /** getPossibleMoves: the positions of the nine cells that read " ". */
  function PossibleMoves(data: string): seq<nat>
  {
    MovesBelow(data, CellCount)
  }

  /** getPossibleMoves lists exactly the blank cells, each once, in ascending order. */
  lemma PossibleMovesSpec(data: string)
    ensures forall m: nat :: m in PossibleMoves(data) <==> m < 9 && CellAt(data, m) == " "
    ensures forall j, k | 0 <= j < k < |PossibleMoves(data)| :: PossibleMoves(data)[j] < PossibleMoves(data)[k]
    ensures forall j | 0 <= j < |PossibleMoves(data)| :: PossibleMoves(data)[j] < 9
  {
    MovesBelowSpec(data, CellCount);
  }

  /** A board with all nine cells marked has no move. */
  lemma {:induction false} MarkedBoardHasNoMoves(data: string, n: nat)
    requires AllMarked(data) && n <= 9
    ensures MovesBelow(data, n) == []
  {
    if n > 0 {
      MarkedBoardHasNoMoves(data, n - 1);
      assert CellAt(data, n - 1) != " ";
    }
  }

  // ---------------------------------------------------------------- blank count

  /** The number of blank cells below n: the measure that shrinks with every move of the search. */
  function BlanksBelow(data: string, n: nat): nat
  {
    if n == 0 then 0 else BlanksBelow(data, n - 1) + if CellAt(data, n - 1) == " " then 1 else 0
  }

  lemma {:induction false} NoMoreBlanks(a: string, b: string, n: nat)
    requires forall p | 0 <= p < n :: CellAt(b, p) == " " ==> CellAt(a, p) == " "
    ensures BlanksBelow(b, n) <= BlanksBelow(a, n)
  {
    if n > 0 {
      NoMoreBlanks(a, b, n - 1);
    }
  }

  lemma {:induction false} FewerBlanks(a: string, b: string, n: nat, m: nat)
    requires forall p | 0 <= p < n :: CellAt(b, p) == " " ==> CellAt(a, p) == " "
    requires m < n && CellAt(a, m) == " " && CellAt(b, m) != " "
    ensures BlanksBelow(b, n) < BlanksBelow(a, n)
  {
    if m == n - 1 {
      NoMoreBlanks(a, b, n - 1);
    } else {
      FewerBlanks(a, b, n - 1, m);
    }
  }

  /** Marking a free cell with X or O leaves one blank cell fewer: the search terminates. */
  lemma PlacedHasFewerBlanks(data: string, move: nat, turn: string)
    requires move in PossibleMoves(data)
    requires turn == "X" || turn == "O"
    ensures BlanksBelow(Placed(data, move, turn), CellCount) < BlanksBelow(data, CellCount)
  {
    PossibleMovesSpec(data);
    PlacedCells(data, move, turn);
    FewerBlanks(data, Placed(data, move, turn), CellCount, move);
  }

  /** A cell that reads X, O or blank. */
  predicate IsMark(c: string)
  {
    c == "X" || c == "O" || c == " "
  }

  /** The cells below n read X, O or blank. */
  predicate MarksBelow(data: string, n: nat)
  {
    n == 0 || (MarksBelow(data, n - 1) && IsMark(CellAt(data, n - 1)))
  }

  /** Every cell reads X, O or blank: what play between X and O leaves on a board. */
  predicate OnlyMarks(data: string)
  {
    MarksBelow(data, CellCount)
  }

  lemma {:induction false} MarksBelowCells(data: string, n: nat)
    ensures MarksBelow(data, n) <==> forall p | 0 <= p < n :: IsMark(CellAt(data, p))
  {
    if n > 0 {
      MarksBelowCells(data, n - 1);
    }
  }

  /** A board of marks and blanks, cell by cell. */
  lemma OnlyMarksCells(data: string)
    ensures OnlyMarks(data) <==> forall p | 0 <= p < 9 :: CellAt(data, p) == "X" || CellAt(data, p) == "O" || CellAt(data, p) == " "
  {
    MarksBelowCells(data, CellCount);
  }

  /** A board of marks and blanks whose game has not ended still has a free cell. */
  lemma OpenBoardHasMove(data: string)
    requires OnlyMarks(data) && !IsEnded(data)
    ensures |PossibleMoves(data)| > 0
  {
    OnlyMarksCells(data);
    assert !AllMarked(data);
    var p :| 0 <= p < 9 && CellAt(data, p) != "X" && CellAt(data, p) != "O";
    PossibleMovesSpec(data);
    assert p in PossibleMoves(data);
  }

  /** Marking a free cell with X or O keeps a board of marks and blanks. */
  lemma PlacedOnlyMarks(data: string, move: nat, turn: string)
    requires |data| == 9 && OnlyMarks(data) && move < 9
    requires turn == "X" || turn == "O"
    ensures |Placed(data, move, turn)| == 9 && OnlyMarks(Placed(data, move, turn))
  {
    PlacedCells(data, move, turn);
    OnlyMarksCells(data);
    OnlyMarksCells(Placed(data, move, turn));
  }

  // ---------------------------------------------------------------- the object

  class Board {
    var data: string

    constructor ()
      ensures data == NewData
    {
      data := NewData;
    }

    method ToDict() returns (d: BoardState)
      ensures d.data == data
    {
      d := BoardState(data);
    }

    method FromDict(d: BoardState)
      modifies this
      ensures data == d.data
    {
      data := d.data;
    }

    method Copy() returns (b: Board)
      ensures fresh(b) && b.data == data
    {
      b := new Board();
      b.data := data;
    }

    function GetAt(pos: nat): string
      reads this
    {
      CellAt(data, pos)
    }

    method SetAt(pos: nat, turn: string)
      modifies this
      ensures data == Placed(old(data), pos, turn)
    {
      data := data[..if pos <= |data| then pos else |data|] + turn + (if pos + 1 <= |data| then data[pos + 1..] else "");
    }

    /** getGameState: the line loop with the draw test inside it. */
    method GetGameState() returns (state: nat)
      ensures state == GameState(data)
    {
      var i := 0;
      while i < |Lines|
        invariant i <= |Lines|
        invariant StateFrom(data, i) == GameState(data)
      {
        var val := ReadLine(data, Lines[i]);
        if val == "XXX" {
          return 1;
        } else if val == "OOO" {
          return 2;
        }
        var isDraw := DrawTest(data);
        if isDraw {
          return 3;
        }
        i := i + 1;
      }
      return 0;
    }

    method GetRotatedBoard(rotations: int) returns (boardCopy: Board)
      ensures fresh(boardCopy) && boardCopy.data == Rotated(data, rotations)
    {
      var quarter := if rotations <= 0 then rotations else rotations % 4;
      boardCopy := Copy();
      if quarter == 0 {
        return;
      }
      var turned := boardCopy.data;
      var r := 0;
      while r < quarter
        invariant 0 <= r <= Quarter(rotations)
        invariant turned == Turned(data, r)
      {
        turned := TurnOnce(turned);
        r := r + 1;
      }
      boardCopy.data := turned;
    }

    /** getFirstEmptySpace over a string of position digits; -1 when none of them is blank. */
    method GetFirstEmptySpace(positions: string) returns (pos: int)
      requires Strings.AllDigits(positions)
      ensures pos == -1 <==> forall k | 0 <= k < |positions| :: CellAt(data, Strings.DigitValue(positions[k])) != " "
      ensures pos != -1 ==> exists k | 0 <= k < |positions| ::
        pos == Strings.DigitValue(positions[k]) && CellAt(data, pos) == " " &&
        forall j | 0 <= j < k :: CellAt(data, Strings.DigitValue(positions[j])) != " "
    {
      for k := 0 to |positions|
        invariant forall j | 0 <= j < k :: CellAt(data, Strings.DigitValue(positions[j])) != " "
      {
        var p := Strings.DigitValue(positions[k]);
        if CellAt(data, p) == " " {
          return p;
        }
      }
      return -1;
    }

    method GetPossibleMoves() returns (moves: seq<nat>)
      ensures moves == PossibleMoves(data)
    {
      moves := [];
      for pos := 0 to 9
        invariant moves == MovesBelow(data, pos)
      {
        if CellAt(data, pos) == " " {
          moves := moves + [pos];
        }
      }
    }
  }

  /** The inner loop of getGameState: the line's cells concatenated. */
  method ReadLine(data: string, line: seq<nat>) returns (val: string)
    ensures val == LineValue(data, line)
  {
    val := "";
    for k := 0 to |line|
      invariant val == LineValue(data, line[..k])
    {
      assert line[..k + 1][..k] == line[..k];
      val := val + CellAt(data, line[k]);
    }
    assert line[..|line|] == line;
  }

  /** The draw test of getGameState, leaving the loop at the first cell that is neither X nor O. */
  method DrawTest(data: string) returns (isDraw: bool)
    ensures isDraw == AllMarked(data)
  {
    isDraw := true;
    var pos := 0;
    while pos < 9
      invariant pos <= 9
      invariant forall p | 0 <= p < pos :: CellAt(data, p) == "X" || CellAt(data, p) == "O"
    {
      var val := CellAt(data, pos);
      if val != "X" && val != "O" {
        isDraw := false;
        break;
      }
      pos := pos + 1;
    }
  }

  /** The forEach over transformMap: newData[index] = origData[pos], then joined. */
  method TurnOnce(origData: string) returns (turned: string)
    ensures turned == TurnedOnce(origData)
  {
    var newData: seq<string> := seq(if |origData| < 9 then 9 else |origData|,
      i requires 0 <= i => if i < |origData| then [origData[i]] else "");
    for index := 0 to 9
      invariant |newData| == |TurnedSlots(origData)|
      invariant forall i | 0 <= i < |newData| :: newData[i] == if i < index then TurnedSlots(origData)[i] else if i < |origData| then [origData[i]] else ""
    {
      var pos := TransformMap[index];
      newData := newData[index := if pos < |origData| then [origData[pos]] else ""];
    }
    assert newData == TurnedSlots(origData);
    turned := Joined(newData);
  }
}
