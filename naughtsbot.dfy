/**
 * The helpers every naughts bot shares (src/games/naughts/bots/naughtsbot.ts):
 * the opponent's mark, the board rebuilt from the 18-value input vector, the
 * classification of a line's cells and the undoing of board rotations. The
 * bot's identity is passed in; a board is its data string.
 */
module NaughtsBots {
  import opened Wrappers
  import opened Boards

  /** otherIdentity: "O" for the bot playing "X", "X" for anybody else. */
  function OtherIdentity(identity: string): (other: string)
    ensures other == "X" || other == "O"
    ensures other == "O" <==> identity == "X"
  {
    if identity == "X" then "O" else "X"
  }

  /** Between the two real marks otherIdentity swaps, and twice gives the mark back. */
  lemma OtherIdentitySwaps(identity: string)
    requires identity == "X" || identity == "O"
    ensures OtherIdentity(identity) != identity
    ensures OtherIdentity(OtherIdentity(identity)) == identity
  {
  }

  // ---------------------------------------------------------------- inputs to board

  /** What process writes at pos: its own mark, the other mark, or nothing. */
  function InputMark(identity: string, inputs: seq<int>, pos: nat): Option<string>
    requires |inputs| == 18 && pos < 9
  {
    if inputs[pos] > 0 then Some(identity)
    else if inputs[pos + 9] > 0 then Some(OtherIdentity(identity))
    else None
  }

  /** A new board after process's loop has handled positions 0 .. n - 1. */
  function InputBoard(identity: string, inputs: seq<int>, n: nat): string
    requires |inputs| == 18 && n <= 9
  {
    if n == 0 then NewData
    else
      var data := InputBoard(identity, inputs, n - 1);
      match InputMark(identity, inputs, n - 1)
      case Some(mark) => Placed(data, n - 1, mark)
      case None => data
  }

  /** The cell process's board shows at pos for a one-character identity. */
  function ExpectedCell(identity: string, inputs: seq<int>, pos: nat): string
    requires |inputs| == 18 && pos < 9
  {
    match InputMark(identity, inputs, pos)
    case Some(mark) => mark
    case None => " "
  }

  /**
   * For a one-character identity the rebuilt board has nine cells, cell p
   * being the own mark if inputs[p] > 0, else the other mark if
   * inputs[p + 9] > 0, else blank; the cells from n on are still blank.
   */
  lemma {:induction false} InputBoardCells(identity: string, inputs: seq<int>, n: nat)
    requires |inputs| == 18 && n <= 9
    requires |identity| == 1 && identity != "-"
    ensures |InputBoard(identity, inputs, n)| == 9
    ensures forall p | 0 <= p < 9 :: CellAt(InputBoard(identity, inputs, n), p) == if p < n then ExpectedCell(identity, inputs, p) else " "
  {
    if n == 0 {
      NewBoardIsBlank();
    } else {
      InputBoardCells(identity, inputs, n - 1);
      var data := InputBoard(identity, inputs, n - 1);
      var next := InputBoard(identity, inputs, n);
      var mark := InputMark(identity, inputs, n - 1);
      if mark.Some? {
        PlacedCells(data, n - 1, mark.value);
        assert next == Placed(data, n - 1, mark.value);
      } else {
        assert next == data;
      }
      forall p | 0 <= p < 9
        ensures CellAt(next, p) == if p < n then ExpectedCell(identity, inputs, p) else " "
      {
        if p != n - 1 {
          assert CellAt(next, p) == CellAt(data, p);
        }
      }
    }
  }

  /** process's loop over the 18 inputs, writing into a new Board. */
  method ReadInputs(identity: string, inputs: seq<int>) returns (board: Board)
    requires |inputs| == 18
    ensures fresh(board) && board.data == InputBoard(identity, inputs, 9)
  {
    board := new Board();
    for pos := 0 to 9
      invariant board.data == InputBoard(identity, inputs, pos)
    {
      if inputs[pos] > 0 {
        board.SetAt(pos, identity);
      } else if inputs[pos + 9] > 0 {
        board.SetAt(pos, OtherIdentity(identity));
      }
    }
  }

  // ---------------------------------------------------------------- line classification

  datatype Owner = Ours | Theirs | Blank

  /** The switch of getSequenceInfo: the own mark first, then " ", anything else counting as theirs. */
  function OwnerOf(data: string, identity: string, pos: nat): Owner
  {
    var val := CellAt(data, pos);
    if val == identity then Ours else if val == " " then Blank else Theirs
  }

  /** The positions of the sequence whose cell has the given owner, in sequence order. */
  function Owned(data: string, identity: string, sequence: seq<nat>, owner: Owner): (r: seq<nat>)
    ensures |r| <= |sequence|
    decreases |sequence|
  {
    if |sequence| == 0 then []
    else
      var last := sequence[|sequence| - 1];
      Owned(data, identity, sequence[..|sequence| - 1], owner) + (if OwnerOf(data, identity, last) == owner then [last] else [])
  }

  /** The positions listed for an owner are exactly the sequence's positions whose cell has that owner. */
  lemma {:induction false} OwnedMembers(data: string, identity: string, sequence: seq<nat>, owner: Owner)
    ensures forall p :: p in Owned(data, identity, sequence, owner) <==> p in sequence && OwnerOf(data, identity, p) == owner
    decreases |sequence|
  {
    if |sequence| > 0 {
      var init := sequence[..|sequence| - 1];
      OwnedMembers(data, identity, init, owner);
      assert sequence == init + [sequence[|sequence| - 1]];
    }
  }

  /** The three lists getSequenceInfo returns. */
  datatype SequenceInfo = SequenceInfo(ours: seq<nat>, theirs: seq<nat>, blanks: seq<nat>)

  function Classified(data: string, identity: string, sequence: seq<nat>): SequenceInfo
  {
    SequenceInfo(Owned(data, identity, sequence, Ours), Owned(data, identity, sequence, Theirs), Owned(data, identity, sequence, Blank))
  }

  /** Every position of the sequence lands in exactly one of the three lists. */
  lemma {:induction false} ClassifiedPartitions(data: string, identity: string, sequence: seq<nat>)
    ensures |Owned(data, identity, sequence, Ours)| + |Owned(data, identity, sequence, Theirs)| +
      |Owned(data, identity, sequence, Blank)| == |sequence|
    decreases |sequence|
  {
    if |sequence| > 0 {
      ClassifiedPartitions(data, identity, sequence[..|sequence| - 1]);
    }
  }

  /** getSequenceInfo, with the digit string given as its list of positions. */
  method GetSequenceInfo(data: string, identity: string, sequence: seq<nat>) returns (info: SequenceInfo)
    ensures info == Classified(data, identity, sequence)
  {
    var ours, theirs, blanks := [], [], [];
    for k := 0 to |sequence|
      invariant ours == Owned(data, identity, sequence[..k], Ours)
      invariant theirs == Owned(data, identity, sequence[..k], Theirs)
      invariant blanks == Owned(data, identity, sequence[..k], Blank)
    {
      assert sequence[..k + 1][..k] == sequence[..k];
      var c := sequence[k];
      var val := CellAt(data, c);
      if val == identity {
        ours := ours + [c];
      } else if val == " " {
        blanks := blanks + [c];
      } else {
        theirs := theirs + [c];
      }
    }
    assert sequence[..|sequence|] == sequence;
    info := SequenceInfo(ours, theirs, blanks);
  }

  // ---------------------------------------------------------------- rotations

  /**
   * getUnrotatedMove: rotations % 4 applications of transformMap (none for a
   * count that is 0 mod 4 or negative); None where transformMap is indexed
   * outside 0 .. 8 and yields undefined.
   */
  function UnrotatedMove(move: nat, rotations: int): (r: Option<nat>)
    ensures Quarter(rotations) == 0 ==> r == Some(move)
    ensures move < 9 ==> r.Some? && r.value < 9
  {
    if Quarter(rotations) == 0 then Some(move)
    else if move < 9 then Some(Transformed(move, Quarter(rotations)))
    else None
  }

  method GetUnrotatedMove(move: nat, rotations: int) returns (r: Option<nat>)
    ensures r == UnrotatedMove(move, rotations)
  {
    var quarter := if rotations <= 0 then rotations else rotations % 4;
    if quarter == 0 {
      return Some(move);
    }
    r := Some(move);
    var i := 0;
    while i < quarter
      invariant 0 <= i <= Quarter(rotations)
      invariant move < 9 ==> r == Some(Transformed(move, i))
      invariant move >= 9 ==> r == if i == 0 then Some(move) else None
    {
      if move < 9 {
        TransformedLast(move, i + 1);
      }
      r := if r.Some? && r.value < 9 then Some(TransformMap[r.value]) else None;
      i := i + 1;
    }
  }

  /** A move m on the board rotated r times is the move getUnrotatedMove(m, r) on the board itself. */
  lemma RotatedCellIsUnrotated(data: string, move: nat, rotations: int)
    requires |data| == 9 && move < 9
    ensures CellAt(Rotated(data, rotations), move) == CellAt(data, UnrotatedMove(move, rotations).value)
  {
    TurnedCell(data, Quarter(rotations), move);
  }
}
