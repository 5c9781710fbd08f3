/**
 * The minimax naughts bot (src/games/naughts/bots/minimaxbot/minimaxbot.ts):
 * a win shortcut, a block shortcut and an opening rule, then a fail-soft
 * alpha-beta search over the remaining free cells. Minimax is the reference
 * definition the search is proved against; the random choices are `:|`.
 */
module MinimaxBots {
  import opened Wrappers
  import opened Misc
  import opened Boards
  import opened NaughtsBots

  function Max(a: int, b: int): int
  {
    if a >= b then a else b
  }

  function Min(a: int, b: int): int
  {
    if a <= b then a else b
  }

  /** The string "012345678" of the opening rule, as positions. */
  const AllCells: seq<nat> := [0, 1, 2, 3, 4, 5, 6, 7, 8]

  /** The corners and the centre offered to a bot that moves first. */
  const OpeningMoves: seq<nat> := [0, 2, 4, 6, 8]

  /** getOpponent(me): "O" against "X" and "X" against anything else; an empty me stands for the bot itself. */
  function GetOpponent(identity: string, me: string): (r: string)
    ensures r == "X" || r == "O"
    ensures r == OtherIdentity(if |me| == 0 then identity else me)
  {
    var who := if |me| == 0 then identity else me;
    if who == "X" then "O" else "X"
  }

  /** Between the two marks, the opponent's opponent is the mark itself. */
  lemma OpponentAlternates(identity: string, turn: string)
    requires turn == "X" || turn == "O"
    ensures GetOpponent(identity, turn) != turn
    ensures GetOpponent(identity, GetOpponent(identity, turn)) == turn
  {
  }

  /** getBoardScore: 1 when the bot has won, -1 when anybody else has, 0 without a winner. */
  function BoardScore(data: string, identity: string): (score: int)
    ensures score == 1 <==> Winner(data) != "" && Winner(data) == identity
    ensures score == -1 <==> Winner(data) != "" && Winner(data) != identity
    ensures score == 0 <==> Winner(data) == ""
  {
    var winner := Winner(data);
    if winner != "" then (if winner == identity then 1 else -1) else 0
  }

  /** The two bots of a game score every board oppositely. */
  lemma BoardScoreZeroSum(data: string, identity: string)
    requires identity == "X" || identity == "O"
    ensures BoardScore(data, identity) + BoardScore(data, OtherIdentity(identity)) == 0
  {
  }

  // ---------------------------------------------------------------- minimax

  /**
   * The plain minimax value of a position with turn to move: the bot's score
   * when the board has no move or has ended, else the largest child value on
   * the bot's own turn and the smallest on the opponent's.
   */
  function Minimax(data: string, turn: string, identity: string): (v: int)
    requires turn == "X" || turn == "O"
    ensures -1 <= v <= 1
    decreases BlanksBelow(data, CellCount), 3
  {
    var moves := PossibleMoves(data);
    if |moves| == 0 || IsEnded(data) then BoardScore(data, identity)
    else if turn == identity then MinimaxBest(data, turn, identity)
    else MinimaxWorst(data, turn, identity)
  }

  /** The largest child value, when the bot is to move. */
  function MinimaxBest(data: string, turn: string, identity: string): (v: int)
    requires turn == "X" || turn == "O"
    requires |PossibleMoves(data)| > 0
    ensures -1 <= v <= 1
    decreases BlanksBelow(data, CellCount), 2
  {
    var vals := ChildValues(data, turn, identity);
    PrefixBounds(vals, |vals|);
    BestOf(vals, |vals|)
  }

  /** The smallest child value, when the opponent is to move. */
  function MinimaxWorst(data: string, turn: string, identity: string): (v: int)
    requires turn == "X" || turn == "O"
    requires |PossibleMoves(data)| > 0
    ensures -1 <= v <= 1
    decreases BlanksBelow(data, CellCount), 2
  {
    var vals := ChildValues(data, turn, identity);
    PrefixBounds(vals, |vals|);
    WorstOf(vals, |vals|)
  }

  /** The minimax value after turn takes the k-th free cell. */
  function ChildValue(data: string, turn: string, identity: string, k: nat): (v: int)
    requires turn == "X" || turn == "O"
    requires k < |PossibleMoves(data)|
    ensures -1 <= v <= 1
    decreases BlanksBelow(data, CellCount), 0
  {
    var move := PossibleMoves(data)[k];
    PlacedHasFewerBlanks(data, move, turn);
    Minimax(Placed(data, move, turn), GetOpponent(identity, turn), identity)
  }

  /** The child values in the order of the free cells. */
  function ChildValues(data: string, turn: string, identity: string): (vals: seq<int>)
    requires turn == "X" || turn == "O"
    ensures |vals| == |PossibleMoves(data)|
    ensures forall k | 0 <= k < |vals| :: -1 <= vals[k] <= 1
    decreases BlanksBelow(data, CellCount), 1
  {
    seq(|PossibleMoves(data)|, k requires 0 <= k < |PossibleMoves(data)| => ChildValue(data, turn, identity, k))
  }

  lemma ChildValueIs(data: string, turn: string, identity: string, k: nat)
    requires turn == "X" || turn == "O"
    requires k < |PossibleMoves(data)|
    ensures ChildValues(data, turn, identity)[k] ==
      Minimax(Placed(data, PossibleMoves(data)[k], turn), GetOpponent(identity, turn), identity)
  {
    assert ChildValues(data, turn, identity)[k] == ChildValue(data, turn, identity, k);
  }

  /** Math.max of -999 and the first k values: the v of alphaBeta's own-turn loop without cutoffs. */
  function BestOf(vals: seq<int>, k: nat): int
    requires k <= |vals|
  {
    if k == 0 then -999 else Max(BestOf(vals, k - 1), vals[k - 1])
  }

  /** Math.min of 999 and the first k values. */
  function WorstOf(vals: seq<int>, k: nat): int
    requires k <= |vals|
  {
    if k == 0 then 999 else Min(WorstOf(vals, k - 1), vals[k - 1])
  }

  /** Over values in -1 .. 1 the best and worst of a non-empty prefix stay in -1 .. 1. */
  lemma {:induction false} PrefixBounds(vals: seq<int>, k: nat)
    requires k <= |vals| && forall j | 0 <= j < |vals| :: -1 <= vals[j] <= 1
    ensures k > 0 ==> -1 <= BestOf(vals, k) <= 1 && -1 <= WorstOf(vals, k) <= 1
  {
    if k > 1 {
      PrefixBounds(vals, k - 1);
    }
  }

  /** Every value up to k is at most the best of the first k and at least the worst. */
  lemma {:induction false} WithinPrefix(vals: seq<int>, j: nat, k: nat)
    requires j < k <= |vals|
    ensures WorstOf(vals, k) <= vals[j] <= BestOf(vals, k)
    decreases k
  {
    if j < k - 1 {
      WithinPrefix(vals, j, k - 1);
    }
  }

  // ---------------------------------------------------------------- alpha-beta

  /**
   * What a fail-soft search promises for a position of exact value x searched
   * in the window (lo, hi): x itself when x lies inside, a value at or below lo
   * when x does, a value at or above hi when x does.
   */
  predicate FailSoft(x: int, v: int, lo: int, hi: int)
  {
    (lo < x < hi ==> v == x) && (x <= lo ==> v <= lo) && (x >= hi ==> v >= hi)
  }

  /** The own-turn loop after i children without a cutoff: v and alpha as Math.max left them. */
  predicate MaxLoop(vals: seq<int>, i: nat, alpha: int, beta: int, a: int, v: int)
  {
    i <= |vals| && a < beta &&
    (if i == 0 then a == alpha && v == -999 else a == Max(alpha, v) && -1 <= v <= 1) &&
    (BestOf(vals, i) > alpha ==> v == BestOf(vals, i)) &&
    (BestOf(vals, i) <= alpha ==> v <= alpha)
  }

  /** One child of the own-turn loop: either the cutoff, with the promise kept, or the loop state one child further. */
  lemma MaxStep(vals: seq<int>, i: nat, alpha: int, beta: int, a: int, v: int, c: int)
    requires MaxLoop(vals, i, alpha, beta, a, v) && i < |vals|
    requires -1 <= c <= 1 && FailSoft(vals[i], c, a, beta)
    ensures beta <= Max(a, Max(v, c)) ==> -1 <= Max(v, c) <= 1 && FailSoft(BestOf(vals, |vals|), Max(v, c), alpha, beta)
    ensures Max(a, Max(v, c)) < beta ==> MaxLoop(vals, i + 1, alpha, beta, Max(a, Max(v, c)), Max(v, c))
  {
    if beta <= Max(a, Max(v, c)) {
      WithinPrefix(vals, i, |vals|);
    }
  }

  /** The own-turn loop run over every child keeps the promise. */
  lemma MaxDone(vals: seq<int>, alpha: int, beta: int, a: int, v: int)
    requires MaxLoop(vals, |vals|, alpha, beta, a, v) && |vals| > 0
    ensures -1 <= v <= 1 && FailSoft(BestOf(vals, |vals|), v, alpha, beta)
  {
  }

  /** The opponent's loop after i children without a cutoff: v and beta as Math.min left them. */
  predicate MinLoop(vals: seq<int>, i: nat, alpha: int, beta: int, b: int, v: int)
  {
    i <= |vals| && alpha < b &&
    (if i == 0 then b == beta && v == 999 else b == Min(beta, v) && -1 <= v <= 1) &&
    (WorstOf(vals, i) < beta ==> v == WorstOf(vals, i)) &&
    (WorstOf(vals, i) >= beta ==> v >= beta)
  }

  lemma MinStep(vals: seq<int>, i: nat, alpha: int, beta: int, b: int, v: int, c: int)
    requires MinLoop(vals, i, alpha, beta, b, v) && i < |vals|
    requires -1 <= c <= 1 && FailSoft(vals[i], c, alpha, b)
    ensures Min(b, Min(v, c)) <= alpha ==> -1 <= Min(v, c) <= 1 && FailSoft(WorstOf(vals, |vals|), Min(v, c), alpha, beta)
    ensures alpha < Min(b, Min(v, c)) ==> MinLoop(vals, i + 1, alpha, beta, Min(b, Min(v, c)), Min(v, c))
  {
    if Min(b, Min(v, c)) <= alpha {
      WithinPrefix(vals, i, |vals|);
    }
  }

  lemma MinDone(vals: seq<int>, alpha: int, beta: int, b: int, v: int)
    requires MinLoop(vals, |vals|, alpha, beta, b, v) && |vals| > 0
    ensures -1 <= v <= 1 && FailSoft(WorstOf(vals, |vals|), v, alpha, beta)
  {
  }

  /**
   * alphaBeta within the window (alpha, beta), proved against plain minimax:
   * the exact value when it lies strictly inside the window, otherwise a
   * bound on the same side of the window as the exact value.
   */
  method AlphaBeta(data: string, turn: string, identity: string, alpha: int, beta: int) returns (v: int)
    requires turn == "X" || turn == "O"
    requires alpha < beta
    ensures -1 <= v <= 1
    ensures FailSoft(Minimax(data, turn, identity), v, alpha, beta)
    decreases BlanksBelow(data, CellCount), 2
  {
    var moves := PossibleMoves(data);
    if |moves| == 0 || IsEnded(data) {
      return BoardScore(data, identity);
    }
    if turn == identity {
      v := MaxNode(data, turn, identity, alpha, beta);
      assert Minimax(data, turn, identity) == MinimaxBest(data, turn, identity);
    } else {
      v := MinNode(data, turn, identity, alpha, beta);
      assert Minimax(data, turn, identity) == MinimaxWorst(data, turn, identity);
    }
  }

  /** The recursive call alphaBeta makes for the i-th free cell, within the window (lo, hi). */
  method SearchChild(data: string, turn: string, identity: string, i: nat, lo: int, hi: int) returns (c: int)
    requires turn == "X" || turn == "O"
    requires lo < hi && i < |PossibleMoves(data)|
    ensures -1 <= c <= 1
    ensures FailSoft(ChildValues(data, turn, identity)[i], c, lo, hi)
    decreases BlanksBelow(data, CellCount), 0
  {
    var move := PossibleMoves(data)[i];
    PlacedHasFewerBlanks(data, move, turn);
    c := AlphaBeta(Placed(data, move, turn), GetOpponent(identity, turn), identity, lo, hi);
    ChildValueIs(data, turn, identity, i);
  }

  /** The bot's own turn: v rises over the children, alpha follows it, and the loop stops once beta <= alpha. */
  method MaxNode(data: string, turn: string, identity: string, alpha: int, beta: int) returns (v: int)
    requires turn == "X" || turn == "O"
    requires alpha < beta && |PossibleMoves(data)| > 0
    ensures -1 <= v <= 1
    ensures FailSoft(MinimaxBest(data, turn, identity), v, alpha, beta)
    decreases BlanksBelow(data, CellCount), 1
  {
    var moves := PossibleMoves(data);
    ghost var vals := ChildValues(data, turn, identity);
    v := -999;
    var a := alpha;
    var i := 0;
    while i < |moves|
      invariant i <= |vals| == |moves|
      invariant MaxLoop(vals, i, alpha, beta, a, v)
    {
      var child := SearchChild(data, turn, identity, i, a, beta);
      MaxStep(vals, i, alpha, beta, a, v, child);
      v := Max(v, child);
      a := Max(a, v);
      if beta <= a {
        return;
      }
      i := i + 1;
    }
    MaxDone(vals, alpha, beta, a, v);
  }

  /** The opponent's turn: v falls over the children, beta follows it, and the loop stops once beta <= alpha. */
  method MinNode(data: string, turn: string, identity: string, alpha: int, beta: int) returns (v: int)
    requires turn == "X" || turn == "O"
    requires alpha < beta && |PossibleMoves(data)| > 0
    ensures -1 <= v <= 1
    ensures FailSoft(MinimaxWorst(data, turn, identity), v, alpha, beta)
    decreases BlanksBelow(data, CellCount), 1
  {
    var moves := PossibleMoves(data);
    ghost var vals := ChildValues(data, turn, identity);
    v := 999;
    var b := beta;
    var i := 0;
    while i < |moves|
      invariant i <= |vals| == |moves|
      invariant MinLoop(vals, i, alpha, beta, b, v)
    {
      var child := SearchChild(data, turn, identity, i, alpha, b);
      MinStep(vals, i, alpha, beta, b, v, child);
      v := Min(v, child);
      b := Min(b, v);
      if b <= alpha {
        return;
      }
      i := i + 1;
    }
    MinDone(vals, alpha, beta, b, v);
  }

  // ---------------------------------------------------------------- doTurn

  /** A line with two cells of the owner and one blank, as the shortcut loops test it. */
  predicate Completable(data: string, identity: string, line: seq<nat>, owner: Owner)
  {
    |Owned(data, identity, line, owner)| == 2 && |Owned(data, identity, line, Blank)| == 1
  }

  /** The blank of the first completable line, as the shortcut loops return it. */
  function Completion(data: string, identity: string, owner: Owner, lines: seq<seq<nat>>): Option<nat>
    decreases |lines|
  {
    if |lines| == 0 then None
    else if Completable(data, identity, lines[0], owner) then Some(Owned(data, identity, lines[0], Blank)[0])
    else Completion(data, identity, owner, lines[1..])
  }
  /** None exactly when no line is completable; otherwise the blank of the first one that is. */
  lemma {:induction false} CompletionIsFirst(data: string, identity: string, owner: Owner, lines: seq<seq<nat>>)
    ensures Completion(data, identity, owner, lines).None? <==> forall j | 0 <= j < |lines| :: !Completable(data, identity, lines[j], owner)
    ensures Completion(data, identity, owner, lines).Some? ==> exists j | 0 <= j < |lines| ::
      Completable(data, identity, lines[j], owner) && Completion(data, identity, owner, lines).value == Owned(data, identity, lines[j], Blank)[0] &&
      forall k | 0 <= k < j :: !Completable(data, identity, lines[k], owner)
    decreases |lines|
  {
    if |lines| > 0 && !Completable(data, identity, lines[0], owner) {
      CompletionIsFirst(data, identity, owner, lines[1..]);
      var r := Completion(data, identity, owner, lines[1..]);
      if r.Some? {
        var j :| 0 <= j < |lines[1..]| && Completable(data, identity, lines[1..][j], owner) && r.value == Owned(data, identity, lines[1..][j], Blank)[0] &&
          forall k | 0 <= k < j :: !Completable(data, identity, lines[1..][k], owner);
        assert lines[1..][j] == lines[j + 1];
        assert forall k | 0 <= k < j + 1 :: !Completable(data, identity, lines[k], owner) by {
          forall k | 0 <= k < j + 1 ensures !Completable(data, identity, lines[k], owner) {
            if k > 0 { assert lines[k] == lines[1..][k - 1]; }
          }
        }
      } else {
        forall k | 0 <= k < |lines| ensures !Completable(data, identity, lines[k], owner) {
          if k > 0 { assert lines[k] == lines[1..][k - 1]; }
        }
      }
    }
  }

  /**
   * In a completable line of the owner (ours or theirs) the blank is the one
   * cell that is not the owner's: no cell of the line belongs to the third party.
   */
  lemma CompletableLine(data: string, identity: string, line: seq<nat>, owner: Owner)
    requires owner != Blank && Completable(data, identity, line, owner) && |line| == 3
    ensures var m := Owned(data, identity, line, Blank)[0];
      m in line && OwnerOf(data, identity, m) == Blank &&
      forall p | p in line && p != m :: OwnerOf(data, identity, p) == owner
  {
    ClassifiedPartitions(data, identity, line);
    OwnedMembers(data, identity, line, Ours);
    OwnedMembers(data, identity, line, Theirs);
    OwnedMembers(data, identity, line, Blank);
    var other := if owner == Ours then Theirs else Ours;
    var blanks := Owned(data, identity, line, Blank);
    var none := Owned(data, identity, line, other);
    var m := blanks[0];
    assert |none| == 0;
    assert blanks == [m];
    forall p | p in line && p != m
      ensures OwnerOf(data, identity, p) == owner
    {
      assert p !in none;
      assert p !in blanks;
    }
  }

  /** The listed lines: three cells each, all on the board. */
  lemma LinesOnBoard(j: nat)
    requires j < |Lines|
    ensures |Lines[j]| == 3 && forall k | 0 <= k < 3 :: Lines[j][k] < 9
  {
  }

  /** The first shortcut wins: the returned blank completes a line of the bot's own marks. */
  lemma WinShortcutWins(data: string, identity: string)
    requires |data| == 9 && |identity| == 1 && identity != "-"
    requires Completion(data, identity, Ours, Lines).Some?
    ensures exists j | 0 <= j < |Lines| ::
      Wins(Placed(data, Completion(data, identity, Ours, Lines).value, identity), Lines[j], identity)
  {
    CompletionIsFirst(data, identity, Ours, Lines);
    var m := Completion(data, identity, Ours, Lines).value;
    var j :| 0 <= j < |Lines| && Completable(data, identity, Lines[j], Ours) && m == Owned(data, identity, Lines[j], Blank)[0];
    var line := Lines[j];
    LinesOnBoard(j);
    CompletableLine(data, identity, line, Ours);
    PlacedCells(data, m, identity);
    var next := Placed(data, m, identity);
    forall k | 0 <= k < 3
      ensures CellAt(next, line[k]) == identity
    {
      if line[k] != m {
        assert OwnerOf(data, identity, line[k]) == Ours;
      }
    }
    LineReadsMark(next, line, identity);
  }

  /** The second shortcut blocks: on the returned blank the opponent would complete a line. */
  lemma BlockShortcutBlocks(data: string, identity: string)
    requires |data| == 9 && (identity == "X" || identity == "O") && OnlyMarks(data)
    requires Completion(data, identity, Theirs, Lines).Some?
    ensures exists j | 0 <= j < |Lines| ::
      Wins(Placed(data, Completion(data, identity, Theirs, Lines).value, OtherIdentity(identity)), Lines[j], OtherIdentity(identity))
  {
    CompletionIsFirst(data, identity, Theirs, Lines);
    OnlyMarksCells(data);
    var m := Completion(data, identity, Theirs, Lines).value;
    var j :| 0 <= j < |Lines| && Completable(data, identity, Lines[j], Theirs) && m == Owned(data, identity, Lines[j], Blank)[0];
    var line := Lines[j];
    var them := OtherIdentity(identity);
    LinesOnBoard(j);
    CompletableLine(data, identity, line, Theirs);
    PlacedCells(data, m, them);
    var next := Placed(data, m, them);
    forall k | 0 <= k < 3
      ensures CellAt(next, line[k]) == them
    {
      if line[k] != m {
        assert OwnerOf(data, identity, line[k]) == Theirs;
      }
    }
    LineReadsMark(next, line, them);
  }

  /** One shortcut loop: getSequenceInfo on each line in turn, returning the first completable line's blank. */
  method FindCompletion(data: string, identity: string, owner: Owner, lines: seq<seq<nat>>) returns (r: Option<nat>)
    requires owner != Blank
    ensures r == Completion(data, identity, owner, lines)
  {
    var i := 0;
    while i < |lines|
      invariant i <= |lines|
      invariant Completion(data, identity, owner, lines[i..]) == Completion(data, identity, owner, lines)
    {
      assert lines[i..][0] == lines[i] && lines[i..][1..] == lines[i + 1..];
      var info := GetSequenceInfo(data, identity, lines[i]);
      var mine := if owner == Ours then info.ours else info.theirs;
      if |mine| == 2 && |info.blanks| == 1 {
        return Some(info.blanks[0]);
      }
      i := i + 1;
    }
    assert lines[i..] == [];
    return None;
  }

  /** What the search rates a move: the minimax value after the bot takes it, the opponent to move. */
  function MoveScore(data: string, identity: string, move: nat): (score: int)
    ensures -1 <= score <= 1
  {
    Minimax(Placed(data, move, identity), GetOpponent(identity, ""), identity)
  }

  /** The scores of the free cells, in board order. */
  ghost function Scores(data: string, identity: string): (scores: seq<int>)
    ensures |scores| == |PossibleMoves(data)|
  {
    seq(|PossibleMoves(data)|, k requires 0 <= k < |PossibleMoves(data)| => MoveScore(data, identity, PossibleMoves(data)[k]))
  }

  /** A free cell no other free cell outscores. */
  ghost predicate IsBestMove(data: string, identity: string, move: nat)
  {
    var scores := Scores(data, identity);
    exists k | 0 <= k < |scores| :: PossibleMoves(data)[k] == move && forall j | 0 <= j < |scores| :: scores[j] <= scores[k]
  }

  /** The score of one move: a copy of the board, the bot's mark set on it, alphaBeta in the window (-999, 999). */
  method ScoreMove(board: Board, identity: string, move: nat) returns (score: int)
    ensures score == MoveScore(board.data, identity, move)
  {
    var tempBoard := board.Copy();
    tempBoard.SetAt(move, identity);
    score := AlphaBeta(tempBoard.data, GetOpponent(identity, ""), identity, -999, 999);
  }

  /**
   * The search loop after the first i moves, scores[k] being the score of
   * ms[k]: no score yet, or the top score so far and the moves tied at it.
   */
  ghost predicate SearchLoop(ms: seq<nat>, scores: seq<int>, i: nat, bestScore: Option<int>, choices: seq<nat>)
  {
    i <= |ms| == |scores| &&
    if i == 0 then bestScore.None? && choices == []
    else
      bestScore.Some? &&
      (forall k | 0 <= k < i :: scores[k] <= bestScore.value) &&
      (exists k | 0 <= k < i :: scores[k] == bestScore.value) &&
      forall m: nat :: m in choices <==> exists k | 0 <= k < i :: ms[k] == m && scores[k] == bestScore.value
  }

  /** One move of the search loop: a higher score starts the choices afresh, an equal one joins them. */
  lemma SearchStep(ms: seq<nat>, scores: seq<int>, i: nat, bestScore: Option<int>, choices: seq<nat>)
    requires SearchLoop(ms, scores, i, bestScore, choices) && i < |ms|
    ensures bestScore.None? || scores[i] > bestScore.value ==> SearchLoop(ms, scores, i + 1, Some(scores[i]), [ms[i]])
    ensures bestScore.Some? && scores[i] == bestScore.value ==> SearchLoop(ms, scores, i + 1, bestScore, choices + [ms[i]])
    ensures bestScore.Some? && scores[i] < bestScore.value ==> SearchLoop(ms, scores, i + 1, bestScore, choices)
  {
  }

  /** When the loop has seen every move, the choices are exactly the moves whose score no other score exceeds. */
  lemma SearchDone(ms: seq<nat>, scores: seq<int>, bestScore: Option<int>, choices: seq<nat>)
    requires SearchLoop(ms, scores, |ms|, bestScore, choices)
    ensures forall m: nat :: m in choices <==> exists k | 0 <= k < |ms| :: ms[k] == m && forall j | 0 <= j < |ms| :: scores[j] <= scores[k]
    ensures |choices| > 0 <==> |ms| > 0
  {
    if |ms| > 0 {
      var best := bestScore.value;
      var top :| 0 <= top < |ms| && scores[top] == best;
      forall m: nat
        ensures m in choices <==> exists k | 0 <= k < |ms| :: ms[k] == m && forall j | 0 <= j < |ms| :: scores[j] <= scores[k]
      {
        if exists k | 0 <= k < |ms| :: ms[k] == m && forall j | 0 <= j < |ms| :: scores[j] <= scores[k] {
          var k :| 0 <= k < |ms| && ms[k] == m && forall j | 0 <= j < |ms| :: scores[j] <= scores[k];
          assert scores[top] <= scores[k];
        }
      }
      assert ms[top] in choices;
    }
  }

  /** The search loop of doTurn: exactly the free cells tied at the best score, in board order. */
  method BestMoves(board: Board, identity: string) returns (choices: seq<nat>)
    ensures forall m: nat :: m in choices <==> IsBestMove(board.data, identity, m)
    ensures |choices| > 0 <==> |PossibleMoves(board.data)| > 0
  {
    ghost var data := board.data;
    ghost var scores := Scores(data, identity);
    var moves := board.GetPossibleMoves();
    var bestScore: Option<int> := None;
    choices := [];
    for i := 0 to |moves|
      invariant board.data == data
      invariant SearchLoop(moves, scores, i, bestScore, choices)
    {
      var move := moves[i];
      var score := ScoreMove(board, identity, move);
      assert score == scores[i];
      SearchStep(moves, scores, i, bestScore, choices);
      if bestScore.None? || score > bestScore.value {
        bestScore := Some(score);
        choices := [move];
      } else if score == bestScore.value {
        choices := choices + [move];
      }
    }
    SearchDone(moves, scores, bestScore, choices);
  }

  /**
   * What doTurn may answer: the win shortcut's blank, else the block
   * shortcut's blank, else while the bot has no mark the opening rule, else
   * one of the best moves of the search; None where randomChoice of an empty
   * list yields undefined.
   */
  ghost predicate TurnSpec(data: string, identity: string, move: Option<nat>)
  {
    var win := Completion(data, identity, Ours, Lines);
    var block := Completion(data, identity, Theirs, Lines);
    var info := Classified(data, identity, AllCells);
    if win.Some? then move == win
    else if block.Some? then move == block
    else if |info.ours| == 0 then
      if |info.theirs| > 0 then move == Some(if 4 in PossibleMoves(data) then 4 else 0)
      else move.Some? && move.value in OpeningMoves
    else (move.Some? <==> |PossibleMoves(data)| > 0) && (move.Some? ==> IsBestMove(data, identity, move.value))
  }

  /**
   * Every answer is a cell of the board, and a blank one except where the
   * opening rule falls back on 0 because the centre is taken.
   */
  lemma TurnOnBoard(data: string, identity: string, move: Option<nat>)
    requires TurnSpec(data, identity, move) && move.Some?
    ensures move.value < 9
    ensures CellAt(data, move.value) == " " || move.value in OpeningMoves || move == Some(0)
  {
    var win := Completion(data, identity, Ours, Lines);
    var block := Completion(data, identity, Theirs, Lines);
    if win.Some? {
      CompletionOnBoard(data, identity, Ours);
    } else if block.Some? {
      CompletionOnBoard(data, identity, Theirs);
    } else if |Classified(data, identity, AllCells).ours| > 0 {
      BestMoveOnBoard(data, identity, move.value);
    }
  }

  /** A shortcut's blank is a blank cell of the board. */
  lemma CompletionOnBoard(data: string, identity: string, owner: Owner)
    requires owner != Blank && Completion(data, identity, owner, Lines).Some?
    ensures Completion(data, identity, owner, Lines).value < 9
    ensures CellAt(data, Completion(data, identity, owner, Lines).value) == " "
  {
    CompletionIsFirst(data, identity, owner, Lines);
    var m := Completion(data, identity, owner, Lines).value;
    var j :| 0 <= j < |Lines| && Completable(data, identity, Lines[j], owner) && m == Owned(data, identity, Lines[j], Blank)[0];
    LinesOnBoard(j);
    CompletableLine(data, identity, Lines[j], owner);
  }

  /** A best move is a blank cell of the board. */
  lemma BestMoveOnBoard(data: string, identity: string, move: nat)
    requires IsBestMove(data, identity, move)
    ensures move < 9 && CellAt(data, move) == " "
  {
    PossibleMovesSpec(data);
    var scores := Scores(data, identity);
    var k :| 0 <= k < |scores| && PossibleMoves(data)[k] == move && forall j | 0 <= j < |scores| :: scores[j] <= scores[k];
    assert move in PossibleMoves(data);
  }

  /** doTurn, proved against TurnSpec. */
  method DoTurn(board: Board, identity: string) returns (move: Option<nat>)
    ensures TurnSpec(board.data, identity, move)
  {
    var moves := board.GetPossibleMoves();
    move := FindCompletion(board.data, identity, Ours, Lines);
    if move.Some? {
      return;
    }
    move := FindCompletion(board.data, identity, Theirs, Lines);
    if move.Some? {
      return;
    }
    var info := GetSequenceInfo(board.data, identity, AllCells);
    if |info.ours| == 0 {
      if |info.theirs| > 0 {
        if 4 in moves {
          return Some(4);
        }
        return Some(0);
      }
      var pick: nat :| pick < |OpeningMoves|;
      return RandomChoice(OpeningMoves, pick);
    }
    var choices := BestMoves(board, identity);
    var pick: nat :| pick < |choices| || pick == 0;
    move := RandomChoice(choices, pick);
  }

  /** process for the minimax bot: the board rebuilt from the 18 inputs, then doTurn on it. */
  method Process(identity: string, inputs: seq<int>) returns (move: Option<nat>)
    requires |inputs| == 18
    ensures TurnSpec(InputBoard(identity, inputs, 9), identity, move)
  {
    var board := ReadInputs(identity, inputs);
    move := DoTurn(board, identity);
  }
}
