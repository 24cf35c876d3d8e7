/**
 * The search of src/ai.rs: material score of a board, generation of every
 * pseudo-legal move of one side, fixed-depth minimax over cloned boards,
 * and the choice of a best root move.
 *
 * Each operation has a specification function over `Grid` values, and the
 * methods that run on a `Board` are proved to compute exactly that function.
 */
module Ai {
  import opened Optional
  import opened Pieces
  import opened Chessboard
  import opened Figures

  // ---------------------------------------------------------------------
  // total_score
  // ---------------------------------------------------------------------

  /** `cell.map_or(0, Piece::score)`. */
  function CellScore(cell: Option<Piece>): (s: int)
    ensures -1000 <= s <= 1000
    ensures cell.None? ==> s == 0
    ensures cell.Some? ==> s == Score(cell.value)
  {
    match cell
    case None => 0
    case Some(p) => Score(p)
  }

  /** The sum of the cell scores of one column. */
  function ColumnSum(col: seq<Option<Piece>>): (s: int)
    ensures -1000 * |col| <= s <= 1000 * |col|
  {
    if col == [] then 0 else CellScore(col[0]) + ColumnSum(col[1..])
  }

  /** The sum of the column sums of the first `n` columns. */
  function GridSum(g: Grid, n: nat): (s: int)
    requires n <= 8
    ensures -8000 * n <= s <= 8000 * n
  {
    if n == 0 then 0 else GridSum(g, n - 1) + ColumnSum(g[n - 1])
  }

  /**
   * `total_score`: the material of every occupied cell, signed by colour
   * (positive is good for White).  It lies within 64 kings' worth of zero,
   * so the source's 32-bit `Score` cannot overflow here.
   */
  function TotalScore(g: Grid): (s: int)
    ensures -64000 <= s <= 64000
  {
    // `|g|` is 8, written so that the verifier does not unroll the sum
    GridSum(g, |g|)
  }

  /** The total, column by column. */
  lemma {:induction false} TotalScoreColumns(g: Grid)
    ensures TotalScore(g) == ColumnSum(g[0]) + ColumnSum(g[1]) + ColumnSum(g[2]) + ColumnSum(g[3])
                           + ColumnSum(g[4]) + ColumnSum(g[5]) + ColumnSum(g[6]) + ColumnSum(g[7])
  {
    assert GridSum(g, 1) == ColumnSum(g[0]);
    assert GridSum(g, 2) == GridSum(g, 1) + ColumnSum(g[1]);
    assert GridSum(g, 3) == GridSum(g, 2) + ColumnSum(g[2]);
    assert GridSum(g, 4) == GridSum(g, 3) + ColumnSum(g[3]);
    assert GridSum(g, 5) == GridSum(g, 4) + ColumnSum(g[4]);
    assert GridSum(g, 6) == GridSum(g, 5) + ColumnSum(g[5]);
    assert GridSum(g, 7) == GridSum(g, 6) + ColumnSum(g[6]);
    assert GridSum(g, 8) == GridSum(g, 7) + ColumnSum(g[7]);
  }

  lemma {:induction false} ColumnSumUpdate(col: seq<Option<Piece>>, y: nat, v: Option<Piece>)
    requires y < |col|
    ensures ColumnSum(col[y := v]) == ColumnSum(col) - CellScore(col[y]) + CellScore(v)
  {
    if y > 0 {
      assert col[y := v][1..] == col[1..][y - 1 := v];
      ColumnSumUpdate(col[1..], y - 1, v);
    } else {
      assert col[y := v][1..] == col[1..];
    }
  }

  lemma {:induction false} GridSumUpdate(g: Grid, n: nat, p: Pos, v: Option<Piece>)
    requires n <= 8 && IsInside(p)
    ensures GridSum(Set(g, p, v), n)
         == GridSum(g, n) - (if p.x < n then CellScore(At(g, p)) - CellScore(v) else 0)
  {
    if n > 0 {
      GridSumUpdate(g, n - 1, p, v);
      if p.x == n - 1 {
        ColumnSumUpdate(g[p.x], p.y, v);
      } else {
        assert Set(g, p, v)[n - 1] == g[n - 1];
      }
    }
  }

  /** Replacing one cell changes the total by the difference of the two cell scores. */
  lemma {:induction false} TotalScoreUpdate(g: Grid, p: Pos, v: Option<Piece>)
    requires IsInside(p)
    ensures TotalScore(Set(g, p, v)) == TotalScore(g) - CellScore(At(g, p)) + CellScore(v)
  {
    GridSumUpdate(g, |g|, p, v);
  }

  /**
   * What a move does to the material: a capture removes the captured
   * piece's score, and a promotion replaces the pawn's score by the queen's.
   */
  lemma {:induction false} MoveScoreChange(g: Grid, m: Move)
    requires IsInside(m.from) && IsInside(m.to) && At(g, m.from).Some? && m.from != m.to
    ensures TotalScore(Moved(g, m))
         == TotalScore(g) - CellScore(At(g, m.to))
          - Score(At(g, m.from).value) + Score(Promoted(At(g, m.from).value, m.to))
  {
    var piece := At(g, m.from).value;
    var lifted := Set(g, m.from, None);
    TotalScoreUpdate(g, m.from, None);
    TotalScoreUpdate(lifted, m.to, Some(Promoted(piece, m.to)));
  }

  /** A move that neither captures nor promotes keeps the material balance. */
  lemma {:induction false} QuietMoveKeepsScore(g: Grid, m: Move)
    requires IsInside(m.from) && IsInside(m.to) && At(g, m.from).Some? && m.from != m.to
    requires At(g, m.to).None?
    requires Promoted(At(g, m.from).value, m.to) == At(g, m.from).value
    ensures TotalScore(Moved(g, m)) == TotalScore(g)
  {
    MoveScoreChange(g, m);
  }

  lemma {:induction false} ColumnSumFrom(col: seq<Option<Piece>>, k: nat)
    requires k < |col|
    ensures ColumnSum(col[k..]) == CellScore(col[k]) + ColumnSum(col[k + 1..])
  {
    assert col[k..][1..] == col[k + 1..];
  }

  /** A column's sum written out cell by cell. */
  lemma {:induction false} ColumnSumEight(col: seq<Option<Piece>>)
    requires |col| == 8
    ensures ColumnSum(col) == CellScore(col[0]) + CellScore(col[1]) + CellScore(col[2]) + CellScore(col[3])
                            + CellScore(col[4]) + CellScore(col[5]) + CellScore(col[6]) + CellScore(col[7])
  {
    assert col[0..] == col;
    ColumnSumFrom(col, 0);
    ColumnSumFrom(col, 1);
    ColumnSumFrom(col, 2);
    ColumnSumFrom(col, 3);
    ColumnSumFrom(col, 4);
    ColumnSumFrom(col, 5);
    ColumnSumFrom(col, 6);
    ColumnSumFrom(col, 7);
  }

  lemma {:induction false} EmptyColumns(g: Grid, n: nat)
    requires n <= 8
    requires forall p {:trigger At(g, p)} :: IsInside(p) ==> At(g, p) == None
    ensures GridSum(g, n) == 0
  {
    if n > 0 {
      EmptyColumns(g, n - 1);
      var col := g[n - 1];
      forall y | 0 <= y < 8
        ensures col[y] == None
      {
        assert At(g, Pos(n - 1, y)) == None;
      }
      ColumnSumEight(col);
    }
  }

  /** The empty board has no material. */
  lemma {:induction false} EmptyScore()
    ensures TotalScore(EmptyGrid()) == 0
  {
    EmptyColumns(EmptyGrid(), |EmptyGrid()|);
  }

  /**
   * Each column of the starting arrangement holds the same figures for
   * both colours, so its sum is zero.
   */
  lemma {:induction false} DefaultColumn(x: nat)
    requires x < 8
    ensures ColumnSum(DefaultField()[x]) == 0
  {
    var col := DefaultField()[x];
    ColumnSumEight(col);
    DefaultFieldLayout(Pos(x, 0));
    DefaultFieldLayout(Pos(x, 1));
    DefaultFieldLayout(Pos(x, 2));
    DefaultFieldLayout(Pos(x, 3));
    DefaultFieldLayout(Pos(x, 4));
    DefaultFieldLayout(Pos(x, 5));
    DefaultFieldLayout(Pos(x, 6));
    DefaultFieldLayout(Pos(x, 7));
  }

  /** Test `default_score`: the starting arrangement is balanced. */
  lemma {:induction false} DefaultScore()
    ensures TotalScore(DefaultField()) == 0
  {
    TotalScoreColumns(DefaultField());
    DefaultColumn(0);
    DefaultColumn(1);
    DefaultColumn(2);
    DefaultColumn(3);
    DefaultColumn(4);
    DefaultColumn(5);
    DefaultColumn(6);
    DefaultColumn(7);
  }

  // ---------------------------------------------------------------------
  // get_all_possible_moves
  // ---------------------------------------------------------------------

  /** The moves the callback pushes for one piece: one `Move { from, to }` per emitted square, in order. */
  function Targets(from: Pos, ts: seq<Pos>): (r: seq<Move>)
    ensures |r| == |ts|
    ensures forall i :: 0 <= i < |ts| ==> r[i] == Move(from, ts[i])
  {
    seq(|ts|, i requires 0 <= i < |ts| => Move(from, ts[i]))
  }

  /** The moves generated from one square: those of its piece when it belongs to the side to move. */
  function SquareMoves(g: Grid, turn: Color, from: Pos): seq<Move>
    requires IsInside(from)
  {
    if HoldsColor(g, from, turn) then Targets(from, ReachableSquares(At(g, from).value, from, g)) else []
  }

  /** The moves of row `y` from the squares `x = 0 .. n - 1`, in that order (the inner loop). */
  function RowPrefix(g: Grid, turn: Color, y: int, n: nat): seq<Move>
    requires 0 <= y < 8 && n <= 8
  {
    if n == 0 then [] else RowPrefix(g, turn, y, n - 1) + SquareMoves(g, turn, Pos(n - 1, y))
  }

  /** The moves of rows `0 .. k - 1`, row after row (the outer loop). */
  function RowsBefore(g: Grid, turn: Color, k: nat): seq<Move>
    requires k <= 8
  {
    if k == 0 then [] else RowsBefore(g, turn, k - 1) + RowPrefix(g, turn, k - 1, |g|)
  }

  /** `get_all_possible_moves` as a value: `y` outer, `x` inner, each piece's moves in `reachables` order. */
  function AllMoves(g: Grid, turn: Color): seq<Move>
  {
    // `|g|` is 8; it is written as the grid's size so that the verifier does
    // not unroll the scan down to the literal squares
    RowsBefore(g, turn, |g|)
  }

  lemma {:induction false} TargetsMembers(from: Pos, ts: seq<Pos>, m: Move)
    ensures m in Targets(from, ts) <==> m.from == from && m.to in ts
  {
    if m.from == from && m.to in ts {
      var i :| 0 <= i < |ts| && ts[i] == m.to;
      assert Targets(from, ts)[i] == m;
    }
  }

  lemma {:induction false} SquareMovesMembers(g: Grid, turn: Color, from: Pos, m: Move)
    requires IsInside(from)
    ensures m in SquareMoves(g, turn, from) <==>
      m.from == from && HoldsColor(g, from, turn) && m.to in ReachableSquares(At(g, from).value, from, g)
  {
    if HoldsColor(g, from, turn) {
      TargetsMembers(from, ReachableSquares(At(g, from).value, from, g), m);
    }
  }

  lemma {:induction false} RowPrefixMembers(g: Grid, turn: Color, y: int, n: nat, m: Move)
    requires 0 <= y < 8 && n <= 8
    ensures m in RowPrefix(g, turn, y, n) <==>
      m.from.y == y && 0 <= m.from.x < n && m in SquareMoves(g, turn, m.from)
  {
    if n > 0 {
      RowPrefixMembers(g, turn, y, n - 1, m);
      SquareMovesMembers(g, turn, Pos(n - 1, y), m);
      if m.from.y == y && 0 <= m.from.x < n {
        SquareMovesMembers(g, turn, m.from, m);
      }
    }
  }

  lemma {:induction false} RowsBeforeMembers(g: Grid, turn: Color, k: nat, m: Move)
    requires k <= 8
    ensures m in RowsBefore(g, turn, k) <==>
      0 <= m.from.y < k && 0 <= m.from.x < 8 && m in SquareMoves(g, turn, m.from)
  {
    if k > 0 {
      RowsBeforeMembers(g, turn, k - 1, m);
      RowPrefixMembers(g, turn, k - 1, 8, m);
    }
  }

  /**
   * Soundness and completeness of `get_all_possible_moves`: a move is
   * generated exactly when its source holds a piece of the side to move and
   * its destination is one that piece's `reachables` emits.
   */
  lemma {:induction false} AllMovesMembers(g: Grid, turn: Color, m: Move)
    ensures m in AllMoves(g, turn) <==>
      HoldsColor(g, m.from, turn) && m.to in ReachableSquares(At(g, m.from).value, m.from, g)
  {
    RowsBeforeMembers(g, turn, 8, m);
    if IsInside(m.from) {
      SquareMovesMembers(g, turn, m.from, m);
    }
  }

  /** The conditions `calculate_future_score` asserts of its move: an own piece leaves, and lands on no own piece. */
  predicate MoveShape(g: Grid, m: Move, turn: Color)
  {
    HoldsColor(g, m.from, turn) && IsInside(m.to) && !HoldsColor(g, m.to, turn)
  }

  predicate AllShaped(g: Grid, moves: seq<Move>, turn: Color)
  {
    forall i :: 0 <= i < |moves| ==> MoveShape(g, moves[i], turn)
  }

  /** Every generated move meets those conditions. */
  lemma {:induction false} AllMovesShape(g: Grid, turn: Color)
    ensures AllShaped(g, AllMoves(g, turn), turn)
  {
    forall i | 0 <= i < |AllMoves(g, turn)|
      ensures MoveShape(g, AllMoves(g, turn)[i], turn)
    {
      var m := AllMoves(g, turn)[i];
      AllMovesMembers(g, turn, m);
      var r := ReachableSquares(At(g, m.from).value, m.from, g);
      ReachablesSound(At(g, m.from).value, m.from, g);
      var j :| 0 <= j < |r| && r[j] == m.to;
    }
  }

  lemma {:induction false} AppendAssoc(a: seq<Move>, b: seq<Move>, c: seq<Move>)
    ensures a + (b + c) == (a + b) + c
  {
  }

  /** The callback `insert_into`: push one move to each emitted square, in emission order. */
  method PushTargets(from: Pos, targets: seq<Pos>, result: seq<Move>) returns (extended: seq<Move>)
    ensures extended == result + Targets(from, targets)
  {
    extended := result;
    for i := 0 to |targets|
      invariant extended == result + Targets(from, targets[..i])
    {
      assert Targets(from, targets[..i + 1]) == Targets(from, targets[..i]) + [Move(from, targets[i])];
      extended := extended + [Move(from, targets[i])];
    }
    assert targets[..|targets|] == targets;
  }

  /**
   * One step of the scan: when `from` holds a piece of the side to move,
   * push a move to each square its `reachables` emits, in emission order.
   */
  method PushMoves(board: Board, whoseTurn: Color, from: Pos, result: seq<Move>) returns (extended: seq<Move>)
    requires board.Valid() && IsInside(from)
    ensures extended == result + SquareMoves(board.Value(), whoseTurn, from)
  {
    extended := result;
    match board.Get(from) {
      case Some(piece) =>
        if piece.color == whoseTurn {
          var targets := Reachables(piece, from, board);
          extended := PushTargets(from, targets, result);
        }
      case None =>
    }
  }

  /** `get_all_possible_moves`: the scan with `y` outer and `x` inner. */
  method GetAllPossibleMoves(board: Board, whoseTurn: Color) returns (result: seq<Move>)
    requires board.Valid()
    ensures result == AllMoves(board.Value(), whoseTurn)
  {
    ghost var g := board.Value();
    result := [];
    for y := 0 to 8
      invariant result == RowsBefore(g, whoseTurn, y)
    {
      for x := 0 to 8
        invariant result == RowsBefore(g, whoseTurn, y) + RowPrefix(g, whoseTurn, y, x)
      {
        result := PushMoves(board, whoseTurn, Pos(x, y), result);
        AppendAssoc(RowsBefore(g, whoseTurn, y), RowPrefix(g, whoseTurn, y, x), SquareMoves(g, whoseTurn, Pos(x, y)));
      }
    }
  }

  // ---------------------------------------------------------------------
  // calculate_future_score
  // ---------------------------------------------------------------------

  /** `Iterator::max` of a non-empty sequence. */
  function SeqMax(s: seq<int>): (r: int)
    requires s != []
    ensures r in s
    ensures forall i :: 0 <= i < |s| ==> s[i] <= r
  {
    if |s| == 1 then s[0]
    else
      var rest := SeqMax(s[1..]);
      if s[0] >= rest then s[0] else rest
  }

  /** `Iterator::min` of a non-empty sequence. */
  function SeqMin(s: seq<int>): (r: int)
    requires s != []
    ensures r in s
    ensures forall i :: 0 <= i < |s| ==> r <= s[i]
  {
    if |s| == 1 then s[0]
    else
      var rest := SeqMin(s[1..]);
      if s[0] <= rest then s[0] else rest
  }

  /** The score when the replying side has no move: worst for it. */
  function NoReplyScore(replier: Color): int
  {
    match replier
    case White => -10000
    case Black => 10000
  }

  /**
   * The replying side's choice among the scores of its replies: the largest
   * when White replies, the smallest when Black replies, and the sentinel
   * that is worst for it when it has no reply.
   */
  function Choose(replier: Color, scores: seq<int>): (s: int)
    ensures scores == [] ==> s == NoReplyScore(replier)
    ensures scores != [] ==> s in scores
    ensures replier == White ==> forall i :: 0 <= i < |scores| ==> scores[i] <= s
    ensures replier == Black ==> forall i :: 0 <= i < |scores| ==> s <= scores[i]
  {
    if scores == [] then NoReplyScore(replier)
    else if replier == White then SeqMax(scores)
    else SeqMin(scores)
  }

  /**
   * `calculate_future_score` as a value: play `m` (a move of `whoseTurn`);
   * at depth 0 score the board; otherwise let the other side choose among
   * the scores of all its replies, searched one level shallower.
   */
  function FutureScore(g: Grid, m: Move, lookAhead: nat, whoseTurn: Color): (s: int)
    requires MoveShape(g, m, whoseTurn)
    ensures -64000 <= s <= 64000
    // the grid is listed too, so that the search is evaluated outright only on a literal board
    decreases lookAhead, 1, g
  {
    var after := Moved(g, m);
    if lookAhead == 0 then TotalScore(after)
    else
      var replier := Flipped(whoseTurn);
      Choose(replier, MoveScores(after, replier, lookAhead - 1))
  }

  /** The future score of each move `turn` can make on `g`, in generation order. */
  function MoveScores(g: Grid, turn: Color, depth: nat): (r: seq<int>)
    ensures |r| == |AllMoves(g, turn)|
    ensures forall i :: 0 <= i < |r| ==> -64000 <= r[i] <= 64000
    decreases depth, 2, g
  {
    var moves := AllMoves(g, turn);
    assert AllShaped(g, moves, turn) by { AllMovesShape(g, turn); }
    seq(|moves|, i requires 0 <= i < |moves| => FutureScore(g, moves[i], depth, turn))
  }

  /**
   * The leaves of the search: at depth 0 the score is the material before
   * the move, less whatever stood on the destination, with a pawn that
   * promotes counted as a queen.
   */
  lemma {:induction false} LeafScore(g: Grid, m: Move, whoseTurn: Color)
    requires MoveShape(g, m, whoseTurn)
    ensures FutureScore(g, m, 0, whoseTurn)
         == TotalScore(g) - CellScore(At(g, m.to))
          - Score(At(g, m.from).value) + Score(Promoted(At(g, m.from).value, m.to))
  {
    MoveScoreChange(g, m);
  }

  /**
   * `s` is what the side `replier` gets by answering on `after` with the
   * search `depth` levels deep: the sentinel when it has no reply, and
   * otherwise the score of one of its replies, no reply scoring better
   * for it (higher for White, lower for Black).
   */
  ghost predicate BestReplyScore(after: Grid, replier: Color, depth: nat, s: int)
  {
    var replies := AllMoves(after, replier);
    assert AllShaped(after, replies, replier) by { AllMovesShape(after, replier); }
    && (replies == [] ==> s == NoReplyScore(replier))
    && (replies != [] ==>
          exists i :: 0 <= i < |replies| && s == FutureScore(after, replies[i], depth, replier))
    && (forall i :: 0 <= i < |replies| ==>
          replier == White ==> FutureScore(after, replies[i], depth, replier) <= s)
    && (forall i :: 0 <= i < |replies| ==>
          replier == Black ==> s <= FutureScore(after, replies[i], depth, replier))
  }

  /** The choice among the reply scores is the best reply. */
  lemma {:induction false} ChooseIsBestReply(after: Grid, replier: Color, depth: nat, s: int)
    requires s == ReplyValue(after, replier, depth)
    ensures BestReplyScore(after, replier, depth, s)
  {
    var scores := MoveScores(after, replier, depth);
    MoveScoresAgree(after, replier, depth);
    if scores != [] {
      var i :| 0 <= i < |scores| && scores[i] == s;
    }
  }

  /**
   * Minimax: with look-ahead left, the score `s` of `m` is the best reply of
   * the other side on the board `after` that `m` leaves, searched one level
   * shallower.
   */
  lemma {:induction false} FutureScoreIsBestReply(g: Grid, m: Move, lookAhead: nat, whoseTurn: Color, after: Grid, s: int)
    requires MoveShape(g, m, whoseTurn) && lookAhead > 0
    requires after == Moved(g, m) && s == FutureScore(g, m, lookAhead, whoseTurn)
    ensures BestReplyScore(after, Flipped(whoseTurn), lookAhead - 1, s)
  {
    FutureScoreChooses(g, m, lookAhead, whoseTurn);
    ChooseIsBestReply(after, Flipped(whoseTurn), lookAhead - 1, s);
  }

  lemma {:induction false} FutureScoreLeaf(g: Grid, m: Move, whoseTurn: Color)
    requires MoveShape(g, m, whoseTurn)
    ensures FutureScore(g, m, 0, whoseTurn) == TotalScore(Moved(g, m))
  {
  }

  lemma {:induction false} FutureScoreChooses(g: Grid, m: Move, lookAhead: nat, whoseTurn: Color)
    requires MoveShape(g, m, whoseTurn) && lookAhead > 0
    ensures FutureScore(g, m, lookAhead, whoseTurn) == ReplyValue(Moved(g, m), Flipped(whoseTurn), lookAhead - 1)
  {
  }

  function ReplyValue(after: Grid, replier: Color, depth: nat): int
  {
    Choose(replier, MoveScores(after, replier, depth))
  }

  /** The `i`-th score is the future score of the `i`-th generated move. */
  lemma {:induction false} MoveScoresAgree(g: Grid, turn: Color, depth: nat)
    ensures AllShaped(g, AllMoves(g, turn), turn)
    ensures forall i :: 0 <= i < |AllMoves(g, turn)| ==>
      MoveScores(g, turn, depth)[i] == FutureScore(g, AllMoves(g, turn)[i], depth, turn)
  {
    AllMovesShape(g, turn);
  }

  /**
   * `calculate_future_score`: plays the move on a clone, so the caller's
   * board is left as it was (the method modifies nothing it did not
   * allocate), and searches the replies recursively.
   */
  method CalculateFutureScore(board: Board, mov: Move, lookAhead: nat, whoseTurn: Color) returns (s: int)
    requires board.Valid() && MoveShape(board.Value(), mov, whoseTurn)
    ensures s == FutureScore(board.Value(), mov, lookAhead, whoseTurn)
    decreases lookAhead, 1
  {
    var copy := PlayOnCopy(board, mov);
    if lookAhead == 0 {
      s := TotalScore(copy.Value());
      FutureScoreLeaf(board.Value(), mov, whoseTurn);
      return;
    }
    s := BestReply(copy, Flipped(whoseTurn), lookAhead - 1);
    FutureScoreChooses(board.Value(), mov, lookAhead, whoseTurn);
  }

  /** The first lines of `calculate_future_score`: clone the board and play the move on the clone. */
  method PlayOnCopy(board: Board, mov: Move) returns (copy: Board)
    requires board.Valid() && IsInside(mov.from) && IsInside(mov.to) && At(board.Value(), mov.from).Some?
    ensures fresh(copy) && fresh(copy.cells) && copy.Valid()
    ensures copy.Value() == Moved(board.Value(), mov)
  {
    copy := board.Clone();
    copy.DoMove(mov);
  }

  /**
   * The second half of `calculate_future_score`: score every reply of
   * `replier` on `board`, `depth` levels deep, and let it pick the one best
   * for it, falling back to the sentinel (`unwrap_or`) when it has none.
   */
  method BestReply(board: Board, replier: Color, depth: nat) returns (s: int)
    requires board.Valid()
    ensures s == ReplyValue(board.Value(), replier, depth)
    decreases depth, 3
  {
    var moves := GetAllPossibleMoves(board, replier);
    var scores := ScoreMoves(board, moves, depth, replier);
    match replier
    case White =>
      s := if scores == [] then -10000 else SeqMax(scores);
    case Black =>
      s := if scores == [] then 10000 else SeqMin(scores);
  }

  /** The `map` over the generated moves: each move's future score, in order. */
  method ScoreMoves(board: Board, moves: seq<Move>, depth: nat, turn: Color) returns (scores: seq<int>)
    requires board.Valid() && moves == AllMoves(board.Value(), turn)
    ensures scores == MoveScores(board.Value(), turn, depth)
    decreases depth, 2
  {
    ghost var future := MoveScores(board.Value(), turn, depth);
    MoveScoresAgree(board.Value(), turn, depth);
    scores := [];
    for i := 0 to |moves|
      invariant |scores| == i
      invariant forall j :: 0 <= j < i ==> scores[j] == future[j]
    {
      var score := CalculateFutureScore(board, moves[i], depth, turn);
      scores := scores + [score];
    }
  }

  // ---------------------------------------------------------------------
  // calculate_best_move
  // ---------------------------------------------------------------------

  /** The root scores: each generated move's future score signed by the mover, so that larger is better for it. */
  function RootScores(g: Grid, turn: Color, lookAhead: nat): (r: seq<int>)
    ensures |r| == |AllMoves(g, turn)|
  {
    var future := MoveScores(g, turn, lookAhead);
    seq(|future|, i requires 0 <= i < |future| => Signed(future[i], turn))
  }

  /** A score seen from the side `turn`, the score times `as_number`: larger is better for it. */
  function Signed(s: int, turn: Color): (r: int)
    ensures r == s * AsNumber(turn)
  {
    match turn
    case White => s
    case Black => -s
  }

  /**
   * `calculate_best_move`: score every generated move and return one of
   * the moves with the largest root score; there is none exactly when no
   * move was generated.  The random pick among ties is an arbitrary choice
   * of a tied index.
   */
  method CalculateBestMove(board: Board, whoseTurn: Color, maxLookAhead: nat) returns (best: Option<Move>)
    requires board.Valid()
    ensures best.None? <==> AllMoves(board.Value(), whoseTurn) == []
    ensures best.Some? ==> MoveShape(board.Value(), best.value, whoseTurn)
    ensures best.Some? ==>
      var moves := AllMoves(board.Value(), whoseTurn);
      var scores := RootScores(board.Value(), whoseTurn, maxLookAhead);
      exists i :: 0 <= i < |moves| && moves[i] == best.value
        && forall j :: 0 <= j < |moves| ==> scores[j] <= scores[i]
  {
    ghost var g := board.Value();
    var moves := GetAllPossibleMoves(board, whoseTurn);
    var scores := ScoreRootMoves(board, moves, maxLookAhead, whoseTurn);
    if scores == [] {
      return None;
    }
    var maxScore := SeqMax(scores);
    // any index whose score is the maximum
    var index :| 0 <= index < |scores| && scores[index] == maxScore;
    best := Some(moves[index]);
    AllMovesShape(g, whoseTurn);
  }

  /** The `par_iter` map of `calculate_best_move`, run in order: each move's future score times the mover's sign. */
  method ScoreRootMoves(board: Board, moves: seq<Move>, lookAhead: nat, turn: Color) returns (scores: seq<int>)
    requires board.Valid() && moves == AllMoves(board.Value(), turn)
    ensures scores == RootScores(board.Value(), turn, lookAhead)
  {
    ghost var future := MoveScores(board.Value(), turn, lookAhead);
    MoveScoresAgree(board.Value(), turn, lookAhead);
    scores := [];
    for i := 0 to |moves|
      invariant |scores| == i
      invariant forall j :: 0 <= j < i ==> scores[j] == Signed(future[j], turn)
    {
      var score := CalculateFutureScore(board, moves[i], lookAhead, turn);
      scores := scores + [Signed(score, turn)];
    }
  }
}
