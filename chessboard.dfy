/**
 * The board of src/board.rs: an 8x8 grid of optional pieces indexed
 * `[x][y]`, the bounds predicate, cell access, move application with pawn
 * promotion, and the two constructors.
 *
 * `Grid` is the board as a value (what `Board` derives `Clone` and
 * `PartialEq` for); the class `Board` holds the grid as a mutable 8x8 array,
 * which is what `do_move` updates in place.
 */
module Chessboard {
  import opened Optional
  import opened Pieces

  /** `Pos = (i8, i8)`: coordinates may leave the board by a few squares before the bounds check. */
  datatype Pos = Pos(x: int, y: int)

  datatype Move = Move(from: Pos, to: Pos)

  /** `Board::is_inside`: both coordinates in 0..8. It does not look at the board. */
  predicate IsInside(p: Pos)
  {
    0 <= p.x < 8 && 0 <= p.y < 8
  }

  predicate IsGrid(g: seq<seq<Option<Piece>>>)
  {
    |g| == 8 && forall x :: 0 <= x < 8 ==> |g[x]| == 8
  }

  /** The board as a value: eight columns of eight cells, `g[x][y]`. */
  type Grid = g: seq<seq<Option<Piece>>> | IsGrid(g)
    witness seq(8, _ => seq(8, _ => None))

  /** The cell at an on-board position (`Board::get` on the value). */
  function At(g: Grid, p: Pos): Option<Piece>
    requires IsInside(p)
  {
    g[p.x][p.y]
  }

  /** The position is on the board and holds a piece of colour `c`. */
  predicate HoldsColor(g: Grid, p: Pos, c: Color)
  {
    IsInside(p) && At(g, p).Some? && At(g, p).value.color == c
  }

  /** The grid with one cell replaced. */
  function Set(g: Grid, p: Pos, v: Option<Piece>): (r: Grid)
    requires IsInside(p)
    ensures At(r, p) == v
    ensures forall q {:trigger At(r, q)} :: IsInside(q) && q != p ==> At(r, q) == At(g, q)
  {
    g[p.x := g[p.x][p.y := v]]
  }

  /** The rank on which a pawn of colour `c` is promoted: 0 for White, 7 for Black. */
  function PromotionRank(c: Color): int
  {
    match c
    case White => 0
    case Black => 7
  }

  /** The piece that lands on `to`: a pawn reaching its last rank becomes a queen. */
  function Promoted(p: Piece, to: Pos): (r: Piece)
    ensures r.color == p.color
    ensures p.figure == Pawn && to.y == PromotionRank(p.color) ==> r.figure == Queen
    ensures !(p.figure == Pawn && to.y == PromotionRank(p.color)) ==> r == p
  {
    if p.figure == Pawn then
      if p.color == White && to.y == 0 then Piece(p.color, Queen)
      else if p.color == Black && to.y == 7 then Piece(p.color, Queen)
      else p
    else p
  }

  /** What `do_move` makes of a board value: the source is lifted, the destination overwritten. */
  function Moved(g: Grid, m: Move): (r: Grid)
    requires IsInside(m.from) && IsInside(m.to) && At(g, m.from).Some?
    ensures At(r, m.to) == Some(Promoted(At(g, m.from).value, m.to))
    ensures m.from != m.to ==> At(r, m.from) == None
    ensures forall q {:trigger At(r, q)} :: IsInside(q) && q != m.from && q != m.to ==> At(r, q) == At(g, q)
  {
    var piece := At(g, m.from).value;
    Set(Set(g, m.from, None), m.to, Some(Promoted(piece, m.to)))
  }

  /** `Board::empty`: every cell empty. */
  function EmptyGrid(): (g: Grid)
    ensures forall p {:trigger At(g, p)} :: IsInside(p) ==> At(g, p) == None
  {
    seq(8, _ => seq(8, _ => None))
  }

  const BR: Option<Piece> := Some(Piece(Black, Rook))
  const BN: Option<Piece> := Some(Piece(Black, Knight))
  const BB: Option<Piece> := Some(Piece(Black, Bishop))
  const BQ: Option<Piece> := Some(Piece(Black, Queen))
  const BK: Option<Piece> := Some(Piece(Black, King))
  const BP: Option<Piece> := Some(Piece(Black, Pawn))
  const WR: Option<Piece> := Some(Piece(White, Rook))
  const WN: Option<Piece> := Some(Piece(White, Knight))
  const WB: Option<Piece> := Some(Piece(White, Bishop))
  const WQ: Option<Piece> := Some(Piece(White, Queen))
  const WK: Option<Piece> := Some(Piece(White, King))
  const WP: Option<Piece> := Some(Piece(White, Pawn))

  /** `DEFAULT_FIELD`, written out column by column (x = 0..7) as the source has it. */
  function DefaultField(): Grid
  {
    [ [BR, BP, None, None, None, None, WP, WR],
      [BN, BP, None, None, None, None, WP, WN],
      [BB, BP, None, None, None, None, WP, WB],
      [BQ, BP, None, None, None, None, WP, WQ],
      [BK, BP, None, None, None, None, WP, WK],
      [BB, BP, None, None, None, None, WP, WB],
      [BN, BP, None, None, None, None, WP, WN],
      [BR, BP, None, None, None, None, WP, WR] ]
  }

  /** The back rank in file order x = 0..7: R N B Q K B N R. */
  function BackRank(x: int): Figure
    requires 0 <= x < 8
  {
    [Rook, Knight, Bishop, Queen, King, Bishop, Knight, Rook][x]
  }

  /**
   * The starting arrangement: Black's back rank on y = 0 and pawns on y = 1,
   * White's pawns on y = 6 and back rank on y = 7, nothing in between.
   */
  lemma DefaultFieldLayout(p: Pos)
    requires IsInside(p)
    ensures p.y == 0 ==> At(DefaultField(), p) == Some(Piece(Black, BackRank(p.x)))
    ensures p.y == 1 ==> At(DefaultField(), p) == Some(Piece(Black, Pawn))
    ensures 2 <= p.y <= 5 ==> At(DefaultField(), p) == None
    ensures p.y == 6 ==> At(DefaultField(), p) == Some(Piece(White, Pawn))
    ensures p.y == 7 ==> At(DefaultField(), p) == Some(Piece(White, BackRank(p.x)))
  {
  }

  /** `Board`: the 8x8 array of cells that `do_move` updates in place. */
  class Board {
    const cells: array2<Option<Piece>>

    ghost predicate Valid()
    {
      cells.Length0 == 8 && cells.Length1 == 8
    }

    /** The current contents of the board as a value. */
    function Value(): Grid
      reads cells
      requires Valid()
    {
      seq(8, x requires 0 <= x < 8 reads cells =>
        seq(8, y requires 0 <= y < 8 reads cells => cells[x, y]))
    }

    /** A board holding the given grid in a fresh array. */
    constructor FromGrid(g: Grid)
      ensures Valid() && fresh(cells) && Value() == g
    {
      cells := new Option<Piece>[8, 8]((x, y) requires 0 <= x < 8 && 0 <= y < 8 => g[x][y]);
      new;
      assert forall x | 0 <= x < 8 :: Value()[x] == g[x];
    }

    /** `Board::empty`. */
    constructor Empty()
      ensures Valid() && fresh(cells) && Value() == EmptyGrid()
    {
      cells := new Option<Piece>[8, 8]((x, y) => None);
      new;
      assert forall x | 0 <= x < 8 :: Value()[x] == EmptyGrid()[x];
    }

    /** `Board::new`: the starting arrangement `DEFAULT_FIELD`. */
    constructor New()
      ensures Valid() && fresh(cells) && Value() == DefaultField()
    {
      var g := DefaultField();
      cells := new Option<Piece>[8, 8]((x, y) requires 0 <= x < 8 && 0 <= y < 8 => g[x][y]);
      new;
      assert forall x | 0 <= x < 8 :: Value()[x] == g[x];
    }

    /** The derived `Clone`: an independent board with the same cells. */
    method Clone() returns (copy: Board)
      requires Valid()
      ensures fresh(copy) && fresh(copy.cells) && copy.Valid()
      ensures copy.Value() == Value()
    {
      copy := new Board.FromGrid(Value());
    }

    /** `Board::get`; the `as usize` indexing panics off the board, so the position must be inside. */
    function Get(p: Pos): (c: Option<Piece>)
      reads cells
      requires Valid() && IsInside(p)
      ensures c == At(Value(), p)
    {
      cells[p.x, p.y]
    }

    /**
     * `Board::do_move`: lifts the piece from `m.from` (which must hold one),
     * promotes a pawn reaching its last rank, and writes it to `m.to`.
     */
    method DoMove(m: Move)
      requires Valid() && IsInside(m.from) && IsInside(m.to) && At(Value(), m.from).Some?
      modifies cells
      ensures Valid()
      ensures Value() == Moved(old(Value()), m)
    {
      ghost var before := Value();
      var figure := cells[m.from.x, m.from.y].value;
      cells[m.from.x, m.from.y] := None;
      var color := figure.color;
      if figure.figure == Pawn {
        if color == White && m.to.y == 0 {
          figure := Piece(color, Queen);
        } else if color == Black && m.to.y == 7 {
          figure := Piece(color, Queen);
        }
      }
      cells[m.to.x, m.to.y] := Some(figure);
      ghost var after := Moved(before, m);
      forall x | 0 <= x < 8
        ensures Value()[x] == after[x]
      {
        forall y | 0 <= y < 8
          ensures Value()[x][y] == after[x][y]
        {
          assert At(after, Pos(x, y)) == after[x][y];
        }
      }
    }
  }
}
