/** Rust's `Option`, used for board cells and for the search's "no move" result. */
module Optional {
  datatype Option<+T> = None | Some(value: T)
}

/**
 * The value types of src/figures.rs: the two colours with their sign, the six
 * figure kinds with their material value, and a piece as a (colour, figure) pair.
 */
module Pieces {

  /** `Color` is a fieldless enum whose discriminants are White = 1, Black = -1. */
  datatype Color = White | Black

  datatype Figure = Pawn | Bishop | Knight | Rook | Queen | King

  datatype Piece = Piece(color: Color, figure: Figure)

  /** `Color::as_number`: the colour's discriminant, its sign in scores. */
  function AsNumber(c: Color): (n: int)
    ensures n == 1 || n == -1
    ensures n == 1 <==> c == White
  {
    match c
    case White => 1
    case Black => -1
  }

  /** `Color::flipped`: the opponent's colour. */
  function Flipped(c: Color): (r: Color)
    ensures r != c
    ensures AsNumber(r) == -AsNumber(c)
  {
    match c
    case White => Black
    case Black => White
  }

  /** Flipping twice gives back the colour: `flipped` is an involution. */
  lemma FlippedInvolution(c: Color)
    ensures Flipped(Flipped(c)) == c
  {
  }

  /** The unsigned material value of each figure kind, as `Piece::score` tabulates it. */
  function BaseValue(f: Figure): (v: int)
    ensures 1 <= v <= 1000
    ensures v == 1000 <==> f == King
  {
    match f
    case Pawn => 1
    case Bishop => 3
    case Knight => 3
    case Rook => 5
    case Queen => 9
    case King => 1000
  }

  /** `Piece::score`: the material value signed by the colour (positive is good for White). */
  function Score(p: Piece): (s: int)
    ensures p.color == White ==> s == BaseValue(p.figure)
    ensures p.color == Black ==> s == -BaseValue(p.figure)
    ensures s > 0 <==> p.color == White
    ensures -1000 <= s <= 1000 && s != 0
  {
    BaseValue(p.figure) * AsNumber(p.color)
  }
}
