/** The unit tests of src/figures.rs, restated as lemmas about `ReachableSquares`. */
module FigureTests {
  import opened Optional
  import opened Pieces
  import opened Chessboard
  import opened Figures

  /** The rook's four rays, in the order `straight_lines!` lists them (the test `rook` relies on it). */
  lemma {:induction false} RookLinesSplit(g: Grid, c: Color, p: Pos)
    ensures Lines(g, c, p, RookLines)
         == Ray(g, c, p, RookLines[0]) + (Ray(g, c, p, RookLines[1])
          + (Ray(g, c, p, RookLines[2]) + Ray(g, c, p, RookLines[3])))
  {
    var ds := RookLines;
    assert ds[0..] == ds;
    LinesUnfold(g, c, p, ds, 0);
    LinesUnfold(g, c, p, ds, 1);
    LinesUnfold(g, c, p, ds, 2);
    LinesUnfold(g, c, p, ds, 3);
    assert Lines(g, c, p, ds[4..]) == [];
  }

  /** The grid holds exactly the pieces of `pieces`, and nothing elsewhere. */
  ghost predicate Arrangement(g: Grid, pieces: map<Pos, Piece>)
  {
    forall q :: IsInside(q) ==> At(g, q) == (if q in pieces then Some(pieces[q]) else None)
  }

  /** The arrangement of tests `white_king` and `black_king`, for a king of colour `c`. */
  function KingTest(c: Color): map<Pos, Piece>
  {
    map[Pos(4, 4) := Piece(c, King), Pos(5, 4) := Piece(c, Pawn),
        Pos(3, 3) := Piece(Flipped(c), Pawn), Pos(3, 5) := Piece(Flipped(c), Pawn)]
  }

  /** The king's eight neighbours in the test arrangement. */
  lemma {:induction false} KingTestNeighbours(c: Color, g: Grid)
    requires Arrangement(g, KingTest(c))
    ensures At(g, Pos(5, 4)) == Some(Piece(c, Pawn))
    ensures At(g, Pos(3, 3)) == Some(Piece(Flipped(c), Pawn)) && At(g, Pos(3, 5)) == Some(Piece(Flipped(c), Pawn))
    ensures At(g, Pos(3, 4)) == None && At(g, Pos(4, 5)) == None && At(g, Pos(4, 3)) == None
    ensures At(g, Pos(5, 5)) == None && At(g, Pos(5, 3)) == None
  {
    assert At(g, Pos(5, 4)) == Some(Piece(c, Pawn));
    assert At(g, Pos(3, 3)) == Some(Piece(Flipped(c), Pawn));
    assert At(g, Pos(3, 5)) == Some(Piece(Flipped(c), Pawn));
    assert At(g, Pos(3, 4)) == None && At(g, Pos(4, 5)) == None && At(g, Pos(4, 3)) == None;
    assert At(g, Pos(5, 5)) == None && At(g, Pos(5, 3)) == None;
  }

  /** The diagonal half of the king's offsets in the test arrangement. */
  lemma {:induction false} SurroundedKingDiagonals(c: Color, g: Grid)
    requires At(g, Pos(3, 3)) == Some(Piece(Flipped(c), Pawn)) && At(g, Pos(3, 5)) == Some(Piece(Flipped(c), Pawn))
    requires At(g, Pos(5, 5)) == None && At(g, Pos(5, 3)) == None
    ensures Jumps(g, c, Pos(4, 4), KingOffsets[4..]) == [Pos(5, 5), Pos(5, 3), Pos(3, 5), Pos(3, 3)]
  {
    var p := Pos(4, 4);
    var offs := KingOffsets;
    assert Jumps(g, c, p, offs[8..]) == [];
    assert Jumps(g, c, p, offs[7..]) == [Pos(3, 3)] + Jumps(g, c, p, offs[8..]);
    assert Jumps(g, c, p, offs[6..]) == [Pos(3, 5)] + Jumps(g, c, p, offs[7..]);
    assert Jumps(g, c, p, offs[5..]) == [Pos(5, 3)] + Jumps(g, c, p, offs[6..]);
    assert Jumps(g, c, p, offs[4..]) == [Pos(5, 5)] + Jumps(g, c, p, offs[5..]);
  }

  /** The orthogonal half of the king's offsets in the test arrangement: the ally at (5,4) is skipped. */
  lemma {:induction false} SurroundedKingOrthogonals(c: Color, g: Grid)
    requires At(g, Pos(5, 4)) == Some(Piece(c, Pawn))
    requires At(g, Pos(3, 4)) == None && At(g, Pos(4, 5)) == None && At(g, Pos(4, 3)) == None
    ensures Jumps(g, c, Pos(4, 4), KingOffsets)
         == [Pos(3, 4), Pos(4, 5), Pos(4, 3)] + Jumps(g, c, Pos(4, 4), KingOffsets[4..])
  {
    var p := Pos(4, 4);
    var offs := KingOffsets;
    assert Jumps(g, c, p, offs[3..]) == [Pos(4, 3)] + Jumps(g, c, p, offs[4..]);
    assert Jumps(g, c, p, offs[2..]) == [Pos(4, 5)] + Jumps(g, c, p, offs[3..]);
    assert Jumps(g, c, p, offs[1..]) == [Pos(3, 4)] + Jumps(g, c, p, offs[2..]);
    assert Jumps(g, c, p, offs) == Jumps(g, c, p, offs[1..]);
  }

  /**
   * Tests `white_king` and `black_king`: a king at (4,4) with an ally at
   * (5,4) and enemies at (3,3) and (3,5) reaches the seven other
   * neighbours, in offset order, for either colour.
   */
  lemma {:induction false} SurroundedKing(c: Color, g: Grid)
    requires Arrangement(g, KingTest(c))
    ensures ReachableSquares(Piece(c, King), Pos(4, 4), g)
         == [Pos(3, 4), Pos(4, 5), Pos(4, 3), Pos(5, 5), Pos(5, 3), Pos(3, 5), Pos(3, 3)]
  {
    KingTestNeighbours(c, g);
    SurroundedKingOrthogonals(c, g);
    SurroundedKingDiagonals(c, g);
  }

  /**
   * The king's loop leaves at the first off-board offset instead of skipping
   * it: a lone king at (0,4) reaches only (1,4), although (0,5), (0,3),
   * (1,5) and (1,3) are empty neighbours.
   */
  lemma {:induction false} KingOnEdgeStopsEarly(c: Color, g: Grid)
    requires Arrangement(g, map[Pos(0, 4) := Piece(c, King)])
    ensures ReachableSquares(Piece(c, King), Pos(0, 4), g) == [Pos(1, 4)]
    ensures IsFree(g, Pos(0, 5)) && IsFree(g, Pos(1, 5))
  {
    var offs := KingOffsets;
    assert At(g, Pos(1, 4)) == None;
    assert At(g, Pos(0, 5)) == None && At(g, Pos(1, 5)) == None;
    assert Jumps(g, c, Pos(0, 4), offs[1..]) == [];
    assert Jumps(g, c, Pos(0, 4), offs) == [Pos(1, 4)] + Jumps(g, c, Pos(0, 4), offs[1..]);
  }

  /**
   * For the same reason a White knight on its starting square has no move:
   * its first offset (1,2) leads off the board at (2,9), which ends the
   * loop before (0,5) and (2,5) are looked at.
   */
  lemma {:induction false} WhiteKnightStuckAtStart()
    ensures ReachableSquares(Piece(White, Knight), Pos(1, 7), DefaultField()) == []
    ensures IsFree(DefaultField(), Pos(0, 5)) && IsFree(DefaultField(), Pos(2, 5))
  {
  }
}
