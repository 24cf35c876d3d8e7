/**
 * `Piece::reachables` of src/figures.rs: the pseudo-legal destination squares
 * of one piece, in the exact order the source hands them to its callback.
 *
 * The callback `insert_into` is modelled by the sequence of positions it is
 * called with; `reachables_collect` returns exactly that sequence.
 */
module Figures {
  import opened Optional
  import opened Pieces
  import opened Chessboard

  /** One `(dx, dy)` entry of a ray list or an offset list. */
  datatype Delta = Delta(dx: int, dy: int)

  function Shift(p: Pos, d: Delta): Pos
  {
    Pos(p.x + d.dx, p.y + d.dy)
  }

  /** The rays of `straight_lines!` for the rook, bishop and queen, in the listed order. */
  const RookLines: seq<Delta> := [Delta(1, 0), Delta(-1, 0), Delta(0, 1), Delta(0, -1)]
  const BishopLines: seq<Delta> := [Delta(1, 1), Delta(1, -1), Delta(-1, 1), Delta(-1, -1)]
  const QueenLines: seq<Delta> :=
    [Delta(1, 0), Delta(-1, 0), Delta(0, 1), Delta(0, -1),
     Delta(1, 1), Delta(1, -1), Delta(-1, 1), Delta(-1, -1)]

  const KingOffsets: seq<Delta> :=
    [Delta(1, 0), Delta(-1, 0), Delta(0, 1), Delta(0, -1),
     Delta(1, 1), Delta(1, -1), Delta(-1, 1), Delta(-1, -1)]
  const KnightOffsets: seq<Delta> :=
    [Delta(1, 2), Delta(-1, 2), Delta(1, -2), Delta(-1, -2),
     Delta(2, 1), Delta(-2, 1), Delta(2, -1), Delta(-2, -1)]

  /** A ray direction: one step in each coordinate at most, and not standing still. */
  predicate IsUnit(d: Delta)
  {
    -1 <= d.dx <= 1 && -1 <= d.dy <= 1 && d != Delta(0, 0)
  }

  predicate AllUnits(ds: seq<Delta>)
  {
    forall i :: 0 <= i < |ds| ==> IsUnit(ds[i])
  }

  function Clamp(n: int): nat
  {
    if n < 0 then 0 else n
  }

  /** Steps left before a ray along `d` from `p` leaves the board. */
  function RayMeasure(p: Pos, d: Delta): nat
  {
    if d.dx > 0 then Clamp(8 - p.x)
    else if d.dx < 0 then Clamp(p.x + 1)
    else if d.dy > 0 then Clamp(8 - p.y)
    else Clamp(p.y + 1)
  }

  /**
   * One loop of `straight_lines!`: step along `d` from `p`; stop at the edge,
   * stop before a piece of colour `c`, emit an enemy square and stop, and
   * otherwise emit the empty square and go on.
   */
  function Ray(g: Grid, c: Color, p: Pos, d: Delta): (r: seq<Pos>)
    requires IsUnit(d)
    // the grid is listed too, so that a ray is evaluated outright only on a literal board
    decreases RayMeasure(p, d), g
  {
    var q := Shift(p, d);
    if !IsInside(q) then []
    else
      match At(g, q)
      case Some(piece) => if piece.color == c then [] else [q]
      case None => [q] + Ray(g, c, q, d)
  }

  /** All rays of a `straight_lines!` invocation, one after the other. */
  function Lines(g: Grid, c: Color, p: Pos, ds: seq<Delta>): (r: seq<Pos>)
    requires AllUnits(ds)
  {
    if ds == [] then [] else Ray(g, c, p, ds[0]) + Lines(g, c, p, ds[1..])
  }

  /**
   * The king and knight `for` loops: targets in offset order, allies skipped,
   * and the whole loop left (`break`) at the first target off the board.
   */
  function Jumps(g: Grid, c: Color, p: Pos, offs: seq<Delta>): (r: seq<Pos>)
  {
    if offs == [] then []
    else
      var t := Shift(p, offs[0]);
      if !IsInside(t) then []
      else if HoldsColor(g, t, c) then Jumps(g, c, p, offs[1..])
      else [t] + Jumps(g, c, p, offs[1..])
  }

  /** The direction a pawn moves in: White toward y - 1, Black toward y + 1. */
  function Forward(c: Color): int
  {
    match c
    case White => -1
    case Black => 1
  }

  /** The rank from which a pawn may move two squares: 6 for White, 1 for Black. */
  function HomeRank(c: Color): int
  {
    match c
    case White => 6
    case Black => 1
  }

  /** The empty-field test `board.get(target)` matched against `None`, after the bounds check. */
  predicate IsFree(g: Grid, t: Pos)
  {
    IsInside(t) && At(g, t).None?
  }

  /** A diagonal "hit": emitted only onto a piece of the other colour. */
  function Hit(g: Grid, c: Color, t: Pos): (r: seq<Pos>)
    ensures r == [] || (r == [t] && HoldsColor(g, t, Flipped(c)))
  {
    if IsInside(t) && At(g, t).Some? && At(g, t).value.color != c then [t] else []
  }

  /** The pawn's forward moves: one step onto an empty square, then two from the home rank. */
  function PawnForwards(g: Grid, c: Color, p: Pos): (r: seq<Pos>)
  {
    var one := Pos(p.x, p.y + Forward(c));
    var two := Pos(p.x, p.y + 2 * Forward(c));
    if IsFree(g, one) then
      [one] + (if p.y == HomeRank(c) && IsFree(g, two) then [two] else [])
    else []
  }

  /** The pawn rules: forward moves, then the left hit, then the right hit. */
  function PawnSquares(g: Grid, c: Color, p: Pos): (r: seq<Pos>)
  {
    PawnForwards(g, c, p) + Hit(g, c, Pos(p.x - 1, p.y + Forward(c))) + Hit(g, c, Pos(p.x + 1, p.y + Forward(c)))
  }

  /** `Piece::reachables` as a value: every destination it emits, in order. */
  function ReachableSquares(piece: Piece, p: Pos, g: Grid): (r: seq<Pos>)
  {
    match piece.figure
    case Rook => Lines(g, piece.color, p, RookLines)
    case Bishop => Lines(g, piece.color, p, BishopLines)
    case Queen => Lines(g, piece.color, p, QueenLines)
    case King => Jumps(g, piece.color, p, KingOffsets)
    case Knight => Jumps(g, piece.color, p, KnightOffsets)
    case Pawn => PawnSquares(g, piece.color, p)
  }

  /** Every square of a ray is on the board and free of the mover's pieces. */
  predicate Landable(g: Grid, c: Color, r: seq<Pos>)
  {
    forall i :: 0 <= i < |r| ==> IsInside(r[i]) && !HoldsColor(g, r[i], c)
  }

  lemma {:induction false} RaySound(g: Grid, c: Color, p: Pos, d: Delta)
    requires IsUnit(d)
    ensures Landable(g, c, Ray(g, c, p, d))
    decreases RayMeasure(p, d)
  {
    var q := Shift(p, d);
    if IsInside(q) && At(g, q).None? {
      RaySound(g, c, q, d);
    }
  }

  lemma {:induction false} LinesSound(g: Grid, c: Color, p: Pos, ds: seq<Delta>)
    requires AllUnits(ds)
    ensures Landable(g, c, Lines(g, c, p, ds))
  {
    if ds != [] {
      RaySound(g, c, p, ds[0]);
      LinesSound(g, c, p, ds[1..]);
    }
  }

  lemma {:induction false} JumpsSound(g: Grid, c: Color, p: Pos, offs: seq<Delta>)
    ensures Landable(g, c, Jumps(g, c, p, offs))
  {
    if offs != [] {
      JumpsSound(g, c, p, offs[1..]);
    }
  }

  /** Offsets `0..i` all lead onto the board, so the loop has not left before offset `i`. */
  predicate OnBoardThrough(p: Pos, offs: seq<Delta>, i: int)
    requires i < |offs|
  {
    forall j :: 0 <= j <= i ==> IsInside(Shift(p, offs[j]))
  }

  /**
   * A square is a king or knight target exactly when it is the target of
   * some offset, every offset up to that one stays on the board (the
   * `break`), and it holds no piece of the mover's colour.
   */
  lemma {:induction false} JumpsMembers(g: Grid, c: Color, p: Pos, offs: seq<Delta>, t: Pos)
    ensures t in Jumps(g, c, p, offs) <==>
      exists i :: 0 <= i < |offs| && t == Shift(p, offs[i]) && OnBoardThrough(p, offs, i) && !HoldsColor(g, t, c)
  {
    if offs != [] {
      JumpsMembers(g, c, p, offs[1..], t);
      var t0 := Shift(p, offs[0]);
      if IsInside(t0) {
        if t in Jumps(g, c, p, offs) && t != t0 {
          var i :| 0 <= i < |offs| - 1 && t == Shift(p, offs[1..][i])
                   && OnBoardThrough(p, offs[1..], i) && !HoldsColor(g, t, c);
          assert OnBoardThrough(p, offs, i + 1);
        }
        if t in Jumps(g, c, p, offs) && t == t0 && HoldsColor(g, t0, c) {
          assert false;
        }
        if t in Jumps(g, c, p, offs) && t == t0 && !HoldsColor(g, t0, c) {
          assert OnBoardThrough(p, offs, 0);
        }
        if exists i :: 0 <= i < |offs| && t == Shift(p, offs[i]) && OnBoardThrough(p, offs, i) && !HoldsColor(g, t, c) {
          var i :| 0 <= i < |offs| && t == Shift(p, offs[i]) && OnBoardThrough(p, offs, i) && !HoldsColor(g, t, c);
          if i > 0 {
            assert OnBoardThrough(p, offs[1..], i - 1);
            assert t in Jumps(g, c, p, offs[1..]);
          }
        }
      } else {
        assert !OnBoardThrough(p, offs, 0);
        forall i | 0 <= i < |offs|
          ensures !OnBoardThrough(p, offs, i)
        {
          assert !IsInside(Shift(p, offs[0]));
        }
      }
    }
  }

  /**
   * The pawn's destinations, both ways: one step ahead onto a free square;
   * two steps from the home rank when both squares are free; a diagonal
   * step onto a piece of the other colour.
   */
  lemma {:induction false} PawnMembers(g: Grid, c: Color, p: Pos, t: Pos)
    ensures var one := Pos(p.x, p.y + Forward(c));
      var two := Pos(p.x, p.y + 2 * Forward(c));
      var left := Pos(p.x - 1, p.y + Forward(c));
      var right := Pos(p.x + 1, p.y + Forward(c));
      t in PawnSquares(g, c, p) <==>
        || (t == one && IsFree(g, one))
        || (t == two && p.y == HomeRank(c) && IsFree(g, one) && IsFree(g, two))
        || ((t == left || t == right) && HoldsColor(g, t, Flipped(c)))
  {
  }

  /**
   * Every destination `reachables` emits is on the board (the bounds check
   * precedes every `get` and every emission) and none holds a piece of the
   * mover's own colour.
   */
  lemma {:induction false} ReachablesSound(piece: Piece, p: Pos, g: Grid)
    ensures Landable(g, piece.color, ReachableSquares(piece, p, g))
  {
    match piece.figure
    case Rook => LinesSound(g, piece.color, p, RookLines);
    case Bishop => LinesSound(g, piece.color, p, BishopLines);
    case Queen => LinesSound(g, piece.color, p, QueenLines);
    case King => JumpsSound(g, piece.color, p, KingOffsets);
    case Knight => JumpsSound(g, piece.color, p, KnightOffsets);
    case Pawn =>
  }

  // ---------------------------------------------------------------------
  // The generator as the source runs it: loops that emit one square at a time.
  // ---------------------------------------------------------------------

  /** One loop of `straight_lines!`: update `x, y` one step at a time until a `break`. */
  method WalkRay(board: Board, c: Color, p: Pos, d: Delta) returns (emitted: seq<Pos>)
    requires board.Valid() && IsUnit(d)
    ensures emitted == Ray(board.Value(), c, p, d)
  {
    ghost var g := board.Value();
    emitted := [];
    var x, y := p.x, p.y;
    while true
      invariant emitted + Ray(g, c, Pos(x, y), d) == Ray(g, c, p, d)
      decreases RayMeasure(Pos(x, y), d)
    {
      ghost var here := Pos(x, y);
      x := x + d.dx;
      y := y + d.dy;
      assert Pos(x, y) == Shift(here, d);
      if !IsInside(Pos(x, y)) {
        assert Ray(g, c, here, d) == [];
        break;
      }
      var cell := board.Get(Pos(x, y));
      match cell {
        case Some(piece) =>
          if piece.color == c {
            // Stop at allies
            assert Ray(g, c, here, d) == [];
            break;
          } else {
            // Stop at enemy, but hit them
            assert Ray(g, c, here, d) == [Pos(x, y)];
            emitted := emitted + [Pos(x, y)];
            break;
          }
        case None =>
      }
      assert Ray(g, c, here, d) == [Pos(x, y)] + Ray(g, c, Pos(x, y), d);
      assert (emitted + [Pos(x, y)]) + Ray(g, c, Pos(x, y), d) == emitted + Ray(g, c, here, d);
      emitted := emitted + [Pos(x, y)];
    }
  }

  lemma {:induction false} LinesUnfold(g: Grid, c: Color, p: Pos, ds: seq<Delta>, k: nat)
    requires AllUnits(ds) && k < |ds|
    ensures Lines(g, c, p, ds[k..]) == Ray(g, c, p, ds[k]) + Lines(g, c, p, ds[k + 1..])
  {
    assert ds[k..][1..] == ds[k + 1..];
  }

  /** A `straight_lines!` invocation: its rays walked one after the other. */
  method StraightLines(board: Board, c: Color, p: Pos, ds: seq<Delta>) returns (emitted: seq<Pos>)
    requires board.Valid() && AllUnits(ds)
    ensures emitted == Lines(board.Value(), c, p, ds)
  {
    ghost var g := board.Value();
    emitted := [];
    for k := 0 to |ds|
      invariant emitted + Lines(g, c, p, ds[k..]) == Lines(g, c, p, ds)
    {
      LinesUnfold(g, c, p, ds, k);
      var ray := WalkRay(board, c, p, ds[k]);
      Extend(emitted, ray, Lines(g, c, p, ds[k + 1..]), Lines(g, c, p, ds[k..]), Lines(g, c, p, ds));
      emitted := emitted + ray;
    }
  }

  /** Appending the next piece `a` of `whole` to what was emitted keeps `emitted + rest` equal to `total`. */
  lemma {:induction false} Extend(emitted: seq<Pos>, a: seq<Pos>, rest: seq<Pos>, whole: seq<Pos>, total: seq<Pos>)
    requires emitted + whole == total && whole == a + rest
    ensures (emitted + a) + rest == total
  {
  }

  /** `Jumps` from the `k`-th offset on, by the case the `k`-th target falls in. */
  lemma {:induction false} JumpsAt(g: Grid, c: Color, p: Pos, offs: seq<Delta>, k: nat)
    requires k < |offs|
    ensures var t := Shift(p, offs[k]);
      Jumps(g, c, p, offs[k..])
      == if !IsInside(t) then []
         else if HoldsColor(g, t, c) then Jumps(g, c, p, offs[k + 1..])
         else [t] + Jumps(g, c, p, offs[k + 1..])
  {
    assert offs[k..][0] == offs[k] && offs[k..][1..] == offs[k + 1..];
  }

  /** The king and knight loops over their offset arrays, with `break` at the first off-board target. */
  method OffsetTargets(board: Board, c: Color, p: Pos, offs: seq<Delta>) returns (emitted: seq<Pos>)
    requires board.Valid()
    ensures emitted == Jumps(board.Value(), c, p, offs)
  {
    ghost var g := board.Value();
    emitted := [];
    for k := 0 to |offs|
      invariant emitted + Jumps(g, c, p, offs[k..]) == Jumps(g, c, p, offs)
    {
      JumpsAt(g, c, p, offs, k);
      var target := Pos(offs[k].dx + p.x, offs[k].dy + p.y);
      if !IsInside(target) {
        assert emitted + [] == emitted;
        break;
      }
      var cell := board.Get(target);
      match cell {
        case Some(piece) =>
          if piece.color != c {
            Extend(emitted, [target], Jumps(g, c, p, offs[k + 1..]), Jumps(g, c, p, offs[k..]), Jumps(g, c, p, offs));
            emitted := emitted + [target];
          }
        case None =>
          Extend(emitted, [target], Jumps(g, c, p, offs[k + 1..]), Jumps(g, c, p, offs[k..]), Jumps(g, c, p, offs));
          emitted := emitted + [target];
      }
    }
  }

  /** The forward part of the pawn branch: one step, then two from the home rank. */
  method PawnAdvances(board: Board, c: Color, p: Pos, dy: int, home: int) returns (emitted: seq<Pos>)
    requires board.Valid() && dy == Forward(c) && home == HomeRank(c)
    ensures emitted == PawnForwards(board.Value(), c, p)
  {
    emitted := [];
    // Forwards
    var target := Pos(p.x + 0, p.y + dy);
    if IsInside(target) {
      if board.Get(target) == None {
        emitted := emitted + [target];
        // Forwards double
        if p.y == home {
          var target2 := Pos(p.x + 0, p.y + 2 * dy);
          if IsInside(target2) && board.Get(target2) == None {
            emitted := emitted + [target2];
          }
        }
      }
    }
  }

  /** One diagonal of the pawn branch: emitted only onto a piece of the other colour. */
  method PawnHit(board: Board, c: Color, t: Pos) returns (emitted: seq<Pos>)
    requires board.Valid()
    ensures emitted == Hit(board.Value(), c, t)
  {
    emitted := [];
    if IsInside(t) {
      match board.Get(t) {
        case Some(piece) =>
          if piece.color != c {
            emitted := [t];
          }
        case None =>
      }
    }
  }

  /** The pawn branch, for either colour. */
  method PawnTargets(board: Board, c: Color, p: Pos) returns (emitted: seq<Pos>)
    requires board.Valid()
    ensures emitted == PawnSquares(board.Value(), c, p)
  {
    var dy := if c == White then -1 else 1;
    var home := if c == White then 6 else 1;
    emitted := PawnAdvances(board, c, p, dy, home);
    // Left hit
    var left := PawnHit(board, c, Pos(p.x - 1, p.y + dy));
    emitted := emitted + left;
    // Right hit
    var right := PawnHit(board, c, Pos(p.x + 1, p.y + dy));
    emitted := emitted + right;
  }

  /** `Piece::reachables` (and `reachables_collect`): the emitted destinations in order. */
  method Reachables(piece: Piece, p: Pos, board: Board) returns (emitted: seq<Pos>)
    requires board.Valid()
    ensures emitted == ReachableSquares(piece, p, board.Value())
  {
    match piece.figure {
      case Rook => emitted := StraightLines(board, piece.color, p, RookLines);
      case Bishop => emitted := StraightLines(board, piece.color, p, BishopLines);
      case Queen => emitted := StraightLines(board, piece.color, p, QueenLines);
      case King => emitted := OffsetTargets(board, piece.color, p, KingOffsets);
      case Knight => emitted := OffsetTargets(board, piece.color, p, KnightOffsets);
      case Pawn => emitted := PawnTargets(board, piece.color, p);
    }
  }

  // ---------------------------------------------------------------------
  // What a ray emits.
  // ---------------------------------------------------------------------

  /** The square `k` steps along `d` from `p`. */
  function Steps(p: Pos, d: Delta, k: nat): Pos
  {
    if k == 0 then p else Shift(Steps(p, d, k - 1), d)
  }

  /** The first `n` squares along `d` from `p`, nearest first. */
  function Run(p: Pos, d: Delta, n: nat): (r: seq<Pos>)
    ensures |r| == n && forall i :: 0 <= i < n ==> r[i] == Steps(p, d, i + 1)
  {
    seq(n, i requires 0 <= i < n => Steps(p, d, i + 1))
  }

  lemma {:induction false} StepsShift(p: Pos, d: Delta, k: nat)
    ensures Steps(Shift(p, d), d, k) == Steps(p, d, k + 1)
  {
    if k > 0 {
      StepsShift(p, d, k - 1);
    }
  }

  lemma {:induction false} RunCons(p: Pos, d: Delta, n: nat)
    requires n > 0
    ensures Run(p, d, n) == [Shift(p, d)] + Run(Shift(p, d), d, n - 1)
  {
    StepsShift(p, d, 0);
    forall i | 0 < i < n
      ensures Run(p, d, n)[i] == Run(Shift(p, d), d, n - 1)[i - 1]
    {
      StepsShift(p, d, i - 1);
    }
  }

  lemma {:induction false} FreeAfterShift(g: Grid, p: Pos, d: Delta, n: nat)
    requires forall k :: 1 <= k <= n ==> IsFree(g, Steps(p, d, k))
    ensures forall k :: 1 <= k <= n - 1 ==> IsFree(g, Steps(Shift(p, d), d, k))
  {
    forall k | 1 <= k <= n - 1
      ensures IsFree(g, Steps(Shift(p, d), d, k))
    {
      StepsShift(p, d, k);
    }
  }

  /** Over `n` free squares a ray emits exactly those squares and carries on from the last. */
  lemma {:induction false} RayRun(g: Grid, c: Color, p: Pos, d: Delta, n: nat)
    requires IsUnit(d)
    requires forall k :: 1 <= k <= n ==> IsFree(g, Steps(p, d, k))
    ensures Ray(g, c, p, d) == Run(p, d, n) + Ray(g, c, Steps(p, d, n), d)
    decreases n
  {
    if n == 0 {
      assert Steps(p, d, 0) == p;
    } else {
      var q := Shift(p, d);
      StepsShift(p, d, 0);
      assert IsFree(g, Steps(p, d, 1));
      assert Ray(g, c, p, d) == [q] + Ray(g, c, q, d);
      FreeAfterShift(g, p, d, n);
      RayRun(g, c, q, d, n - 1);
      StepsShift(p, d, n - 1);
      RunCons(p, d, n);
      ConsAssoc(q, Run(q, d, n - 1), Ray(g, c, Steps(p, d, n), d));
    }
  }

  lemma {:induction false} ConsAssoc(q: Pos, a: seq<Pos>, b: seq<Pos>)
    ensures [q] + (a + b) == ([q] + a) + b
  {
  }

  /**
   * The converse of `RayShape`: after `n` free squares, a ray ends at the
   * first square that is not free, taking it only when it holds an enemy.
   */
  lemma {:induction false} RayStops(g: Grid, c: Color, p: Pos, d: Delta, n: nat)
    requires IsUnit(d)
    requires forall k :: 1 <= k <= n ==> IsFree(g, Steps(p, d, k))
    requires !IsFree(g, Steps(p, d, n + 1))
    ensures Ray(g, c, p, d)
         == Run(p, d, n) + (if HoldsColor(g, Steps(p, d, n + 1), Flipped(c)) then [Steps(p, d, n + 1)] else [])
  {
    RayRun(g, c, p, d, n);
    var last := Steps(p, d, n);
    var next := Steps(p, d, n + 1);
    if HoldsColor(g, next, Flipped(c)) {
      assert Ray(g, c, last, d) == [next];
    } else {
      assert Ray(g, c, last, d) == [];
      assert Run(p, d, n) + [] == Run(p, d, n);
    }
  }

  /** A ray's squares are consecutive steps from `p`, on the board, and all but the last are empty. */
  lemma {:induction false} RayPath(g: Grid, c: Color, p: Pos, d: Delta)
    requires IsUnit(d)
    ensures PathOf(g, p, d, Ray(g, c, p, d))
    decreases RayMeasure(p, d)
  {
    var q := Shift(p, d);
    StepsShift(p, d, 0);
    if IsInside(q) && At(g, q).None? {
      var r := Ray(g, c, p, d);
      var r' := Ray(g, c, q, d);
      assert r == [q] + r';
      RayPath(g, c, q, d);
      forall i | 0 <= i < |r|
        ensures r[i] == Steps(p, d, i + 1) && IsInside(r[i]) && (i < |r| - 1 ==> IsFree(g, r[i]))
      {
        if i > 0 {
          assert r[i] == r'[i - 1];
          StepsShift(p, d, i);
        }
      }
    }
  }

  /** `r` runs in consecutive steps `d` from `p`, on the board, over empty squares except perhaps the last. */
  ghost predicate PathOf(g: Grid, p: Pos, d: Delta, r: seq<Pos>)
  {
    forall i :: 0 <= i < |r| ==>
      r[i] == Steps(p, d, i + 1) && IsInside(r[i]) && (i < |r| - 1 ==> IsFree(g, r[i]))
  }

  /**
   * How a ray ends: a last square that is not empty holds an enemy; after
   * an empty last square (or no square at all) the next step is off the
   * board or an ally.
   */
  lemma {:induction false} RayEnd(g: Grid, c: Color, p: Pos, d: Delta)
    requires IsUnit(d)
    ensures EndOf(g, c, p, d, Ray(g, c, p, d))
    decreases RayMeasure(p, d)
  {
    var q := Shift(p, d);
    StepsShift(p, d, 0);
    if IsInside(q) && At(g, q).None? {
      assert Ray(g, c, p, d) == [q] + Ray(g, c, q, d);
      RayEnd(g, c, q, d);
      EndOfCons(g, c, p, d, Ray(g, c, q, d));
    } else if IsInside(q) && At(g, q).value.color != c {
      assert Ray(g, c, p, d) == [q];
    } else {
      assert Ray(g, c, p, d) == [];
    }
  }

  /** Prefixing the free first step keeps a proper ending. */
  lemma {:induction false} EndOfCons(g: Grid, c: Color, p: Pos, d: Delta, r': seq<Pos>)
    requires IsInside(Shift(p, d)) && At(g, Shift(p, d)).None?
    requires EndOf(g, c, Shift(p, d), d, r')
    ensures EndOf(g, c, p, d, [Shift(p, d)] + r')
  {
    var r := [Shift(p, d)] + r';
    StepsShift(p, d, 0);
    StepsShift(p, d, |r'| + 1);
    if r' != [] {
      assert r[|r| - 1] == r'[|r'| - 1];
    }
  }

  /**
   * `r`, a ray of colour `c` from `p` along `d`, ends properly: a last square
   * that is not empty holds an enemy, and after an empty last square (or
   * none) the next step is off the board or an ally.
   */
  ghost predicate EndOf(g: Grid, c: Color, p: Pos, d: Delta, r: seq<Pos>)
  {
    && (|r| > 0 && !IsFree(g, r[|r| - 1]) ==> HoldsColor(g, r[|r| - 1], Flipped(c)))
    && (|r| == 0 || IsFree(g, r[|r| - 1]) ==>
          !IsInside(Steps(p, d, |r| + 1)) || HoldsColor(g, Steps(p, d, |r| + 1), c))
  }

  /**
   * The shape of every ray: its squares are consecutive steps from `p`; all
   * but the last are empty; the last is empty or an enemy; and when it is
   * empty (or the ray is empty) the next step is off the board or an ally.
   */
  lemma {:induction false} RayShape(g: Grid, c: Color, p: Pos, d: Delta)
    requires IsUnit(d)
    ensures var r := Ray(g, c, p, d);
      && (forall i :: 0 <= i < |r| ==> r[i] == Steps(p, d, i + 1) && IsInside(r[i]))
      && (forall i :: 0 <= i < |r| - 1 ==> IsFree(g, r[i]))
      && (|r| > 0 && !IsFree(g, r[|r| - 1]) ==> HoldsColor(g, r[|r| - 1], Flipped(c)))
      && (|r| == 0 || IsFree(g, r[|r| - 1]) ==>
            !IsInside(Steps(p, d, |r| + 1)) || HoldsColor(g, Steps(p, d, |r| + 1), c))
  {
    RayPath(g, c, p, d);
    RayEnd(g, c, p, d);
  }

  // ---------------------------------------------------------------------
}
