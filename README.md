# chess-ai engine core in Dafny

This project models the core of a small chess engine written in Rust. It has
three parts:

- the board (`src/board.rs`): an 8x8 array of optional pieces indexed
  `[x][y]`, with a bounds check, cell access, and a move that promotes a pawn
  reaching its last rank;
- the pieces (`src/figures.rs`): colours with their sign, material values, and
  `Piece::reachables`, which hands every pseudo-legal destination of a piece
  to a callback;
- the search (`src/ai.rs`): the material score of a board, generation of all
  moves of one side, a fixed-depth minimax over cloned boards, and the choice
  of a best root move.

The Dafny modules follow that structure:

- `Optional` holds Rust's `Option`.
- `Pieces` holds `Color`, `Figure`, `Piece`, `as_number`, `flipped` and
  `score`.
- `Chessboard` holds `Pos`, `Move`, the grid value `Grid` and the class
  `Board`.
- `Figures` holds `reachables`.
- `Ai` holds the search.
- `FigureTests` restates the piece unit tests of `src/figures.rs` as lemmas.

Every operation that runs on the mutable `Board` is a method. Each method is
proved to compute a specification function over `Grid` values:

- the ray, offset and pawn loops are proved against `ReachableSquares`;
- the nested scan is proved against `AllMoves`;
- the recursive search is proved against `FutureScore`.

The properties are then stated as lemmas about those functions:

- soundness and completeness of move generation;
- the shape of a ray;
- the effect of a move on the material score;
- minimax optimality of each search level;
- the balance of the starting position.

The callback `insert_into` of `reachables` is modelled by the sequence of
positions it receives, in order. `reachables_collect` returns exactly that
sequence.

## Model

| member | source | states |
|---|---|---|
| Pieces.AsNumber | src/figures.rs:12-20 | the discriminant is +1 for White and -1 for Black, and nothing else |
| Pieces.Flipped | src/figures.rs:22-27 | the result is the other colour, and its sign is the negation of the input's sign |
| Pieces.FlippedInvolution | src/figures.rs:22-27 | flipping twice gives back the colour |
| Pieces.BaseValue | src/figures.rs:268-275 | every figure is worth 1 to 1000, and only the king is worth 1000 |
| Pieces.Score | src/figures.rs:266-277 | a White piece scores its value and a Black piece its negated value; the sign tells the colour; the score is never 0 and lies within ±1000 |
| Chessboard.Promoted | src/board.rs:39-53 | the colour is kept; a pawn arriving on rank 0 (White) or rank 7 (Black) becomes a queen; every other piece is unchanged |
| Chessboard.Moved | src/board.rs:34-55 | after a move, the destination holds the (possibly promoted) moving piece, the source is empty unless it equals the destination, and every other cell keeps its content |
| Chessboard.EmptyGrid | src/board.rs:20-22 | every on-board cell is empty |
| Chessboard.DefaultFieldLayout | src/board.rs:68 | the starting field has Black's back rank R N B Q K B N R on y = 0 and its pawns on y = 1, White's pawns on y = 6 and its back rank on y = 7, and nothing on ranks 2 to 5 |
| Chessboard.Board.Empty | src/board.rs:20-22 | a fresh 8x8 board whose contents are the empty grid |
| Chessboard.Board.New | src/board.rs:25-27 | a fresh 8x8 board holding the starting field |
| Chessboard.Board.Clone | src/board.rs:15-16 | the copy is a fresh board with a fresh array and the same contents |
| Chessboard.Board.Get | src/board.rs:29-32 | reading an on-board position returns the cell of the board's value there |
| Chessboard.Board.DoMove | src/board.rs:34-55 | the board's new contents are its old contents with the move applied (`Moved`), updated in place |
| Figures.Hit | src/figures.rs:175-200 | a diagonal pawn target is emitted only when it holds a piece of the other colour, and then it is emitted alone |
| Figures.RaySound | src/figures.rs:50-71 | every square a ray emits is on the board and holds no piece of the mover's colour |
| Figures.LinesSound | src/figures.rs:47-74 | the same holds for all rays of a `straight_lines!` invocation |
| Figures.JumpsSound | src/figures.rs:96-147 | every king or knight target emitted is on the board and holds no piece of the mover's colour |
| Figures.JumpsMembers | src/figures.rs:96-147 | in both directions: a square is a king or knight target exactly when it is the target of some offset, all offsets up to that one lead onto the board (the loop `break`s at the first one that does not), and it holds no ally |
| Figures.PawnMembers | src/figures.rs:148-255 | in both directions: a pawn reaches the free square ahead; from its home rank it also reaches the square two ahead when both are free; and it reaches a forward diagonal holding an enemy. Nothing else is reached |
| Figures.ReachablesSound | src/figures.rs:41-257 | every destination `reachables` emits, for every figure, is on the board and free of the mover's pieces |
| Figures.RayShape | src/figures.rs:50-71 | a ray's squares are consecutive steps from the start and all on the board; all but the last are empty; a non-empty last square holds an enemy; after an empty last square, or when nothing is emitted, the next step is off the board or an ally |
| Figures.RayRun | src/figures.rs:50-71 | across n free squares a ray emits exactly those squares in order, then continues from the last one |
| Figures.RayStops | src/figures.rs:50-71 | after n free squares, the ray ends at the first square that is not free, and includes it exactly when it holds an enemy |
| Figures.WalkRay | src/figures.rs:50-71 | the loop that moves `x, y` one step at a time emits exactly the ray `Ray` |
| Figures.StraightLines | src/figures.rs:47-74 | a `straight_lines!` invocation emits its rays one after the other, in the listed order |
| Figures.OffsetTargets | src/figures.rs:96-147 | the king and knight loops emit exactly `Jumps`: allies are skipped, and the loop stops at the first off-board target |
| Figures.PawnAdvances | src/figures.rs:151-174 | the forward part of the pawn branch emits one step onto a free square, then two steps from the home rank when that square is free too |
| Figures.PawnHit | src/figures.rs:175-200 | one diagonal emits exactly `Hit` |
| Figures.PawnTargets | src/figures.rs:148-255 | the pawn branch, for either colour, emits the forward moves, then the left hit, then the right hit |
| Figures.Reachables | src/figures.rs:41-264 | `reachables` (and `reachables_collect`, which collects the callback's arguments) emits exactly `ReachableSquares` of the piece and board, in order |
| FigureTests.RookLinesSplit | src/figures.rs:77-79 | the rook's destinations are its rays (1,0), (-1,0), (0,1), (0,-1), concatenated in this order |
| FigureTests.SurroundedKing | src/figures.rs:337-391 | tests `white_king` and `black_king`: a king at (4,4), with an ally at (5,4) and enemies at (3,3) and (3,5), reaches exactly the other seven neighbours, in offset order, for either colour |
| FigureTests.KingOnEdgeStopsEarly | src/figures.rs:96-121 | the king's `break` on the first off-board offset: a lone king at (0,4) reaches only (1,4), although (0,5) and (1,5) are empty neighbours |
| FigureTests.WhiteKnightStuckAtStart | src/figures.rs:122-147 | the knight's `break` on the first off-board offset: a White knight on (1,7) of the starting field reaches nothing, although (0,5) and (2,5) are free |
| Ai.CellScore | src/ai.rs:12 | an empty cell scores 0 and an occupied one scores its piece; the result lies within ±1000 |
| Ai.TotalScore | src/ai.rs:7-14 | the board's material lies within ±64000, so the 32-bit `Score` sum cannot overflow |
| Ai.TotalScoreColumns | src/ai.rs:7-14 | the total is the sum of the eight column sums (`iter().flatten()`) |
| Ai.TotalScoreUpdate | src/ai.rs:7-14 | replacing one cell changes the total by the new cell's score minus the old cell's score |
| Ai.MoveScoreChange | src/ai.rs:7-14 | a move changes the material by removing whatever stood on the destination and replacing the mover's score with its promoted score |
| Ai.QuietMoveKeepsScore | src/ai.rs:7-14 | a move that neither captures nor promotes keeps the total score |
| Ai.EmptyScore | src/ai.rs:7-14 | the empty board scores 0 |
| Ai.DefaultScore | src/ai.rs:126-128 | test `default_score`: the starting field scores 0 |
| Ai.Targets | src/ai.rs:23-25 | one `Move { from, to }` per emitted square, in the same order |
| Ai.TargetsMembers | src/ai.rs:23-25 | in both directions: a move is pushed exactly when it starts at `from` and its destination was emitted |
| Ai.AllMovesMembers | src/ai.rs:16-32 | in both directions: a move is generated exactly when its source holds a piece of the side to move and its destination is one that piece's `reachables` emits |
| Ai.AllMovesShape | src/ai.rs:68-75 | every generated move satisfies the `debug_assert`s of `calculate_future_score`: the source holds the mover's piece, and the destination is on the board and holds no piece of the mover |
| Ai.PushTargets | src/ai.rs:23-25 | the callback appends the moves to the emitted squares, in order, after what was collected so far |
| Ai.PushMoves | src/ai.rs:20-28 | one square of the scan appends its piece's moves when the piece belongs to the side to move, and appends nothing otherwise |
| Ai.GetAllPossibleMoves | src/ai.rs:16-32 | the nested scan (`y` outer, `x` inner) returns exactly `AllMoves` |
| Ai.SeqMax | src/ai.rs:48 | the maximum is an element of the sequence and no element exceeds it |
| Ai.SeqMin | src/ai.rs:93 | the minimum is an element of the sequence and no element is below it |
| Ai.Choose | src/ai.rs:90-94 | White picks the largest reply score and Black the smallest; a side with no reply gets its sentinel, -10000 for White and 10000 for Black |
| Ai.FutureScore | src/ai.rs:61-95 | every future score lies within ±64000 |
| Ai.MoveScores | src/ai.rs:81-89 | there is one score per generated move, each within ±64000 |
| Ai.LeafScore | src/ai.rs:76-79 | at depth 0, a move scores the prior material minus what stood on the destination, with the mover's score replaced by its promoted score |
| Ai.FutureScoreIsBestReply | src/ai.rs:80-94 | minimax: with look-ahead left, a move's score is the score of one of the opponent's replies, searched one level shallower, and no reply is better for the opponent; with no reply, it is the opponent's sentinel |
| Ai.CalculateFutureScore | src/ai.rs:61-95 | the recursive search, which plays on a clone and leaves the caller's board alone, returns exactly `FutureScore` |
| Ai.PlayOnCopy | src/ai.rs:67-76 | the clone is a fresh board whose contents are the caller's board with the move applied |
| Ai.BestReply | src/ai.rs:81-94 | scoring every reply and taking the max or min, with `unwrap_or` as the fallback, gives the replying side's choice |
| Ai.ScoreMoves | src/ai.rs:82-89 | the `map` over the generated moves returns each move's future score, in order |
| Ai.Signed | src/ai.rs:45 | a score seen from a side is the score times that side's `as_number` |
| Ai.RootScores | src/ai.rs:40-47 | there is one root score per generated move |
| Ai.ScoreRootMoves | src/ai.rs:40-47 | the root map returns each move's future score times the mover's sign, in move order |
| Ai.CalculateBestMove | src/ai.rs:34-59 | the result is `None` exactly when no move is generated. Otherwise it is a generated move whose root score no other generated move exceeds, and it satisfies the `debug_assert` conditions |

## Left out

- Terminal I/O and JSON exchange: `src/main.rs`, `serde` (de)serialisation and
  the `Debug` output. These are outside the engine's logic and are not part of
  this model.
- The Python GUI under `gui/` is not part of this model. Nor is `src/game/`,
  which `src/main.rs` does not declare as a module, so it is not compiled.
- Ai.ScoreRootMoves: `par_iter` (rayon) becomes a sequential loop. The scores are pure
  and collected in move order, so the result is the same.
- Ai.CalculateBestMove: the random choice (`rand::thread_rng`) among the indices tied
  for the maximum becomes a nondeterministic choice. The contract states only
  that the chosen move is one of the tied ones, not that each is equally likely.
- The commented-out helpers `random_max_by_key` and `random_min_by_key` (src/ai.rs:97-120)
  are not compiled, so they are not modelled. The benchmark `new_field` (src/ai.rs:130-139)
  measures time and is not modelled either.
- Integer widths: `Pos` is `(i8, i8)` and is modelled with unbounded `int`
  coordinates. Every coordinate the source computes stays between -2 and 9, so
  no 8-bit overflow can happen. `Score` is `i32`; `TotalScore` is proved to stay
  within ±64000, so the sum cannot overflow either.
- Ai.CalculateFutureScore: requires the `debug_assert` conditions of src/ai.rs:68-75
  (`MoveShape`), although release builds skip those checks. Every move the
  generator produces meets them (`Ai.AllMovesShape`), so every call the engine
  makes is covered.
- Chessboard.Board.Get: requires an on-board position. The source's `as usize` indexing
  panics off the board, and every caller checks `is_inside` first.
- Chessboard.Board.DoMove: requires a piece on `from`. The source's `unwrap` panics
  otherwise, and `Moved` has the same precondition.
- `Board::is_inside` takes the board only for method syntax. It is the
  predicate `Chessboard.IsInside`, which has no contract of its own.
- The unit tests `rook` and `blocked_rook` (src/figures.rs:284-335) are not
  restated as lemmas on their literal boards. On those boards the verifier
  evaluates the rays square by square on literal coordinates with too much
  effort. The general lemmas cover what the tests check:
  - `FigureTests.RookLinesSplit` gives the order of the rook's rays;
  - `Figures.RayStops` and `Figures.RayShape` state which squares a ray
    emits and where it stops (before an ally, on an enemy, at the edge).
- The king tests compare sorted vectors. `FigureTests.SurroundedKing` states the
  exact emission order instead, which is the stronger statement.
- The king and knight loops stop at the first off-board offset (`break`)
  instead of skipping it. This behaviour is kept as written: see
  `FigureTests.KingOnEdgeStopsEarly` and `FigureTests.WhiteKnightStuckAtStart`.
  No corrected variant is modelled, because the rest of the engine (move
  generation and the search) depends on the loops as written.
