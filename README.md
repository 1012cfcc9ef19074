# 2048 rule engine in Dafny

A model of the grid engine of a 2048 game, `src/game_state.rs`. The engine
owns a 16-cell row-major board of optional tiles, a score, the `over` and
`won` flags, and a switch that turns tile spawning on or off. Every tile
carries a value, the annotation the view uses to animate it (`New`,
`Static`, `Merged`) and the cell it stood on before the last move.

The project has two layers.

* **Values.** These modules describe the engine as functions:
  * `Tiles`: tiles and value-only tile equality.
  * `Directions`: the `increment` table and the index arithmetic of the scan.
  * `Boards`: boards and the sums over their cells.
  * `Engine`: the loop of `move_tiles`, one step per cell, over the board read in scan order.
  * `LineRule`: an independent definition of sliding one line.
  * `Game`: whole-game operations such as new, spawn, move, default, comparison and `get_tiles`.

  The properties of a move are proved on these functions.
* **The mutable object.** `GameStates.GameState` is a class over an
  `array<Option<Tile>>` of length 16, with `score` and `won` as fields.
  - Its methods `AddRandomTile`, `PrepareMove` and `MoveTiles` follow the Rust loops statement by statement.
  - `MoveTiles` is broken into `MoveLines` (the outer loop), `MoveLine` (the inner loop), `MoveTile` and three branch methods, one per branch of the loop body.
  - Each method is proved to leave exactly the state that the matching `Game` function computes.

`Scenarios` replays the repository's unit tests as lemmas: each input
board, moved in each listed direction, yields the expected values or tile
count.

Randomness is a parameter. `pick` selects one of the empty cells, taken
in index order, and `four` says whether the spawned tile is a 4. Every
outcome of the random source is the result for some choice of the two
(`Game.SpawnReachesEveryEmptyCell`).

Where the code and the written description of the game disagree, the
model follows the code:

- **Lines are not always independent.** For Left and Right, the merge
  candidate of the first cell of a row is the last cell of the row scanned
  before (see Findings).
- **Merges lower the tile count.** The number of tiles drops by one per
  merge (`Game.MoveCount`), not "only increases or stays constant".
- **`over` is never set.** No operation computes it.

Merges across rows are a bug in the code. Every value-level lemma about a
move therefore takes a `Rule` and holds for both:
- `AsWritten`, the code's candidate;
- `LineBounded`, a candidate that never leaves the line.

The class follows the code (`AsWritten`). For `LineBounded`, and for Up
and Down under either rule, a move is proved to slide each line exactly as
the reference `LineRule.SlideLine` prescribes.

## Model

| member | source | states |
|---|---|---|
| Tiles.NewTile | src/game_state.rs:22-28 | a new tile has the given value, is annotated `New` and has no previous position |
| Tiles.UpdateFacts | src/game_state.rs:30-33 | `update` sets the value and the annotation to the given ones and keeps the previous position, so the result equals by value any tile with the new value |
| Tiles.SameValueFacts | src/game_state.rs:52-56 | tile equality by value is reflexive, symmetric and transitive and ignores annotation and previous position |
| Tiles.StateClass | src/game_state.rs:43-49 | the class name handed to the view is empty exactly for `Static` tiles |
| Tiles.StateClassInjective | src/game_state.rs:43-49 | different annotations give different class names |
| Directions.RemI32 | src/game_state.rs:190 | Rust's truncating `%` agrees with the mathematical remainder on non-negative operands |
| Directions.LineStartIsEdge | src/game_state.rs:140-190 | the read cursor, started at `increment().0` and carried from line to line by the step and the `(index + stride + 16) % 16` wrap, begins every line on its edge cell |
| Directions.WrapToNextLine | src/game_state.rs:190 | after the four cells of a line, the wrap lands exactly on the edge cell of the next line |
| Directions.StepForward | src/game_state.rs:172-187 | adding the step moves a cursor one position along its line |
| Directions.CursorIsCell | src/game_state.rs:140-187 | the cursor after `k` steps from the start of line `l` is the cell at position `k` of that line |
| Directions.Cell | src/game_state.rs:66-74 | every cell the scan can name lies on the 16-cell board |
| Directions.ScanVisitsEveryCellOnce | src/game_state.rs:142-191 | the two nested loops read each of the 16 cells exactly once, line by line |
| Directions.CellCoordinates | src/game_state.rs:142-191 | the cell at position `k` of line `l` has line `l`, position `k` and scan rank `4 * l + k` |
| Directions.CellInjective | src/game_state.rs:142-191 | different (line, position) pairs name different cells |
| Directions.CoordinatesCell | src/game_state.rs:142-191 | every board index is the cell of its own line and position |
| Directions.LinesAreRowsOrColumns | src/game_state.rs:66-74 | a line is a row for Left and Right and a column for Up and Down |
| Directions.StepBack | src/game_state.rs:148 | inside a line, `prev = next - step` is the previous cell of the same line |
| Directions.StepBackFromEdge | src/game_state.rs:148-150 | for a write cursor on the edge, `prev` is the last cell of the previous row for Left and Right, and off the board otherwise |
| Boards.PreparedFacts | src/game_state.rs:120-130 | preparing a move keeps every value, marks every tile `New` with its own index as previous position, and leaves no merge product |
| Boards.LinesRoundTrip | src/game_state.rs:142-191 | reading the board in scan order and writing it back are inverse, for every direction |
| Boards.CountBound | src/game_state.rs:108-110 | a board has an empty cell exactly when fewer than all of its cells are occupied |
| Boards.CountEmpty | src/game_state.rs:225 | an empty board holds no tile |
| Boards.SameGridSums | src/game_state.rs:233-237 | boards equal value by value hold the same number of tiles and the same total value |
| Engine.SlideInvariant | src/game_state.rs:142-191 | after the scan every tile is traced to a prepared tile of its own line at or beyond its position, as itself or doubled once; the tile count, total value, score and `won` agree with the merges made; and `moved` is set exactly when the values changed |
| Engine.SlideConservesTiles | src/game_state.rs:150-182 | a move loses exactly one tile per merge product and keeps the total value on the board |
| Engine.SlideScore | src/game_state.rs:159 | the score grows by the sum of the values of the merge products |
| Engine.SlideWon | src/game_state.rs:160-162 | `won` is set after the scan exactly when it was set before or some merge produced 2048 |
| Engine.SlideMoved | src/game_state.rs:139-184 | the scan reports a move exactly when the values on the board changed; a move leaves an empty cell; no move leaves score and `won` alone and produces no merge |
| Engine.SlideProvenance | src/game_state.rs:146-182 | every tile after the scan comes from a cell of its own line, at or beyond its position, with that cell's previous position, as itself (`Static`) or doubled (`Merged`) |
| LineRule.SlideByLines | src/game_state.rs:142-191 | with the line-bounded candidate, and for Up and Down under either rule, every line after a move is the line packed toward the edge with equal neighbours paired from the edge, each tile merging at most once |
| Game.NewGame | src/game_state.rs:87-95 | a new game keeps the given grid and spawn switch, with score 0 and both flags cleared |
| Game.EmptyCellsFacts | src/game_state.rs:108 | the spawn candidates are exactly the empty cells, in increasing index order, and there is one exactly when the board has an empty cell |
| Game.SpawnValue | src/game_state.rs:111-114 | a spawned value is 2 or 4 |
| Game.SpawnOutcome | src/game_state.rs:101-118 | with spawning off or no empty cell nothing changes; otherwise exactly one empty cell receives a new tile of value 2 or 4 and nothing else changes |
| Game.SpawnReachesEveryEmptyCell | src/game_state.rs:106-116 | with spawning on, every empty cell and both values can be drawn |
| Game.SpawnCounts | src/game_state.rs:101-118 | spawning adds one tile exactly when spawning is on and a cell is empty, and changes no merge product, score or flag |
| Game.SpawnTiles | src/game_state.rs:116 | every tile after a spawn was there before or is the spawned one |
| Game.MoveKeepsFlags | src/game_state.rs:132-135 | a frozen game does not change; `won` is never cleared, `over` and the spawn switch never change, the score never decreases |
| Game.MoveScoreAndWon | src/game_state.rs:132-196 | a move adds the values of its merge products to the score, and `won` holds afterwards exactly when a merge produced 2048 |
| Game.MoveCount | src/game_state.rs:132-196 | a move leaves the old number of tiles, less one per merge, plus one when it moved something and spawning is on |
| Game.MovesIffChanged | src/game_state.rs:139-196 | a move counts as made exactly when the scan changes the values on the board; otherwise board values, score and `won` stay as they were |
| Game.MoveProvenance | src/game_state.rs:132-196 | every tile after a move comes from an occupied cell of its own line, at or beyond its position, as itself or doubled; the only exception is the freshly spawned tile, on a cell the scan left empty |
| Game.DefaultGameFacts | src/game_state.rs:223-231 | a default game holds exactly two tiles, each `New`, without previous position and of value 2 or 4, with score 0, flags cleared and spawning on |
| Game.TwoSpawns | src/game_state.rs:226-228 | two spawns on an empty board leave exactly two fresh tiles of value 2 or 4 |
| Game.SameGameFacts | src/game_state.rs:233-237 | comparing games by grid values is an equivalence, and a move that moves nothing leaves a game equal to itself |
| Game.PreMerge | src/game_state.rs:207-215 | the tile a merge product is shown to grow from is `Static`, keeps the previous position and has half the value |
| Game.CellTilesFacts | src/game_state.rs:202-219 | a cell contributes nothing when empty, its tile alone when the tile is not a merge product, and the tile it grew from followed by the tile when it is one |
| Game.GetTilesFacts | src/game_state.rs:198-220 | `get_tiles` lists one entry per tile plus one per merge product, every entry belongs to its cell, entries come in index order, and every tile is listed, a merge product right after the tile it grew from |
| GameStates.GameState.constructor | src/game_state.rs:87-95 | the new object holds exactly `Game.NewGame` of the given grid and switch |
| GameStates.GameState.Default | src/game_state.rs:223-231 | the default object is the empty board after two spawns, `Game.DefaultGame` |
| GameStates.GameState.IsGameOver | src/game_state.rs:97-99 | the answer is `over` or `won`, and nothing changes |
| GameStates.GameState.AddRandomTile | src/game_state.rs:101-118 | the loop collects the empty cells in order, and the new state is `Game.AddRandomTile` of the old |
| GameStates.GameState.PrepareMove | src/game_state.rs:120-130 | the new grid is the old grid with every tile prepared, `Prepared` |
| GameStates.GameState.MoveTiles | src/game_state.rs:132-196 | the new state is `Game.MoveTiles` of the old with the code's merge candidate |
| GameStates.GameState.MoveLines | src/game_state.rs:139-191 | the two nested loops, run on the prepared grid, perform the scan of the four lines in turn: the grid read back, the score, `won` and `moved` are those the scan ends with |
| GameStates.GameState.MoveLine | src/game_state.rs:143-188 | the inner loop over one line performs the scan of that line and leaves the read cursor one step past it |
| GameStates.GameState.MoveTile | src/game_state.rs:146-185 | one pass of the inner loop body is one step of the scan, and the write cursor follows the scan's position |
| GameStates.GameState.MergeTile | src/game_state.rs:151-163 | the merge branch doubles the candidate, empties the read cell, adds to the score, sets `won` on 2048, and keeps the write cursor |
| GameStates.GameState.StayTile | src/game_state.rs:168-172 | a tile already at the write cursor is marked `Static`, counts as not moved, and the cursor advances |
| GameStates.GameState.SlideTile | src/game_state.rs:173-181 | a tile behind the write cursor moves there, marked `Static`, counts as moved, and the cursor advances |
| GameStates.CandidateIsPrev | src/game_state.rs:148-150 | the code's bounds test on `prev` is the scan's test on the candidate, and both read the same cell |
| GameStates.CodeMergesIsCanMerge | src/game_state.rs:150-152 | the code's merge condition is the scan's |
| GameStates.NothingToMove | src/game_state.rs:146 | an empty cell leaves the state as it is |
| GameStates.MergeIsVisit | src/game_state.rs:150-165 | the board writes of the merge branch are the scan's merge step |
| GameStates.StayIsVisit | src/game_state.rs:168-172 | the write of the stay branch is the scan's step for a tile in place |
| GameStates.SlideIsVisit | src/game_state.rs:173-181 | the writes of the slide branch are the scan's step for a moving tile |
| Scenarios.GridRoundTrip | src/game_state.rs:243-262 | `from_grid` undoes `to_grid`, and `to_grid` undoes `from_grid` on boards of fresh tiles |
| Scenarios.BasicLeft | src/game_state.rs:273-278 | the Left case of `test_basic` ends with the expected values |
| Scenarios.BasicRight | src/game_state.rs:279-284 | the Right case of `test_basic` ends with the expected values |
| Scenarios.BasicUp | src/game_state.rs:285-290 | the Up case of `test_basic` ends with the expected values |
| Scenarios.BasicDown | src/game_state.rs:291-296 | the Down case of `test_basic` ends with the expected values |
| Scenarios.BasicMerge | src/game_state.rs:321-326 | two equal tiles moved Left merge into one of double value |
| Scenarios.NotMerge | src/game_state.rs:327-332 | different tiles moved Up stack without merging |
| Scenarios.MergeTwice | src/game_state.rs:333-338 | moving Left and then Right merges 2, 2, 4 into a single 8 |
| Scenarios.MergeTwos | src/game_state.rs:339-344 | rows of twos moved Left pair up from the edge, each tile merging at most once |
| Scenarios.ValidMove | src/game_state.rs:369-374 | with spawning on, a move that moves tiles leaves three tiles on the board |
| Scenarios.InvalidMove | src/game_state.rs:375-380 | with spawning on, a move that moves nothing leaves just the two tiles it started with |
| Scenarios.CrossRowMerge | src/game_state.rs:146-165 | as written, a Left move merges the first tile of the second row into the last tile of the first row |
| Scenarios.CrossRowKept | src/game_state.rs:146-165 | with the line-bounded candidate, the same move changes no value and scores nothing |

## Left out

- The rest of the repository: `src/lib.rs` and the WebAssembly and view glue are not part of this model. Neither is persistence through `serde` (the `Serialize` and `Deserialize` derives).
- The random source: `thread_rng`, `choose` and `gen::<f64>` become the parameters `pick` and `four`. The model covers every outcome the source can draw, but not the probabilities: a uniform choice of cell, and a 4 with probability 0.1.
- Machine integers: tile values and the score are unbounded naturals. The `usize` overflow of `value * 2` or `score += value` is not modelled; it needs values far beyond any reachable board. The cursors use `i32` arithmetic, and they stay within a few dozen of zero, where it agrees with `int`; Rust's truncating `%` is written out as `RemI32`.
- The getters `get_value` and `get_prev`: they are the fields `value` and `prevPos` of the `Tile` datatype, and need no member of their own.
- `get_tiles` and `GameState::eq` read the grid without changing it. They are modelled as functions of the game as a value (`Game.GetTiles`, `Game.SameGame`) rather than as methods of the class. `get_tiles` returns a lazy iterator; the model returns the sequence it yields.
- `over`: no operation sets it, and the model adds no game-over detection; it is a constant field of the class.
- The derives `Debug`, `Clone` and `Copy`.

## Findings

| source | as written | input that shows it | evidently intended | confidence | as-written member | corrected member |
|---|---|---|---|---|---|---|
| src/game_state.rs:148-152 | for Left and Right, `prev = next - step` at the first cell of a row is the last cell of the previous row, and the only check is that `prev` lies on the board, so tiles merge across rows | board `[2,4,8,16, 16,0,0,0, 0,…,0]` moved Left gives `[2,4,8,32, 0,…,0]` and score 32 | each row slides on its own: the board does not change and the score stays 0 | not executed; follows from the loop as written | Scenarios.CrossRowMerge | Scenarios.CrossRowKept, LineRule.SlideByLines |
