# Tile grid of the trains editor

This project models the tile grid of a small interactive grid editor. The
program keeps a global 1000 × 1000 `int` array `world`. Each cell of it holds one of
four tile states: BLANK (0), RAIL (1), BUILDING (2) or STATION (3). At start-up
`InitWorld` blanks every cell. A left click at a world position is divided by
the cell size `GRID_SIZE` (10) to give a cell index. `ToggleLocation` then
moves that cell to the next state in the cycle BLANK → RAIL → BUILDING →
STATION → BLANK, computed as `(curr + 1) % 4`. Each frame the draw loop
visits every cell. For each cell that is not BLANK it writes the letter R, B
or S at the cell's corner.

The model has four modules:

- `Tiles` (tiles.dfy): the state constants, C's remainder, the toggle step
  `Next`, `n` toggles `Toggled`, and the letters written for a state,
  `Glyphs`. It also holds the lemmas on the toggle cycle: its period, its
  order, and that it stays inside the four states.
- `Coords` (coords.dfy): `GRID_SIZE`, `WORLD_SIZE`, world points, the
  click-to-cell index `CellIndex` and its inverse corner `CellOrigin`.
- `Drawing` (drawing.dfy): the letter blocks the draw loop runs, as a
  sequence in loop order. Lemmas state that every block belongs to a non-blank
  cell, that every non-blank cell gets one, and that no cell gets two.
- `World` (world.dfy): the class `Grid`, whose `array2<int>` field is the
  global array. Its methods are `InitWorld` and `ToggleLocation`, the click
  path `Click`, the draw pass `DrawLabels`, and `Run`, the program from
  start-up through a sequence of clicks.

The code does not check indices on the click path. The model makes the range
an explicit precondition: `ToggleLocation` requires `0 ≤ x, y < WORLD_SIZE`.
`Click` requires its world point to lie in `[0, WORLD_SIZE * GRID_SIZE)` on
both axes. Among non-negative integer coordinates, `CellIndex` proves this
range is exactly the set of coordinates that give a valid index.

Three facts about the code shape the model. The cell size `GRID_SIZE` is 10
(src/main.c:43). The click path divides the world position by it and passes
the result straight to `ToggleLocation`, with no clamping into the world
(src/main.c:108-110). A click cycles the clicked cell to its next state
(src/main.c:66); there is no selected tile mode to paint.

## Model

| member | source | states |
|---|---|---|
| `Tiles.CRem4` | src/main.c:66 | C's `% 4`: for a non-negative dividend the remainder is in 0..3, for a negative one in -3..0, and it is always congruent to the dividend modulo 4 |
| `Tiles.Next` | src/main.c:66 | one toggle: the result is congruent to `curr + 1` modulo 4; a tile state stays a tile state; BLANK→RAIL, RAIL→BUILDING, BUILDING→STATION, STATION→BLANK |
| `Tiles.ToggledCounts` | src/main.c:62-67 | from a tile state `v`, `n` successive toggles give `(v + n) % 4` |
| `Tiles.ToggledStaysTile` | src/main.c:38-41 | any number of toggles keeps a cell within BLANK..STATION |
| `Tiles.FourTogglesRestore` | src/main.c:66 | from any point in the cycle, four more toggles restore a cell's state |
| `Tiles.FewerTogglesChange` | src/main.c:66 | from any point in the cycle, one, two or three more toggles always change a cell's state, so the period is exactly four |
| `Tiles.CycleOrder` | src/main.c:38-41 | from BLANK the toggles visit RAIL, BUILDING, STATION, then BLANK |
| `Tiles.Glyphs` | src/main.c:130-144 | the letters written for a cell: at most one; none exactly when the value is not RAIL, BUILDING or STATION; "R" for RAIL, "B" for BUILDING, "S" for STATION |
| `Tiles.GlyphsShowState` | src/main.c:133-144 | the letters written determine the tile state, so distinct states look different |
| `Coords.CellIndex` | src/main.c:109 | the cell index `c` of world coordinate `w` satisfies `c * GRID_SIZE ≤ w < (c + 1) * GRID_SIZE`; `c < WORLD_SIZE` exactly when `w < WORLD_SIZE * GRID_SIZE` |
| `Coords.CellOrigin` | src/main.c:135 | the corner where a cell's letter is drawn maps back to that cell, and lies inside the world exactly when the cell index does |
| `Coords.ClickNamesCell` | src/main.c:108-110 | a click lies inside the world exactly when both of its cell indices are valid array indices |
| `Coords.SameCell` | src/main.c:109 | a coordinate falls in cell `i` exactly when it lies in the span of GRID_SIZE units starting at the cell's corner |
| `Drawing.CellLabels` | src/main.c:130-144 | the letter blocks the draw loop runs for one cell: none exactly when the cell holds 0 (the `!= 0` test), otherwise one, carrying the cell's position and value |
| `Drawing.ColumnLabels` | src/main.c:124-146 | the inner loop over the first `n` rows of column `i`, in row order: at most one block per visited cell |
| `Drawing.GridLabels` | src/main.c:121-147 | the outer loop over the first `m` columns, each column's blocks after the previous column's: at most one block per visited cell |
| `Drawing.Label.Text` | src/main.c:132-144 | a letter block writes at most one letter |
| `Drawing.Label.Position` | src/main.c:135-143 | the letter of cell (i, j) is written at a world point that lies in cell (i, j) |
| `Drawing.ColumnLabelSound` | src/main.c:124-146 | each letter block of one column belongs to a non-blank cell of that column and carries its value |
| `Drawing.LabelSound` | src/main.c:121-147 | each letter block of the draw pass belongs to a non-blank cell of the grid and carries its value |
| `Drawing.ColumnLabelComplete` | src/main.c:124-146 | each non-blank cell of a column gets a letter block in that column's part of the pass |
| `Drawing.LabelComplete` | src/main.c:121-147 | each non-blank cell of the grid gets a letter block in the draw pass |
| `Drawing.ColumnLabelsInOrder` | src/main.c:124-146 | a column's letter blocks lie in that column and come in strictly increasing row order |
| `Drawing.LabelsInOrder` | src/main.c:121-147 | the draw pass's letter blocks come in strictly increasing (column, row) order |
| `Drawing.OneLabelPerCell` | src/main.c:121-147 | no two letter blocks of one pass belong to the same cell, so at most one letter is drawn per cell |
| `World.Grid.constructor` | src/main.c:49 | the global array has WORLD_SIZE × WORLD_SIZE cells, all 0 (static storage) |
| `World.Grid.InitWorld` | src/main.c:51-60 | afterwards every cell is BLANK, so every cell holds a tile state |
| `World.Grid.ToggleLocation` | src/main.c:62-67 | requires `0 ≤ x, y < WORLD_SIZE`; sets `world[x][y]` to the toggle of its old value; no other cell changes; if every cell held a tile state before, every cell does after |
| `World.Grid.Click` | src/main.c:106-111 | for a click inside the world, toggles exactly the cell the click falls in and keeps every cell a tile state |
| `World.Grid.DrawLabels` | src/main.c:121-147 | the nested draw loop yields exactly the letter-block sequence `GridLabels` of the current grid |
| `World.Grid.Run` | src/main.c:72-111 | after start-up and a sequence of clicks inside the world, each cell holds its click count modulo 4, and every cell is a tile state |

## Left out

- Window, frame pacing and drawing calls are I/O with no logic of their own. These are `InitWindow`, `SetTargetFPS`, `BeginDrawing`/`EndDrawing`, `ClearBackground`, `BeginMode2D`/`EndMode2D`, `CloseWindow`, the grid lines (`DrawLineV`), and the font size and colour passed to `DrawText`.
- The `printf` in `ToggleLocation` is console output only.
- Camera panning with the right button is left out. `GetMouseDelta`, `Vector2Scale`, `Vector2Add` and `GetScreenToWorld2D` are floating-point calls into raylib and raymath, which are not part of this model. Clicks enter the model as integer world coordinates.
- Mouse polling (`IsMouseButtonDown`, `IsMouseButtonPressed`, `GetMousePosition`) is device input. `World.Grid.Run` takes the left clicks of a session as a parameter. The loop's exit on `WindowShouldClose` is the end of that sequence.
- World.Grid.Click: takes non-negative integer world coordinates. The code divides a `float` and converts it to `int`, truncating toward zero. For negative coordinates that conversion yields index 0 for points in (-GRID_SIZE, 0), and a negative index below that; neither case is modelled.
- Tiles.Next: cells are unbounded integers. The signed overflow of `curr + 1` at `INT_MAX` is not modelled. From start-up, cells only ever hold 0..3.
- World.Grid.Run: models only left clicks inside the world. Truncation maps the band (-GRID_SIZE, 0) on an axis to index 0, so a click with both coordinates in (-GRID_SIZE, WORLD_SIZE * GRID_SIZE) still toggles a cell of the array. Any other click makes the code write outside the array. Neither behaviour is modelled.
