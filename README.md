# Faux-3D dungeon crawler: a Dafny model

This project models the logic of a small DragonRuby dungeon crawler. The
player walks a grid map one cell at a time. The view shows a pseudo-3D
corridor, made by pasting pre-drawn wall fragments from a sprite atlas.

- **Atlas** (`atlas_mapper.rb`, module `AtlasMapper` in `atlas.dfy`).
  - A `Tile` is built from its description. Its source rectangle has the
    Y axis flipped.
  - `Tile#render` gives the rectangle on the 256-pixel canvas.
  - A `Layer` stores its tiles in a Hash keyed `"type_x_z"`.
  - The `Atlas` stores its layers in a Hash keyed by type.
  - Both Hashes are filled in place by loops (`NewLayer`, `NewAtlas`).
  - These are proved equal to fold functions (`LayerOf`, `AtlasOf`) with
    Ruby Hash semantics: insertion order, and a repeated key keeps its
    place but takes the last value.
- **Renderer** (`faux_renderer.rb`, module `FauxRenderer` in `faux.dfy`;
  the four view tables are in module `ViewTables` in `view_tables.dfy`).
  - `is_wall?` classifies a cell.
  - `render_floor` and `render_ceiling` translate every tile of a layer.
  - `render_walls` picks the 23-entry view table of the player's facing
    (mod 4). It emits one shifted Walls fragment for every entry whose
    cell is a wall.
  - `wall_from_key` shifts a fragment by `w * lane` plus the offsets.
  - The loops are methods of the `Renderer` class. Each is proved against
    a specification function: `LayerCommands` for floor and ceiling;
    `Visible` followed by `Fragments` for the walls.
  - The East, South and West tables are proved to be the North table
    turned by 90°·k, the same turn the movement vectors make. Inside some
    front strips they are listed in reverse order.
- **Game** (`game.rb`, module `Game` in `game.dfy`).
  - The map and orientation constants (`grid.dfy`).
  - Q/E rotation and the forward and left vectors.
  - `valid_move?` and `move_player`.
  - The key handling of `input`, as the specification function `Step`.
  - The text overlay of `draw_grid_with_player`.
  - The sprite lists `input` pushes, as the function `FrameOf`.
  - The class `GameState` holds the mutable player. Its methods
    (`MovePlayer`, `HandleKeys`, `DrawGridWithPlayer`, `Input`) are proved
    equal to those functions.

Ruby behaviour made explicit (module `Ruby` in `ruby.dfy`):

- `map[y]` with a negative `y` counts from the end of the array
  (`RubyIndex`).
- `row.chars[x] = c` pads past the end with `nil`, which `join` drops. It
  raises `IndexError` below `-size` (`SetChar`, `None`).
- `Integer#to_s` is modelled, and proved injective, so tile keys name their
  cell unambiguously.
- Ruby's `% 4` with a positive divisor agrees with Dafny's `%`.
- Calls that raise in the source become `Failure` results:
  - `nil.tiles` for a missing layer (`MissingLayer`);
  - `nil.render` for a missing Walls key (`MissingTile`);
  - the grid's `IndexError` (`GridIndexError`).

## Model

| member | source | states |
|---|---|---|
| Ruby.RubyIndex | mygame/app/faux_renderer.rb:48 | `a[i]` is defined exactly for -\|a\| <= i < \|a\|. There it is element `i mod \|a\|`, so a negative index counts from the end. |
| Ruby.SetChar | mygame/app/game.rb:189-191 | `chars[i] = c; join`: fails exactly when i < -\|s\|. An in-range index (negative from the end) replaces that one character. An index past the end appends just `c`. |
| Ruby.Store | mygame/app/atlas_mapper.rb:68 | `h[k] = v` maps `k` to `v`. An existing key keeps its place in the key order; a new key goes last. |
| Ruby.FromPairsKeys | mygame/app/atlas_mapper.rb:64-69 | The Hash filled by a loop of stores has exactly the keys that some pair carries. |
| Ruby.FromPairsLast | mygame/app/atlas_mapper.rb:64-69 | A key holds the value of the last pair that carries it. |
| Ruby.IntToString | mygame/app/atlas_mapper.rb:67 | `Integer#to_s` in a tile key never contains an underscore, so the key's separators are unambiguous. |
| Ruby.IntToStringRoundTrip | mygame/app/atlas_mapper.rb:67 | `Integer#to_s` parses back to the same integer. |
| Ruby.IntToStringInjective | mygame/app/atlas_mapper.rb:67 | Two integers print alike only if they are equal. |
| AtlasMapper.NewTile | mygame/app/atlas_mapper.rb:9-21 | Keeps the description; sets source x/w/h to the coords and the path to the image's. The Y flip satisfies `img.h - source_y - source_h == coords.y`, and a rectangle inside the image stays inside it. |
| AtlasMapper.Render | mygame/app/atlas_mapper.rb:24-39 | Copies w, h, the source rectangle, the path and the flip flag. x is `screen.x`, minus the width when flipped. y satisfies `y + h + screen.y == 256`. |
| AtlasMapper.TileKeyInjective | mygame/app/atlas_mapper.rb:63-67 | The key `TileKey` builds, `"type_x_z"`, determines type, x and z, even when the type contains underscores. |
| AtlasMapper.NewLayer | mygame/app/atlas_mapper.rb:53-70 | The tile-storing loop builds exactly `LayerOf`: each described tile is stored under its key, in description order. |
| AtlasMapper.LayerTileKeys | mygame/app/atlas_mapper.rb:63-69 | A layer has a tile under a key iff some described tile has that type and cell. |
| AtlasMapper.LayerLastTileWins | mygame/app/atlas_mapper.rb:68 | Of tiles sharing a key, the last described one is stored. |
| AtlasMapper.LayerSize | mygame/app/atlas_mapper.rb:64-69 | A layer holds at most as many tiles as its description lists. |
| AtlasMapper.LayerKeepsDistinctCells | mygame/app/atlas_mapper.rb:64-69 | With no repeated cell, the layer holds every tile, in description order. |
| AtlasMapper.NewAtlas | mygame/app/atlas_mapper.rb:85-98 | The layer-storing loop builds exactly `AtlasOf`: each layer is built and stored under its type. |
| AtlasMapper.AtlasLayerTypes | mygame/app/atlas_mapper.rb:93-97 | The atlas has a layer of a type iff the description lists a layer of that type. |
| AtlasMapper.AtlasLastLayerWins | mygame/app/atlas_mapper.rb:95-96 | A later layer of the same type replaces an earlier one. |
| ViewTables.TableFor | mygame/app/faux_renderer.rb:57-67 | Picks the table of facing 0..3; each table has 23 entries. |
| ViewTables.TurnIsRepeatedQuarterTurn | mygame/app/game.rb:65-70 | The closed-form turn by k equals k quarter turns, and it repeats with period 4. |
| ViewTables.SourceIndexInvolution | mygame/app/faux_renderer.rb:144-346 | Reversing the front strips twice gives back the original order. |
| ViewTables.EastTableIsRotatedNorth | mygame/app/faux_renderer.rb:217-275 | The East table is the North table turned once (dx, dz) -> (-dz, dx), with the depth-1 front strip listed in reverse. |
| ViewTables.SouthTableIsRotatedNorth | mygame/app/faux_renderer.rb:148-204 | The South table is the North table turned twice (dx, dz) -> (-dx, -dz), with all three front strips in reverse. |
| ViewTables.WestTableIsRotatedNorth | mygame/app/faux_renderer.rb:288-346 | The West table is the North table turned three times (dx, dz) -> (dz, -dx), with the depth-3 and depth-2 strips in reverse. |
| ViewTables.TablesAreRotatedNorth | mygame/app/faux_renderer.rb:79-346 | Every facing's table equals the rotated North table `Oriented(k)`. |
| ViewTables.TurnInverse | mygame/app/game.rb:65-70 | Turning by -k undoes turning by k. |
| ViewTables.NorthTableDepth | mygame/app/faux_renderer.rb:79-135 | In the literal `NorthTable`, entries 0-6 look 3 rows ahead, 7-15 look 2, 16-20 look 1, and 21-22 look at the player's row; every \|dx\| <= 3. |
| ViewTables.NorthTableFits | mygame/app/faux_renderer.rb:79-135 | Each North entry draws the fragment named after its cell. A front strip uses `front_0_-depth` with the lane equal to the column offset, within -depth..depth. A side wall uses `side_dx_-depth` with lane 0. |
| ViewTables.ViewCone | mygame/app/faux_renderer.rb:75-346 | In every table, each entry, seen from the player, is at depth 0..3 and side -3..3, and draws the fragment named after that cell. |
| ViewTables.FarthestFirst | mygame/app/faux_renderer.rb:75-346 | Every table lists farther cells before nearer ones, so nearer walls are painted over farther ones. |
| FauxRenderer.Translate | mygame/app/faux_renderer.rb:18-19 | Moves a command by (dx, dy) and changes nothing else. |
| FauxRenderer.TileCommand | mygame/app/faux_renderer.rb:17-19 | The rendered tile moved by the offsets: x is render x + offsets.x; the top edge (y + h) is 256 + offsets.y - screen.y; every other field is as rendered. |
| FauxRenderer.LayerCommands | mygame/app/faux_renderer.rb:12-40 | Fails with MissingLayer iff the atlas has no layer of that type. Otherwise one command per stored tile, in the Hash's key order, each the tile's render moved by the offsets. |
| FauxRenderer.LayerDrawsEveryTile | mygame/app/faux_renderer.rb:12-24 | Loaded from a description, the floor (or ceiling) draws every described tile of the last layer of its type, in file order, when no cell repeats. |
| FauxRenderer.Renderer.RenderLayer | mygame/app/faux_renderer.rb:13-23 | The `each`/`<<` loop shared by floor and ceiling returns `LayerCommands` of that layer type: MissingLayer without the layer, otherwise one moved command per stored tile, in key order. |
| FauxRenderer.Renderer.RenderFloor | mygame/app/faux_renderer.rb:12-24 | The append loop returns `LayerCommands(atlas, "Floor", offsets)`. |
| FauxRenderer.Renderer.RenderCeiling | mygame/app/faux_renderer.rb:28-40 | The append loop returns `LayerCommands(atlas, "Ceiling", offsets)`. |
| FauxRenderer.IsWall | mygame/app/faux_renderer.rb:45-50 | Inside the map: wall iff the character is `#`. Outside a row's columns, or outside [-\|m\|, \|m\|): wall. For y in [-\|m\|, 0): row \|m\|+y is read. |
| FauxRenderer.WallFromKey | mygame/app/faux_renderer.rb:356-362 | Fails with MissingLayer without a Walls layer, and with MissingTile iff the key is absent. Otherwise it is the tile's render with x moved by w·lane + offsets.x, y moved by offsets.y, and every other field unchanged. |
| FauxRenderer.LanesAreAdjacent | mygame/app/faux_renderer.rb:359 | A corollary of `WallFromKey`'s x formula: lane n+1 exists iff lane n does, and starts exactly one fragment width right of lane n on the same y, so lanes tile a row without gap or overlap. |
| FauxRenderer.Visible | mygame/app/faux_renderer.rb:75-137 | The entries of a view table whose cell is a wall, in table order; never more entries than the table has. |
| FauxRenderer.VisibleMembers | mygame/app/faux_renderer.rb:75-137 | An entry is drawn iff it is in the table and its cell is a wall. |
| FauxRenderer.VisibleAppend | mygame/app/faux_renderer.rb:75-137 | The filter works piece by piece, so table order is kept. |
| FauxRenderer.Fragments | mygame/app/faux_renderer.rb:81-134 | Succeeds iff every visible entry has a fragment. Then there is one fragment per entry, in order. On failure, the error is that of the first entry without one. |
| FauxRenderer.FragmentsKeepFirstFailure | mygame/app/faux_renderer.rb:81-134 | After a failing entry, later entries do not change the result. |
| FauxRenderer.Renderer.RenderView | mygame/app/faux_renderer.rb:75-137 | The `each`/`<<` loop over a table returns `Fragments` of the visible entries, stopping at the first missing fragment. |
| FauxRenderer.Renderer.RenderWalls | mygame/app/faux_renderer.rb:57-67 | Returns the view of the table for `orientation % 4`. |
| FauxRenderer.WallCommandsBounded | mygame/app/faux_renderer.rb:75-137 | `WallCommands` (what `render_walls` returns) holds at most 23 commands, and none when no looked-at cell is a wall. |
| FauxRenderer.WallCommandsFullTurn | mygame/app/faux_renderer.rb:59 | Facings 4 apart draw the same walls. |
| FauxRenderer.CompleteAtlasDrawsEveryVisibleWall | mygame/app/faux_renderer.rb:57-67 | If the Walls layer has every key of the view, rendering never fails and draws each visible entry's fragment, in table order. |
| FauxRenderer.WallInViewIsDrawn | mygame/app/faux_renderer.rb:57-67 | With a complete atlas, a wall cell in view makes the frame's wall list non-empty and contains that entry. |
| FauxRenderer.WestEdgeSeesFullStrip | mygame/app/faux_renderer.rb:284-296 | Facing West from column 0, every entry looking left of the map is drawn, including the whole far front strip. |
| Game.RotateLeft | mygame/app/game.rb:56-58 | Q: the result is in 0..3 and is one quarter before the old facing, mod 4. |
| Game.RotateRight | mygame/app/game.rb:60-62 | E: the result is in 0..3 and is one quarter after the old facing, mod 4. |
| Game.TurnsUndoEachOther | mygame/app/game.rb:56-62 | Q then E, or E then Q, restores the facing mod 4. |
| Game.FourRightTurnsAreIdentity | mygame/app/game.rb:60-62 | Four presses of E restore the facing mod 4. |
| Game.Forward | mygame/app/game.rb:65-70 | The forward vector is a unit cardinal vector. |
| Game.LeftOf | mygame/app/game.rb:72-77 | The left vector is a unit cardinal vector. |
| Game.LeftIsForwardAfterQ | mygame/app/game.rb:65-77 | left = (f.y, -f.x), which is the forward vector after a Q turn. |
| Game.MovementMatchesView | mygame/app/game.rb:65-77 | Forward and left are North's (0,-1) and (-1,0) turned as the view tables are. Table entry 19 (`front_0_-1`, lane 0) looks at the cell W moves into. |
| Game.ValidMoveIsOpenCell | mygame/app/game.rb:172-176 | `ValidMove` (`valid_move?`) holds exactly where `is_wall?` does not, and only on rows Ruby can index. |
| Game.MoveTo | mygame/app/game.rb:157-162 | The player goes to the target iff the move is valid (or is already there); otherwise it stays. The facing never changes. |
| Game.SingleKeyStep | mygame/app/game.rb:65-102 | With one movement key down and no Q or E, `Step` (the key handling of `input`) moves the player one cell along the forward vector (W), its negation (S), the left vector (A) or its negation (D). It moves exactly when `ValidMove` holds for that cell; otherwise the player state is unchanged. |
| Game.GameState.MoveIfPressed | mygame/app/game.rb:80-102 | One key block: changes only the player, to a `move_player` attempt by the key's vector if the key is pressed, and not at all otherwise. |
| Game.GameState.MovePlayer | mygame/app/game.rb:157-162 | Changes only the player, to `MoveTo` of the old player. |
| Game.TryMoveWithin | mygame/app/game.rb:80-102 | One key moves the player at most one cell on each axis; an unpressed key moves it not at all. |
| Game.StepStaysOnOpenCells | mygame/app/game.rb:80-102 | A player on an open cell is on an open cell after any combination of keys. |
| Game.TurningDoesNotMove | mygame/app/game.rb:56-62 | Q and E alone never move the player; Q and E together cancel. |
| Game.StepMovesByKeyVectors | mygame/app/game.rb:80-102 | The position changes by at most the number of movement keys pressed, on each axis. |
| Game.ForwardThenBack | mygame/app/game.rb:80-90 | W and S together: if ahead is open the player ends where it started; otherwise it steps back if that cell is open. |
| Game.WallAheadBlocksForward | mygame/app/game.rb:80-84 | If the view draws a wall straight ahead, W does not move the player. |
| Game.GameState.HandleKeys | mygame/app/game.rb:53-102 | Changes only the player, to `Step` of the old player: the turn first, the vectors of the new facing, then W, S, A and D in order. |
| Game.PlayerIcon | mygame/app/game.rb:179-184 | The icon is `"^>v<"[orientation % 4]`: `^` for 0 (North), `>` for 1 (East), `v` for 2 (South) and `<` for 3 (West). |
| Game.PlayerIconShowsFacing | mygame/app/game.rb:179-184 | Two facings share an icon iff they are equal mod 4. |
| Game.GridWithPlayer | mygame/app/game.rb:186-195 | Fails (IndexError) iff the player's row exists and x < -row size. Otherwise every other row is unchanged, the row count is kept, and the player's row is `SetChar(row, x, PlayerIcon)`. That includes Ruby's padding past the end and its counting from the end for negative x. |
| Game.GridShowsPlayer | mygame/app/game.rb:186-195 | On a map cell, only that cell changes, to the icon; every row keeps its length. |
| Game.GameState.DrawGridWithPlayer | mygame/app/game.rb:178-195 | The `each_with_index` loop returns `GridWithPlayer` of the current map and player. |
| Game.FrameOf | mygame/app/game.rb:104-125 | A frame succeeds iff the overlay and all three renders succeed. Its grid is the overlay, its floor and ceiling are `render_floor`'s and `render_ceiling`'s output, and its walls are `render_walls`' output. Otherwise the first failing step, in the order grid, floor, ceiling, walls, gives the error. |
| Game.GameState.DrawFrame | mygame/app/game.rb:104-125 | Computes the grid, then floor, ceiling and walls, stopping at the first error: exactly `FrameOf`. |
| Game.GameState.Input | mygame/app/game.rb:53-148 | Moves the player by `Step` and returns the frame for the new position. |
| Game.GameState.Init | mygame/app/game.rb:33-48 | The fixed map, the offsets (480, 232), the start (2, 1) facing West, and a renderer over the atlas built from the given description on the 528x476 sheet `sprites/untitled_fog.png`. |
| Game.InitialFrameWalls | mygame/app/game.rb:34-47 | From the start position, facing West, the view always contains a wall, whatever the map. With a complete atlas, each visible entry gets one command. |
| Game.WrappedRowsAsWritten | mygame/app/faux_renderer.rb:48 | As written, a cell above the map reads a row from the bottom. Facing North from the start, view entry 6 looks at (5, -2), which reads row 6 and is open. On a two-row map, `valid_move?(1, -1)` holds. |
| Game.IsWallInside | mygame/app/faux_renderer.rb:42-50 | The corrected check: every cell outside the map is a wall; inside, `#` is a wall. |
| Game.ValidMoveInside | mygame/app/game.rb:164-176 | The corrected check: valid iff inside the map and not `#`, i.e. exactly where `IsWallInside` is false. |
| Game.CorrectedAgreesFromRowZero | mygame/app/game.rb:172-176 | For y >= 0, the corrected and the written checks agree. |
| Game.ClosedMapNeverWraps | mygame/app/game.rb:80-102 | On a map whose top row is all wall, a player below row 0 never reaches a negative row. |
| Game.InitialMapIsClosed | mygame/app/game.rb:37-47 | The game's map is closed at the top, and the start cell is open. |

## Left out

- `main.rb` (`boot`, `tick`, `reset` around the `$game` global) and the
  `$gtk.reset` lines: engine glue with no logic of its own.
- `AtlasMapper.load_from_file`: it reads JSON through
  `$gtk.parse_json_file`, a foreign call. The parsed description is a
  parameter (`AtlasData`), and `GameState.Init` builds the atlas from it.
- `Game#tick`, `render` and `update`: empty or pure dispatch.
- `init`'s `||=` runs only on the first tick; `GameState.Init` models that
  first run.
- Keyboard polling: each key is a boolean in `Keys`.
- The debug labels, the border and the three solid rectangles that
  `input` pushes (game.rb:106-121, 127-147): fixed screen output. The
  label coordinates that `draw_grid_with_player` gives each row are left
  out too; the rows themselves are modelled.
- The `to_s` formatters, and the layer and atlas metadata that nothing
  reads (`on`, `index`, `id`, `scale`, `offset`, `version`, ...).
- Ruby values of the wrong type in the JSON (a non-integer coordinate, a
  non-boolean `flipped`): fields are typed, and `flipped` is a `bool`.
- Layer types are symbols in Ruby (`to_sym`). Here they are strings;
  the lookup behaves the same.
- Game.InitialFrameWalls: proves that the first frame draws at least one
  wall on any map. It does not prove the exact number on the game's own
  map; that needs the 23 table cells evaluated on literal data, which is
  too slow for the verifier.

## Findings

A negative row index wraps in `is_wall?` and `valid_move?`. The comment at
game.rb:164-167 says a valid move must be "within the bounds of the map",
and `is_wall?` is meant to treat everything off the map as wall. Both guard
only `map[y]` being nil, so a `y` between `-len` and `-1` reads row
`len + y`.

The main model keeps this written behaviour: `RubyIndex` is used in
`FauxRenderer.IsWall` and `Game.ValidMove`. The corrected checks are
proved alongside it.

On the game's own map the top row is all wall, so the player can never
reach a negative row (`ClosedMapNeverWraps`, `InitialMapIsClosed`). The
renderer still looks up to three rows above the player, and there the
wrap shows.

| source | as written | input that shows it | evidently intended | confidence | as-written member | corrected member |
|---|---|---|---|---|---|---|
| mygame/app/faux_renderer.rb:48, mygame/app/game.rb:174 | `map[y]` with -len <= y < 0 returns row len + y, so a cell above the map is read from the bottom rows | start (2, 1) facing North: entry 6 looks at (5, -2), which reads row 6 (`.`), so no wall is drawn there; `valid_move?(1, -1, ["#.#", "#.#"])` is true | any y outside 0...len is a wall and not a valid move | not executed | Game.WrappedRowsAsWritten (on FauxRenderer.IsWall, Game.ValidMove) | Game.IsWallInside, Game.ValidMoveInside, with Game.CorrectedAgreesFromRowZero |
