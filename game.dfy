/** The Game of game.rb: the fixed map, the player's cell and facing, the
    keyboard handling that turns and moves the player one cell at a time,
    and the text grid and sprite lists a frame is drawn from. */
module Game {

  import opened Ruby
  import opened Grid
  import opened AtlasMapper
  import opened ViewTables
  import opened FauxRenderer

  /** `state.map` as `init` sets it. */
  const InitialMap: GameMap := [
    "############",
    "#...#..#####",
    "#...##.#####",
    "#...##.#####",
    "#.........##",
    "#...#####.##",
    "#####.....##",
    "############"
  ]

  const InitialPlayer: PlayerState := PlayerState(2, 1, West)
  const InitialOffsets: Offsets := Offsets(480, 232)
  const AtlasSheet: AtlasImage := AtlasImage("sprites/untitled_fog.png", 528, 476)

  /** The keys `input` looks at that went down this frame. */
  datatype Keys = Keys(q: bool, e: bool, w: bool, s: bool, a: bool, d: bool)

  const NoKeys: Keys := Keys(false, false, false, false, false, false)

  // ---------------------------------------------------------------------
  // Turning

  /** Q: a quarter turn counterclockwise. */
  function RotateLeft(o: int): (r: int)
    ensures 0 <= r < 4 && (r + 1) % 4 == o % 4
  {
    (o - 1) % 4
  }

  /** E: a quarter turn clockwise. */
  function RotateRight(o: int): (r: int)
    ensures 0 <= r < 4 && (r + 3) % 4 == o % 4
  {
    (o + 1) % 4
  }

  /** Q then E, or E then Q, faces the way the player faced. */
  lemma TurnsUndoEachOther(o: int)
    ensures RotateRight(RotateLeft(o)) == o % 4
    ensures RotateLeft(RotateRight(o)) == o % 4
  {
  }

  /** Four presses of E come back to the same facing. */
  lemma FourRightTurnsAreIdentity(o: int)
    ensures RotateRight(RotateRight(RotateRight(RotateRight(o)))) == o % 4
  {
  }

  // ---------------------------------------------------------------------
  // Movement vectors

  /** `forward_vector`. */
  function Forward(o: int): (v: (int, int))
    ensures (v.0 == 0) != (v.1 == 0)
    ensures -1 <= v.0 <= 1 && -1 <= v.1 <= 1
  {
    var q := o % 4;
    if q == North then (0, -1)
    else if q == East then (1, 0)
    else if q == South then (0, 1)
    else (-1, 0)
  }

  /** `left_vector`. */
  function LeftOf(o: int): (v: (int, int))
    ensures (v.0 == 0) != (v.1 == 0)
    ensures -1 <= v.0 <= 1 && -1 <= v.1 <= 1
  {
    var q := o % 4;
    if q == North then (-1, 0)
    else if q == East then (0, -1)
    else if q == South then (1, 0)
    else (0, 1)
  }

  /** The two hand-written tables agree: left is forward turned a quarter
      counterclockwise, which is where the player faces after pressing Q. */
  lemma LeftIsForwardAfterQ(o: int)
    ensures LeftOf(o) == (Forward(o).1, -Forward(o).0)
    ensures LeftOf(o) == Forward(RotateLeft(o))
  {
  }

  /** Moving and drawing agree on what a facing means: the forward and left
      vectors are North's turned as the view tables are, and the view
      entry straight ahead (front_0_-1, lane 0) looks at the cell W moves
      into. */
  lemma MovementMatchesView(o: int)
    ensures Forward(o) == Turn(o, (0, -1))
    ensures LeftOf(o) == Turn(o, (-1, 0))
    ensures var e := TableFor(o % 4)[19];
      e.key == "front_0_-1" && e.lane == 0 && (e.dx, e.dz) == Forward(o)
  {
    TablesAreRotatedNorth(o % 4);
  }

  // ---------------------------------------------------------------------
  // Moving

  /** `valid_move?`: the cell must exist (a negative y counts rows from the
      bottom, as Ruby indexes arrays) and must not be a wall. */
  function ValidMove(x: int, y: int, m: GameMap): bool
  {
    match RubyIndex(m, y)
    case None => false
    case Some(row) => 0 <= x < |row| && row[x] != Wall
  }

  /** A move is valid exactly onto the cells the renderer does not draw as
      walls, and only onto rows Ruby can index. */
  lemma ValidMoveIsOpenCell(x: int, y: int, m: GameMap)
    ensures ValidMove(x, y, m) ==> -|m| <= y < |m|
    ensures ValidMove(x, y, m) <==> !IsWall(Position(x, y), m)
  {
  }

  /** `move_player`: the player goes to (x, y) if that move is valid and
      stays put otherwise; the facing never changes. */
  function MoveTo(p: PlayerState, x: int, y: int, m: GameMap): (q: PlayerState)
    ensures q.orientation == p.orientation
    ensures (q.x, q.y) == (x, y) || q == p
    ensures (q.x, q.y) == (x, y) <==> ValidMove(x, y, m) || (p.x, p.y) == (x, y)
  {
    if ValidMove(x, y, m) then p.(x := x, y := y) else p
  }

  /** The facing after Q and then E, each if pressed. */
  function Turned(o: int, k: Keys): int {
    var o1 := if k.q then RotateLeft(o) else o;
    if k.e then RotateRight(o1) else o1
  }

  /** One movement key: if pressed, try to move by `v`. */
  function TryMove(p: PlayerState, m: GameMap, pressed: bool, v: (int, int)): PlayerState {
    if pressed then MoveTo(p, p.x + v.0, p.y + v.1, m) else p
  }

  /** The player state after `input` has handled one frame's keys: Q and E
      turn first, the vectors are taken for the new facing, then W, S, A
      and D each try a one-cell move, in that order. */
  function Step(p: PlayerState, m: GameMap, k: Keys): PlayerState {
    var o := Turned(p.orientation, k);
    Moves(p.(orientation := o), m, k, Forward(o), LeftOf(o))
  }

  /** W, S, A and D in turn, with forward vector `f` and left vector `l`. */
  function Moves(p: PlayerState, m: GameMap, k: Keys, f: (int, int), l: (int, int)): PlayerState {
    TryMove(TryMove(TryMove(TryMove(p, m, k.w, f), m, k.s, (-f.0, -f.1)), m, k.a, l), m, k.d, (-l.0, -l.1))
  }

  /** Step, one key at a time. */
  lemma StepUnfolds(p: PlayerState, m: GameMap, k: Keys, o: int, f: (int, int), l: (int, int),
                    p1: PlayerState, p2: PlayerState, p3: PlayerState)
    requires o == Turned(p.orientation, k) && f == Forward(o) && l == LeftOf(o)
    requires p1 == TryMove(p.(orientation := o), m, k.w, f)
    requires p2 == TryMove(p1, m, k.s, (-f.0, -f.1))
    requires p3 == TryMove(p2, m, k.a, l)
    ensures Step(p, m, k) == TryMove(p3, m, k.d, (-l.0, -l.1))
  {
  }

  /** One movement key alone, without Q or E: W, S, A and D each try one
      move along the forward vector, its negation, the left vector or its
      negation; the player moves there exactly when that cell is a valid
      move, and is otherwise left as they were. */
  lemma SingleKeyStep(p: PlayerState, m: GameMap, k: Keys, v: (int, int))
    requires var (f, l) := (Forward(p.orientation), LeftOf(p.orientation));
      (k == NoKeys.(w := true) && v == f) || (k == NoKeys.(s := true) && v == (-f.0, -f.1)) ||
      (k == NoKeys.(a := true) && v == l) || (k == NoKeys.(d := true) && v == (-l.0, -l.1))
    ensures Step(p, m, k) ==
      if ValidMove(p.x + v.0, p.y + v.1, m) then p.(x := p.x + v.0, y := p.y + v.1) else p
  {
    assert Turned(p.orientation, k) == p.orientation;
    assert p.(orientation := p.orientation) == p;
  }

  /** A player standing on an open cell is on an open cell after any keys. */
  lemma StepStaysOnOpenCells(p: PlayerState, m: GameMap, k: Keys)
    requires !IsWall(Position(p.x, p.y), m)
    ensures var q := Step(p, m, k); !IsWall(Position(q.x, q.y), m)
  {
  }

  /** Without movement keys the player only turns; Q and E together cancel. */
  lemma TurningDoesNotMove(p: PlayerState, m: GameMap, q: bool, e: bool)
    ensures var r := Step(p, m, NoKeys.(q := q, e := e));
      r.x == p.x && r.y == p.y &&
      r.orientation == (if q && e then p.orientation % 4 else if q then RotateLeft(p.orientation)
                        else if e then RotateRight(p.orientation) else p.orientation)
  {
  }

  /** Each key moves the player by at most one cell along its vector. */
  lemma StepMovesByKeyVectors(p: PlayerState, m: GameMap, k: Keys)
    ensures var r := Step(p, m, k);
      var bound := (if k.w then 1 else 0) + (if k.s then 1 else 0) + (if k.a then 1 else 0) + (if k.d then 1 else 0);
      -bound <= r.x - p.x <= bound && -bound <= r.y - p.y <= bound
  {
    var o := Turned(p.orientation, k);
    var f, l := Forward(o), LeftOf(o);
    var p0 := p.(orientation := o);
    var p1 := TryMove(p0, m, k.w, f);
    var p2 := TryMove(p1, m, k.s, (-f.0, -f.1));
    var p3 := TryMove(p2, m, k.a, l);
    StepUnfolds(p, m, k, o, f, l, p1, p2, p3);
    TryMoveWithin(p0, m, k.w, f);
    TryMoveWithin(p1, m, k.s, (-f.0, -f.1));
    TryMoveWithin(p2, m, k.a, l);
    TryMoveWithin(p3, m, k.d, (-l.0, -l.1));
  }

  /** A pressed key moves the player by at most one cell on each axis, an
      unpressed one not at all. */
  lemma TryMoveWithin(p: PlayerState, m: GameMap, pressed: bool, v: (int, int))
    requires -1 <= v.0 <= 1 && -1 <= v.1 <= 1
    ensures var r := TryMove(p, m, pressed, v);
      var b := if pressed then 1 else 0;
      -b <= r.x - p.x <= b && -b <= r.y - p.y <= b
  {
  }

  /** W and S in the same frame from an open cell: the player steps ahead
      and back if the cell ahead is open, and otherwise steps back only if
      the cell behind is open. */
  lemma ForwardThenBack(p: PlayerState, m: GameMap)
    requires !IsWall(Position(p.x, p.y), m)
    ensures var r := Step(p, m, NoKeys.(w := true, s := true));
      var f := Forward(p.orientation);
      (ValidMove(p.x + f.0, p.y + f.1, m) ==> r.x == p.x && r.y == p.y) &&
      (!ValidMove(p.x + f.0, p.y + f.1, m) ==>
        (r.x, r.y) == (if ValidMove(p.x - f.0, p.y - f.1, m) then (p.x - f.0, p.y - f.1) else (p.x, p.y)))
  {
    var k := NoKeys.(w := true, s := true);
    var f, l := Forward(p.orientation), LeftOf(p.orientation);
    var p1 := MoveTo(p, p.x + f.0, p.y + f.1, m);
    ValidMoveIsOpenCell(p.x, p.y, m);
    WThenS(p, m, f, l);
    BackAfterForward(p, m, p1, f);
  }

  /** With only W and S pressed and no turn, a step is a move ahead and a
      move back from wherever that left the player. */
  lemma WThenS(p: PlayerState, m: GameMap, f: (int, int), l: (int, int))
    requires f == Forward(p.orientation) && l == LeftOf(p.orientation)
    ensures var p1 := MoveTo(p, p.x + f.0, p.y + f.1, m);
      Step(p, m, NoKeys.(w := true, s := true)) == MoveTo(p1, p1.x - f.0, p1.y - f.1, m)
  {
    var k := NoKeys.(w := true, s := true);
    assert Turned(p.orientation, k) == p.orientation;
    assert p.(orientation := p.orientation) == p;
  }

  /** Moving back by `f` after trying to move ahead by `f`. */
  lemma BackAfterForward(p: PlayerState, m: GameMap, p1: PlayerState, f: (int, int))
    requires ValidMove(p.x, p.y, m)
    requires p1 == MoveTo(p, p.x + f.0, p.y + f.1, m)
    ensures var p2 := MoveTo(p1, p1.x - f.0, p1.y - f.1, m);
      (ValidMove(p.x + f.0, p.y + f.1, m) ==> p2.x == p.x && p2.y == p.y) &&
      (!ValidMove(p.x + f.0, p.y + f.1, m) ==>
        (p2.x, p2.y) == (if ValidMove(p.x - f.0, p.y - f.1, m) then (p.x - f.0, p.y - f.1) else (p.x, p.y)))
  {
  }

  /** The wall the view draws straight ahead is the wall W bumps into. */
  lemma WallAheadBlocksForward(p: PlayerState, m: GameMap)
    requires IsWall(Cell(p.x, p.y, TableFor(p.orientation % 4)[19]), m)
    ensures var r := Step(p, m, NoKeys.(w := true)); r.x == p.x && r.y == p.y
  {
    MovementMatchesView(p.orientation);
    assert p.orientation % 4 % 4 == p.orientation % 4;
  }

  // ---------------------------------------------------------------------
  // The text grid

  /** The character `draw_grid_with_player` shows for a facing. */
  function PlayerIcon(o: int): (c: char)
    ensures c == "^>v<"[o % 4]
  {
    var q := o % 4;
    if q == 0 then '^' else if q == 1 then '>' else if q == 2 then 'v' else '<'
  }

  /** The icon tells the facing: two facings share an icon iff they are
      the same mod 4. */
  lemma PlayerIconShowsFacing(o1: int, o2: int)
    ensures PlayerIcon(o1) == PlayerIcon(o2) <==> o1 % 4 == o2 % 4
  {
  }

  /** The rows `draw_grid_with_player` labels: the map with the player's
      row rewritten through `row.chars[x] = icon`, or None where that
      assignment raises IndexError. */
  function GridWithPlayer(m: GameMap, p: PlayerState): (r: Option<seq<string>>)
    ensures r.None? <==> 0 <= p.y < |m| && p.x < -|m[p.y]|
    ensures r.Some? ==> |r.value| == |m| && forall i :: 0 <= i < |m| && i != p.y ==> r.value[i] == m[i]
    ensures r.Some? && 0 <= p.y < |m| ==>
      SetChar(m[p.y], p.x, PlayerIcon(p.orientation)).Some? &&
      r.value[p.y] == SetChar(m[p.y], p.x, PlayerIcon(p.orientation)).value
  {
    if 0 <= p.y < |m| then
      match SetChar(m[p.y], p.x, PlayerIcon(p.orientation))
      case None => None
      case Some(row) => Some(m[p.y := row])
    else Some(m)
  }

  /** On a cell of the map, the player's icon replaces exactly that cell. */
  lemma GridShowsPlayer(m: GameMap, p: PlayerState)
    requires 0 <= p.y < |m| && 0 <= p.x < |m[p.y]|
    ensures var r := GridWithPlayer(m, p);
      r.Some? && |r.value| == |m| &&
      (forall i :: 0 <= i < |m| ==> |r.value[i]| == |m[i]|) &&
      r.value[p.y][p.x] == PlayerIcon(p.orientation) &&
      forall i, j :: 0 <= i < |m| && 0 <= j < |m[i]| && (i, j) != (p.y, p.x) ==> r.value[i][j] == m[i][j]
  {
  }

  // ---------------------------------------------------------------------
  // A frame

  /** What a frame puts on screen besides the constant decoration. */
  datatype Frame = Frame(grid: seq<string>, floor: seq<DrawCommand>, ceiling: seq<DrawCommand>, walls: seq<DrawCommand>)

  /** Why a frame raises: the grid's IndexError, or a renderer error. */
  datatype FrameError = GridIndexError | RenderFailed(error: RenderError)

  /** The outputs `input` pushes after moving, in the order it computes
      them; the first step that raises ends the frame. */
  function FrameOf(a: Atlas, m: GameMap, off: Offsets, p: PlayerState): (r: Result<Frame, FrameError>)
    ensures r.Success? <==> (GridWithPlayer(m, p).Some? && LayerCommands(a, FloorLayer, off).Success? &&
                             LayerCommands(a, CeilingLayer, off).Success? && WallCommands(a, off, m, p).Success?)
    ensures r.Success? ==> Some(r.value.grid) == GridWithPlayer(m, p)
    ensures r.Success? ==> Success(r.value.floor) == LayerCommands(a, FloorLayer, off)
    ensures r.Success? ==> Success(r.value.ceiling) == LayerCommands(a, CeilingLayer, off)
    ensures r.Success? ==> Success(r.value.walls) == WallCommands(a, off, m, p)
    ensures GridWithPlayer(m, p).None? ==> r == Failure(GridIndexError)
    ensures (GridWithPlayer(m, p).Some? && LayerCommands(a, FloorLayer, off).Failure?) ==>
      r == Failure(RenderFailed(LayerCommands(a, FloorLayer, off).error))
    ensures (GridWithPlayer(m, p).Some? && LayerCommands(a, FloorLayer, off).Success? &&
             LayerCommands(a, CeilingLayer, off).Failure?) ==>
      r == Failure(RenderFailed(LayerCommands(a, CeilingLayer, off).error))
    ensures (GridWithPlayer(m, p).Some? && LayerCommands(a, FloorLayer, off).Success? &&
             LayerCommands(a, CeilingLayer, off).Success? && WallCommands(a, off, m, p).Failure?) ==>
      r == Failure(RenderFailed(WallCommands(a, off, m, p).error))
  {
    match GridWithPlayer(m, p)
    case None => Failure(GridIndexError)
    case Some(grid) =>
      match LayerCommands(a, FloorLayer, off)
      case Failure(err) => Failure(RenderFailed(err))
      case Success(floor) =>
        match LayerCommands(a, CeilingLayer, off)
        case Failure(err) => Failure(RenderFailed(err))
        case Success(ceiling) =>
          match WallCommands(a, off, m, p)
          case Failure(err) => Failure(RenderFailed(err))
          case Success(walls) => Success(Frame(grid, floor, ceiling, walls))
  }

  /** The first frame: from (2, 1) facing West the view is never empty,
      whatever the map, since the far-left cell of the far strip lies left
      of column 0; with a complete atlas there is one wall command per
      visible entry. */
  lemma InitialFrameWalls(a: Atlas, m: GameMap, p: PlayerState)
    requires p == InitialPlayer && HasViewKeys(a, West)
    ensures var v := Visible(WestTable, m, p.x, p.y);
      var r := WallCommands(a, InitialOffsets, m, p);
      WestTable[0] in v && r.Success? && |r.value| == |v| > 0
  {
    assert p.orientation % 4 == West;
    assert Cell(p.x, p.y, WestTable[0]).x < 0;
    WallInViewIsDrawn(a, InitialOffsets, m, p, 0);
  }

  /** The game object: a fixed map, offsets and renderer, and the player
      that `input` moves. */
  class GameState {
    const gameMap: GameMap
    const offset: Offsets
    const renderer: Renderer
    var player: PlayerState

    /** `init` on the first tick: the atlas is built over the 528x476
        sheet from the description `load_from_file` parses, which is
        passed in. */
    constructor Init(ad: AtlasData)
      ensures gameMap == InitialMap && offset == InitialOffsets && player == InitialPlayer
      ensures renderer.atlas == AtlasOf(ad, AtlasSheet)
    {
      var atlas := NewAtlas(ad, AtlasSheet);
      gameMap := InitialMap;
      offset := InitialOffsets;
      player := InitialPlayer;
      renderer := new Renderer(atlas);
    }

    /** `move_player`. */
    method MovePlayer(newX: int, newY: int)
      modifies this`player
      ensures player == MoveTo(old(player), newX, newY, gameMap)
    {
      if ValidMove(newX, newY, gameMap) {
        player := player.(x := newX);
        player := player.(y := newY);
      }
    }

    /** `draw_grid_with_player`: rebuild the gameMap row by row, writing the
        icon into the player's row. */
    method DrawGridWithPlayer() returns (r: Option<seq<string>>)
      ensures r == GridWithPlayer(gameMap, player)
    {
      var icon := PlayerIcon(player.orientation);
      var temp: seq<string> := [];
      var i := 0;
      while i < |gameMap|
        invariant 0 <= i <= |gameMap|
        invariant |temp| == i
        invariant forall j :: 0 <= j < i && j != player.y ==> temp[j] == gameMap[j]
        invariant 0 <= player.y < i ==>
          SetChar(gameMap[player.y], player.x, icon).Some? && temp[player.y] == SetChar(gameMap[player.y], player.x, icon).value
      {
        if i == player.y {
          var row := SetChar(gameMap[i], player.x, icon);
          if row.None? {
            return None;
          }
          temp := temp + [row.value];
        } else {
          temp := temp + [gameMap[i]];
        }
        i := i + 1;
      }
      assert 0 <= player.y < |gameMap| ==> temp == gameMap[player.y := SetChar(gameMap[player.y], player.x, icon).value];
      assert !(0 <= player.y < |gameMap|) ==> temp == gameMap;
      r := Some(temp);
    }

    /** `input`: turn, move, then produce the frame's grid and sprites. */
    method Input(keys: Keys) returns (r: Result<Frame, FrameError>)
      modifies this`player
      ensures player == Step(old(player), gameMap, keys)
      ensures r == FrameOf(renderer.atlas, gameMap, offset, player)
    {
      HandleKeys(keys);
      r := DrawFrame();
    }

    /** The first half of `input`: Q and E, then W, S, A and D. */
    method HandleKeys(keys: Keys)
      modifies this`player
      ensures player == Step(old(player), gameMap, keys)
    {
      if keys.q {
        player := player.(orientation := RotateLeft(player.orientation));
      }
      if keys.e {
        player := player.(orientation := RotateRight(player.orientation));
      }
      var f := Forward(player.orientation);
      var l := LeftOf(player.orientation);
      ghost var start := old(player);
      ghost var o := Turned(start.orientation, keys);
      assert player == start.(orientation := o);
      MoveIfPressed(keys.w, f);
      ghost var p1 := player;
      MoveIfPressed(keys.s, (-f.0, -f.1));
      ghost var p2 := player;
      MoveIfPressed(keys.a, l);
      ghost var p3 := player;
      MoveIfPressed(keys.d, (-l.0, -l.1));
      StepUnfolds(start, gameMap, keys, o, f, l, p1, p2, p3);
    }

    /** One `if inputs.keyboard.key_down.<key>` block of `input`. */
    method MoveIfPressed(pressed: bool, v: (int, int))
      modifies this`player
      ensures player == TryMove(old(player), gameMap, pressed, v)
    {
      if pressed {
        MovePlayer(player.x + v.0, player.y + v.1);
      }
    }

    /** The second half of `input`: the grid labels, then the floor,
        ceiling and wall sprites. */
    method DrawFrame() returns (r: Result<Frame, FrameError>)
      ensures r == FrameOf(renderer.atlas, gameMap, offset, player)
    {
      var grid := DrawGridWithPlayer();
      if grid.None? {
        return Failure(GridIndexError);
      }
      var floor := renderer.RenderFloor(offset);
      if floor.Failure? {
        return Failure(RenderFailed(floor.error));
      }
      var ceiling := renderer.RenderCeiling(offset);
      if ceiling.Failure? {
        return Failure(RenderFailed(ceiling.error));
      }
      var walls := renderer.RenderWalls(offset, gameMap, player);
      if walls.Failure? {
        return Failure(RenderFailed(walls.error));
      }
      r := Success(Frame(grid.value, floor.value, ceiling.value, walls.value));
    }
  }

  // ---------------------------------------------------------------------
  // Rows outside the map

  /** As written, a row index just above the map reads a row from the
      bottom: at the start position, facing North, the view looks two rows
      above the map at x = 5 and finds row 6's open cell there; and on a
      two-row map with an opening at the top, a step North out of the map
      is accepted. */
  lemma WrappedRowsAsWritten()
    ensures !IsWall(Position(InitialPlayer.x + 3, InitialPlayer.y - 3), InitialMap)
    ensures Cell(InitialPlayer.x, InitialPlayer.y, TableFor(North)[6]) == Position(5, -2)
    ensures ValidMove(1, -1, ["#.#", "#.#"])
  {
    assert InitialMap[6][5] == '.';
  }

  /** `is_wall?` with the bounds check `valid_move?`'s comment asks for:
      every cell outside the map is a wall. */
  function IsWallInside(p: Position, m: GameMap): (b: bool)
    ensures !(0 <= p.y < |m| && 0 <= p.x < |m[p.y]|) ==> b
    ensures 0 <= p.y < |m| && 0 <= p.x < |m[p.y]| ==> (b <==> m[p.y][p.x] == Wall)
  {
    !(0 <= p.y < |m| && 0 <= p.x < |m[p.y]|) || m[p.y][p.x] == Wall
  }

  /** `valid_move?` as its comment describes it: the new position is
      within the bounds of the map and not a wall. */
  function ValidMoveInside(x: int, y: int, m: GameMap): (b: bool)
    ensures b ==> 0 <= y < |m| && 0 <= x < |m[y]| && m[y][x] != Wall
    ensures b <==> !IsWallInside(Position(x, y), m)
  {
    0 <= y < |m| && 0 <= x < |m[y]| && m[y][x] != Wall
  }

  /** The corrected checks differ from the written ones only above the
      map. */
  lemma CorrectedAgreesFromRowZero(x: int, y: int, m: GameMap)
    requires y >= 0
    ensures ValidMoveInside(x, y, m) == ValidMove(x, y, m)
    ensures IsWallInside(Position(x, y), m) == IsWall(Position(x, y), m)
  {
  }

  /** The map's top row is all wall. */
  predicate ClosedAtTop(m: GameMap) {
    |m| > 0 && forall j :: 0 <= j < |m[0]| ==> m[0][j] == Wall
  }

  /** On a map closed at the top, a player below row 0 stays below row 0,
      so moving never meets the difference (rendering still does). */
  lemma ClosedMapNeverWraps(p: PlayerState, m: GameMap, k: Keys)
    requires ClosedAtTop(m) && p.y >= 1
    ensures Step(p, m, k).y >= 1
  {
  }

  /** The game's own map is closed at the top, and its start cell is open. */
  lemma InitialMapIsClosed()
    ensures ClosedAtTop(InitialMap)
    ensures !IsWall(Position(InitialPlayer.x, InitialPlayer.y), InitialMap)
  {
    assert InitialMap[0] == "############";
  }
}
