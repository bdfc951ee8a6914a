/** The FauxRenderer of faux_renderer.rb: it turns the atlas and the map
    around the player into the list of sprites the engine draws, the floor
    and ceiling layers as they are and one wall fragment for every wall
    cell the player's view table looks at. */
module FauxRenderer {

  import opened Ruby
  import opened Grid
  import opened AtlasMapper
  import opened ViewTables

  /** `offsets`: where the 320x256 view sits on the screen. */
  datatype Offsets = Offsets(x: int, y: int)

  /** What makes a render call raise: `nil.tiles` when the atlas has no
      layer of that type, `nil.render` when the Walls layer has no tile
      under that key (both NoMethodError in Ruby). */
  datatype RenderError = MissingLayer(kind: string) | MissingTile(key: string)

  const FloorLayer: string := "Floor"
  const CeilingLayer: string := "Ceiling"
  const WallsLayer: string := "Walls"

  /** A draw command moved by (dx, dy) and otherwise unchanged. */
  function Translate(c: DrawCommand, dx: int, dy: int): (r: DrawCommand)
    ensures r.x - c.x == dx && r.y - c.y == dy
    ensures r.(x := c.x, y := c.y) == c
  {
    c.(x := c.x + dx, y := c.y + dy)
  }

  // ---------------------------------------------------------------------
  // Floor and ceiling

  /** The command one stored tile renders to, moved by the offsets. */
  function TileCommand(t: Tile, off: Offsets): (c: DrawCommand)
    ensures c.x == Render(t).x + off.x
    ensures c.y + c.h + t.screenY == CanvasHeight + off.y
    ensures c.(x := Render(t).x, y := Render(t).y) == Render(t)
  {
    Translate(Render(t), off.x, off.y)
  }

  /** What `render_floor` / `render_ceiling` return for the layer of type
      `kind`: one command per stored tile, in the Hash's key order. */
  function LayerCommands(a: Atlas, kind: string, off: Offsets): (r: Result<seq<DrawCommand>, RenderError>)
    ensures r.Failure? <==> kind !in a.layers.values
    ensures r.Failure? ==> r.error == MissingLayer(kind)
    ensures r.Success? ==>
      var tiles := a.layers.values[kind].tiles;
      |r.value| == |tiles.keys| &&
      forall i :: 0 <= i < |tiles.keys| ==> r.value[i] == TileCommand(tiles.values[tiles.keys[i]], off)
  {
    if kind !in a.layers.values then Failure(MissingLayer(kind))
    else
      var tiles := a.layers.values[kind].tiles;
      Success(seq(|tiles.keys|, i requires 0 <= i < |tiles.keys| => TileCommand(tiles.values[tiles.keys[i]], off)))
  }

  /** Loaded from a description whose layers of type `kind` do not repeat a
      cell, the last such layer is drawn tile by tile in file order. */
  lemma LayerDrawsEveryTile(ad: AtlasData, img: AtlasImage, i: int, off: Offsets)
    requires 0 <= i < |ad.layers|
    requires forall j :: i < j < |ad.layers| ==> ad.layers[j].kind != ad.layers[i].kind
    requires forall p, q :: 0 <= p < q < |ad.layers[i].tiles| ==>
      KeyOf(NewTile(ad.layers[i].tiles[p], img)) != KeyOf(NewTile(ad.layers[i].tiles[q], img))
    ensures var r := LayerCommands(AtlasOf(ad, img), ad.layers[i].kind, off);
      r.Success? && |r.value| == |ad.layers[i].tiles| &&
      forall p :: 0 <= p < |r.value| ==> r.value[p] == TileCommand(NewTile(ad.layers[i].tiles[p], img), off)
  {
    var ld := ad.layers[i];
    AtlasLastLayerWins(ad, img, i);
    LayerKeepsDistinctCells(ld, img);
    var tiles := LayerOf(ld, img).tiles;
    var r := LayerCommands(AtlasOf(ad, img), ld.kind, off);
    forall p | 0 <= p < |r.value|
      ensures r.value[p] == TileCommand(NewTile(ld.tiles[p], img), off)
    {
      assert tiles.keys[p] == KeyOf(NewTile(ld.tiles[p], img));
    }
  }

  // ---------------------------------------------------------------------
  // Walls

  /** `is_wall?`: a cell is a wall unless `map[y]` is a row (Ruby reads a
      negative y from the bottom of the map), x lies inside that row, and
      the character there is not `#`. */
  function IsWall(p: Position, m: GameMap): (b: bool)
    ensures 0 <= p.y < |m| && 0 <= p.x < |m[p.y]| ==> (b <==> m[p.y][p.x] == Wall)
    ensures p.y >= |m| || p.y < -|m| ==> b
    ensures 0 <= p.y < |m| && !(0 <= p.x < |m[p.y]|) ==> b
    ensures -|m| <= p.y < 0 ==> (b <==> !(0 <= p.x < |m[p.y + |m|]|) || m[p.y + |m|][p.x] == Wall)
  {
    match RubyIndex(m, p.y)
    case None => true
    case Some(row) => !(0 <= p.x < |row|) || row[p.x] == Wall
  }

  /** `wall_from_key`: the Walls tile under `key`, shifted `lane` tile
      widths sideways, then moved by the offsets. */
  function WallFromKey(a: Atlas, key: string, off: Offsets, lane: int): (r: Result<DrawCommand, RenderError>)
    ensures r.Failure? <==> WallsLayer !in a.layers.values || key !in a.layers.values[WallsLayer].tiles.values
    ensures WallsLayer !in a.layers.values ==> r == Failure(MissingLayer(WallsLayer))
    ensures r.Failure? && WallsLayer in a.layers.values ==> r.error == MissingTile(key)
    ensures r.Success? ==>
      var c := Render(a.layers.values[WallsLayer].tiles.values[key]);
      r.value.x == c.x + c.w * lane + off.x && r.value.y == c.y + off.y &&
      r.value.(x := c.x, y := c.y) == c
  {
    if WallsLayer !in a.layers.values then Failure(MissingLayer(WallsLayer))
    else
      var tiles := a.layers.values[WallsLayer].tiles;
      if key !in tiles.values then Failure(MissingTile(key))
      else
        var c := Render(tiles.values[key]);
        Success(c.(x := c.x + c.w * lane + off.x, y := c.y + off.y))
  }

  /** Lanes tile a row of fragments without gap or overlap: the fragment
      in lane n + 1 starts exactly one fragment width right of lane n. */
  lemma LanesAreAdjacent(a: Atlas, key: string, off: Offsets, lane: int)
    ensures WallFromKey(a, key, off, lane + 1).Success? <==> WallFromKey(a, key, off, lane).Success?
    ensures WallFromKey(a, key, off, lane).Success? ==>
      var (l, r) := (WallFromKey(a, key, off, lane).value, WallFromKey(a, key, off, lane + 1).value);
      r.x == l.x + l.w && r.y == l.y
    ensures WallFromKey(a, key, off, 0).Success? ==>
      WallFromKey(a, key, off, 0).value.x == Render(a.layers.values[WallsLayer].tiles.values[key]).x + off.x
  {
    if WallFromKey(a, key, off, lane).Success? {
      var c := Render(a.layers.values[WallsLayer].tiles.values[key]);
      assert c.w * (lane + 1) == c.w * lane + c.w;
    }
  }

  /** The map cell an entry looks at, for a player at (x, y). */
  function Cell(x: int, y: int, e: Entry): Position {
    Position(x + e.dx, y + e.dz)
  }

  /** The entries of `t` whose cell is a wall, in table order. */
  function Visible(t: seq<Entry>, m: GameMap, x: int, y: int): (v: seq<Entry>)
    ensures |v| <= |t|
  {
    if t == [] then []
    else
      var n := |t| - 1;
      var init := Visible(t[..n], m, x, y);
      if IsWall(Cell(x, y, t[n]), m) then init + [t[n]] else init
  }

  /** An entry is visible iff it is in the table and its cell is a wall. */
  lemma {:induction false} VisibleMembers(t: seq<Entry>, m: GameMap, x: int, y: int, e: Entry)
    ensures e in Visible(t, m, x, y) <==> e in t && IsWall(Cell(x, y, e), m)
  {
    if t != [] {
      var n := |t| - 1;
      VisibleMembers(t[..n], m, x, y, e);
      assert t == t[..n] + [t[n]];
    }
  }

  /** Filtering a table piece by piece is filtering it whole; in particular
      Visible keeps the table's order. */
  lemma {:induction false} VisibleAppend(t1: seq<Entry>, t2: seq<Entry>, m: GameMap, x: int, y: int)
    ensures Visible(t1 + t2, m, x, y) == Visible(t1, m, x, y) + Visible(t2, m, x, y)
    decreases |t2|
  {
    if t2 != [] {
      var n := |t2| - 1;
      VisibleAppend(t1, t2[..n], m, x, y);
      assert (t1 + t2)[..|t1 + t2| - 1] == t1 + t2[..n];
    } else {
      assert t1 + t2 == t1;
    }
  }

  /** The fragment one table entry draws. */
  function WallOf(a: Atlas, off: Offsets, e: Entry): Result<DrawCommand, RenderError> {
    WallFromKey(a, e.key, off, e.lane)
  }

  /** The fragments for a list of visible entries, or the error of the
      first one that has no fragment (the source raises there). */
  function Fragments(a: Atlas, es: seq<Entry>, off: Offsets): (r: Result<seq<DrawCommand>, RenderError>)
    ensures r.Success? <==> (forall i :: 0 <= i < |es| ==> WallOf(a, off, es[i]).Success?)
    ensures r.Success? ==> |r.value| == |es|
    ensures r.Success? ==> (forall i :: 0 <= i < |es| ==> r.value[i] == WallOf(a, off, es[i]).value)
    ensures r.Failure? ==> (exists i :: 0 <= i < |es| && FirstFailure(a, off, es, i) && WallOf(a, off, es[i]) == Failure(r.error))
  {
    if es == [] then Success([])
    else
      var n := |es| - 1;
      var init := es[..n];
      assert forall i :: 0 <= i < n ==> init[i] == es[i];
      match Fragments(a, init, off)
      case Failure(err) =>
        var i :| 0 <= i < n && FirstFailure(a, off, init, i) && WallOf(a, off, init[i]) == Failure(err);
        assert FirstFailure(a, off, es, i);
        Failure(err)
      case Success(cs) =>
        match WallOf(a, off, es[n])
        case Failure(err) =>
          assert FirstFailure(a, off, es, n);
          Failure(err)
        case Success(c) => Success(cs + [c])
  }

  /** Entry `i` is the first of `es` without a fragment. */
  predicate FirstFailure(a: Atlas, off: Offsets, es: seq<Entry>, i: int)
    requires 0 <= i < |es|
  {
    WallOf(a, off, es[i]).Failure? && forall j :: 0 <= j < i ==> WallOf(a, off, es[j]).Success?
  }

  /** Once an entry has failed, nothing after it matters. */
  lemma {:induction false} FragmentsKeepFirstFailure(a: Atlas, es1: seq<Entry>, es2: seq<Entry>, off: Offsets)
    requires Fragments(a, es1, off).Failure?
    ensures Fragments(a, es1 + es2, off) == Fragments(a, es1, off)
    decreases |es2|
  {
    if es2 != [] {
      var n := |es2| - 1;
      FragmentsKeepFirstFailure(a, es1, es2[..n], off);
      assert (es1 + es2)[..|es1 + es2| - 1] == es1 + es2[..n];
    } else {
      assert es1 + es2 == es1;
    }
  }

  /** One more table entry: it is kept iff its cell is a wall. */
  lemma VisibleStep(t: seq<Entry>, i: int, m: GameMap, x: int, y: int)
    requires 0 <= i < |t|
    ensures Visible(t[..i + 1], m, x, y) ==
      Visible(t[..i], m, x, y) + (if IsWall(Cell(x, y, t[i]), m) then [t[i]] else [])
  {
    assert t[..i + 1][..i] == t[..i];
  }

  /** One more visible entry after a prefix that drew fine: its fragment is
      appended, or its error becomes the result. */
  lemma FragmentsStep(a: Atlas, es: seq<Entry>, e: Entry, off: Offsets, out: seq<DrawCommand>)
    requires Fragments(a, es, off) == Success(out)
    ensures WallOf(a, off, e).Success? ==> Fragments(a, es + [e], off) == Success(out + [WallOf(a, off, e).value])
    ensures WallOf(a, off, e).Failure? ==> Fragments(a, es + [e], off) == Failure(WallOf(a, off, e).error)
  {
    assert (es + [e])[..|es|] == es;
  }

  /** A visible entry without a fragment, after a prefix that drew fine,
      decides the whole view. */
  lemma FailureStopsView(a: Atlas, t: seq<Entry>, i: int, off: Offsets, m: GameMap, x: int, y: int)
    requires 0 <= i < |t|
    requires Fragments(a, Visible(t[..i + 1], m, x, y), off).Failure?
    ensures Fragments(a, Visible(t, m, x, y), off) == Fragments(a, Visible(t[..i + 1], m, x, y), off)
  {
    var front, back := t[..i + 1], t[i + 1..];
    assert front + back == t;
    VisibleAppend(front, back, m, x, y);
    var seen, rest := Visible(front, m, x, y), Visible(back, m, x, y);
    assert Visible(t, m, x, y) == seen + rest;
    FragmentsKeepFirstFailure(a, seen, rest, off);
  }

  /** One more table entry of the loop in `render_walls`: a cell that is
      not a wall changes nothing, a wall appends its fragment, and a wall
      without a fragment decides the whole view. */
  lemma ViewStep(a: Atlas, t: seq<Entry>, i: int, off: Offsets, m: GameMap, x: int, y: int, out: seq<DrawCommand>)
    requires 0 <= i < |t|
    requires Fragments(a, Visible(t[..i], m, x, y), off) == Success(out)
    ensures !IsWall(Cell(x, y, t[i]), m) ==> Fragments(a, Visible(t[..i + 1], m, x, y), off) == Success(out)
    ensures IsWall(Cell(x, y, t[i]), m) && WallOf(a, off, t[i]).Success? ==>
      Fragments(a, Visible(t[..i + 1], m, x, y), off) == Success(out + [WallOf(a, off, t[i]).value])
    ensures IsWall(Cell(x, y, t[i]), m) && WallOf(a, off, t[i]).Failure? ==>
      Fragments(a, Visible(t, m, x, y), off) == Failure(WallOf(a, off, t[i]).error)
  {
    var seen, e := Visible(t[..i], m, x, y), t[i];
    VisibleStep(t, i, m, x, y);
    if IsWall(Cell(x, y, e), m) {
      assert Visible(t[..i + 1], m, x, y) == seen + [e];
      FragmentsStep(a, seen, e, off, out);
      if WallOf(a, off, e).Failure? {
        FailureStopsView(a, t, i, off, m, x, y);
      }
    } else {
      assert Visible(t[..i + 1], m, x, y) == seen;
    }
  }

  /** What `render_walls` returns for a player at (x, y) facing `o`. */
  function WallCommands(a: Atlas, off: Offsets, m: GameMap, p: PlayerState): Result<seq<DrawCommand>, RenderError> {
    Fragments(a, Visible(TableFor(p.orientation % 4), m, p.x, p.y), off)
  }

  /** Every wall command is one of the player's 23 view entries, and with
      no wall in view nothing is drawn. */
  lemma WallCommandsBounded(a: Atlas, off: Offsets, m: GameMap, p: PlayerState)
    ensures var r := WallCommands(a, off, m, p);
      r.Success? ==> |r.value| <= 23
    ensures (forall i :: 0 <= i < 23 ==> !IsWall(Cell(p.x, p.y, TableFor(p.orientation % 4)[i]), m)) ==>
      WallCommands(a, off, m, p) == Success([])
  {
    var t := TableFor(p.orientation % 4);
    var v := Visible(t, m, p.x, p.y);
    if v != [] {
      VisibleMembers(t, m, p.x, p.y, v[0]);
    }
  }

  /** A facing counts mod 4: turning a full circle draws the same walls. */
  lemma WallCommandsFullTurn(a: Atlas, off: Offsets, m: GameMap, p: PlayerState)
    ensures WallCommands(a, off, m, p.(orientation := p.orientation + 4)) == WallCommands(a, off, m, p)
    ensures WallCommands(a, off, m, p.(orientation := p.orientation - 4)) == WallCommands(a, off, m, p)
  {
    assert (p.orientation + 4) % 4 == p.orientation % 4;
    assert (p.orientation - 4) % 4 == p.orientation % 4;
  }

  /** The atlas has a Walls fragment for every key the player's view
      table may ask for. */
  predicate HasViewKeys(a: Atlas, o: int)
    requires 0 <= o < 4
  {
    WallsLayer in a.layers.values &&
    forall i :: 0 <= i < 23 ==> TableFor(o)[i].key in a.layers.values[WallsLayer].tiles.values
  }

  /** With every fragment present the walls never fail, and there is one
      command per visible entry, each that entry's shifted fragment. */
  lemma CompleteAtlasDrawsEveryVisibleWall(a: Atlas, off: Offsets, m: GameMap, p: PlayerState)
    requires HasViewKeys(a, p.orientation % 4)
    ensures var v := Visible(TableFor(p.orientation % 4), m, p.x, p.y);
      var r := WallCommands(a, off, m, p);
      r.Success? && |r.value| == |v| && forall i :: 0 <= i < |v| ==> r.value[i] == WallOf(a, off, v[i]).value
  {
    var t := TableFor(p.orientation % 4);
    var v := Visible(t, m, p.x, p.y);
    forall i | 0 <= i < |v| ensures WallOf(a, off, v[i]).Success? {
      VisibleMembers(t, m, p.x, p.y, v[i]);
    }
  }

  /** A wall in view is drawn: the frame then holds at least one wall. */
  lemma WallInViewIsDrawn(a: Atlas, off: Offsets, m: GameMap, p: PlayerState, i: int)
    requires HasViewKeys(a, p.orientation % 4) && 0 <= i < 23
    requires IsWall(Cell(p.x, p.y, TableFor(p.orientation % 4)[i]), m)
    ensures var t := TableFor(p.orientation % 4);
      var v := Visible(t, m, p.x, p.y);
      var r := WallCommands(a, off, m, p);
      t[i] in v && r.Success? && |r.value| == |v| > 0
  {
    CompleteAtlasDrawsEveryVisibleWall(a, off, m, p);
    var t := TableFor(p.orientation % 4);
    VisibleMembers(t, m, p.x, p.y, t[i]);
  }

  /** A player on column 0 facing West has nothing but the outside of the
      map to its left: every entry that looks at a lower x is drawn, which
      includes the whole far front strip. */
  lemma WestEdgeSeesFullStrip(m: GameMap, y: int)
    ensures forall e :: e in WestTable && e.dx < 0 ==> e in Visible(WestTable, m, 0, y)
    ensures forall i :: 0 <= i < 7 ==> WestTable[i] in Visible(WestTable, m, 0, y) && WestTable[i].key == "front_0_-3"
  {
    forall e | e in WestTable && e.dx < 0 ensures e in Visible(WestTable, m, 0, y) {
      VisibleMembers(WestTable, m, 0, y, e);
    }
    forall i | 0 <= i < 7 ensures WestTable[i] in Visible(WestTable, m, 0, y) && WestTable[i].key == "front_0_-3" {
      WestFarStrip(i);
      assert WestTable[i] in WestTable;
    }
  }

  /** The first seven West entries are the far front strip, one column to
      the left of each other on x = -3. */
  lemma WestFarStrip(i: int)
    requires 0 <= i < 7
    ensures WestTable[i].dx == -3 && WestTable[i].key == "front_0_-3"
  {
    assert i == 0 || i == 1 || i == 2 || i == 3 || i == 4 || i == 5 || i == 6;
  }

  /** The renderer object: it holds the atlas it was built with and never
      changes it. */
  class Renderer {
    const atlas: Atlas

    constructor (a: Atlas)
      ensures atlas == a
    {
      atlas := a;
    }

    /** The loop shared by `render_floor` and `render_ceiling`. */
    method RenderLayer(kind: string, off: Offsets) returns (r: Result<seq<DrawCommand>, RenderError>)
      ensures r == LayerCommands(atlas, kind, off)
    {
      if kind !in atlas.layers.values {
        return Failure(MissingLayer(kind));
      }
      var tiles := atlas.layers.values[kind].tiles;
      var out: seq<DrawCommand> := [];
      var i := 0;
      while i < |tiles.keys|
        invariant 0 <= i <= |tiles.keys|
        invariant |out| == i
        invariant forall j :: 0 <= j < i ==> out[j] == TileCommand(tiles.values[tiles.keys[j]], off)
      {
        var c := Render(tiles.values[tiles.keys[i]]);
        c := c.(x := c.x + off.x);
        c := c.(y := c.y + off.y);
        out := out + [c];
        i := i + 1;
      }
      assert out == LayerCommands(atlas, kind, off).value;
      r := Success(out);
    }

    /** `render_floor`. */
    method RenderFloor(off: Offsets) returns (r: Result<seq<DrawCommand>, RenderError>)
      ensures r == LayerCommands(atlas, FloorLayer, off)
    {
      r := RenderLayer(FloorLayer, off);
    }

    /** `render_ceiling`. */
    method RenderCeiling(off: Offsets) returns (r: Result<seq<DrawCommand>, RenderError>)
      ensures r == LayerCommands(atlas, CeilingLayer, off)
    {
      r := RenderLayer(CeilingLayer, off);
    }

    /** `render_view_north` and its three siblings: walk the table, and for
        every entry whose cell is a wall push its fragment, raising at the
        first fragment the atlas lacks. */
    method RenderView(t: seq<Entry>, off: Offsets, m: GameMap, x: int, y: int)
      returns (r: Result<seq<DrawCommand>, RenderError>)
      ensures r == Fragments(atlas, Visible(t, m, x, y), off)
    {
      var out: seq<DrawCommand> := [];
      var i := 0;
      while i < |t|
        invariant 0 <= i <= |t|
        invariant Fragments(atlas, Visible(t[..i], m, x, y), off) == Success(out)
      {
        ViewStep(atlas, t, i, off, m, x, y, out);
        if IsWall(Cell(x, y, t[i]), m) {
          var w := WallOf(atlas, off, t[i]);
          if w.Failure? {
            return Failure(w.error);
          }
          out := out + [w.value];
        }
        i := i + 1;
      }
      assert t[..|t|] == t;
      r := Success(out);
    }

    /** `render_walls`: the view for the player's facing, mod 4. */
    method RenderWalls(off: Offsets, m: GameMap, p: PlayerState) returns (r: Result<seq<DrawCommand>, RenderError>)
      ensures r == WallCommands(atlas, off, m, p)
    {
      r := RenderView(TableFor(p.orientation % 4), off, m, p.x, p.y);
    }
  }
}
