/** The sprite atlas of atlas_mapper.rb, as it stands once the JSON
    description has been parsed: tiles with their source rectangles in the
    atlas image, layers that key their tiles by "type_x_z", and the atlas
    that keys its layers by type. */
module AtlasMapper {
  import opened Ruby

  /** Height of the canvas every fragment is placed on (atlas_mapper.rb:29). */
  const CanvasHeight: int := 256

  /** The atlas image: `{ path:, w:, h: }`. */
  datatype AtlasImage = AtlasImage(path: string, w: int, h: int)

  datatype Rect = Rect(x: int, y: int, w: int, h: int)

  /** One entry of a layer's `tiles` list in the description file. */
  datatype TileData = TileData(
    kind: string,      // 'type', e.g. "front" or "side"
    flipped: bool,
    tileX: int,        // tile['x']
    tileZ: int,        // tile['z']
    screenX: int,      // screen['x']
    screenY: int,      // screen['y']
    coords: Rect)      // position in the atlas image, y measured from the top

  /** A Tile object: the fields read from its description, plus the source
      rectangle in the bottom-up coordinates the renderer samples with. */
  datatype Tile = Tile(
    kind: string, flipped: bool, tileX: int, tileZ: int,
    screenX: int, screenY: int, coords: Rect,
    atlasImage: AtlasImage,
    sourceX: int, sourceY: int, sourceW: int, sourceH: int, path: string)

  /** The render hash of a tile, and every draw command the renderer emits. */
  datatype DrawCommand = DrawCommand(
    x: int, y: int, w: int, h: int,
    sourceX: int, sourceY: int, sourceW: int, sourceH: int,
    path: string, flipHorizontally: bool)

  /** The description a tile was built from. */
  function DataOf(t: Tile): TileData {
    TileData(t.kind, t.flipped, t.tileX, t.tileZ, t.screenX, t.screenY, t.coords)
  }

  /** `Tile.new(tile_data, atlas_image)`. */
  function NewTile(d: TileData, img: AtlasImage): (t: Tile)
    ensures DataOf(t) == d && t.atlasImage == img && t.path == img.path
    ensures t.sourceX == d.coords.x && t.sourceW == d.coords.w && t.sourceH == d.coords.h
    // the Y flip is undone by the same formula: no information is lost
    ensures img.h - t.sourceY - t.sourceH == d.coords.y
    // a rectangle inside the image stays inside it after the flip
    ensures 0 <= d.coords.y && d.coords.y + d.coords.h <= img.h ==>
              0 <= t.sourceY && t.sourceY + t.sourceH <= img.h
  {
    Tile(d.kind, d.flipped, d.tileX, d.tileZ, d.screenX, d.screenY, d.coords,
         img, d.coords.x, img.h - d.coords.y - d.coords.h, d.coords.w, d.coords.h, img.path)
  }

  /** `tile.render`: where the fragment goes on the 256-pixel-high canvas.
      A mirrored fragment is anchored at its right edge, so it is shifted
      left by its width. */
  function Render(t: Tile): (r: DrawCommand)
    ensures r.w == t.coords.w && r.h == t.coords.h
    ensures r.sourceX == t.sourceX && r.sourceY == t.sourceY
    ensures r.sourceW == t.sourceW && r.sourceH == t.sourceH
    ensures r.path == t.path && r.flipHorizontally == t.flipped
    ensures t.flipped ==> r.x + t.sourceW == t.screenX
    ensures !t.flipped ==> r.x == t.screenX
    ensures r.y + r.h + t.screenY == CanvasHeight
  {
    var x := if t.flipped then t.screenX - t.sourceW else t.screenX;
    DrawCommand(x, CanvasHeight - t.screenY - t.coords.h, t.coords.w, t.coords.h,
                t.sourceX, t.sourceY, t.sourceW, t.sourceH, t.path, t.flipped)
  }

  // ---------------------------------------------------------------------
  // Tile keys

  /** `"#{type}_#{x}_#{z}"`. */
  function TileKey(kind: string, x: int, z: int): string {
    kind + "_" + IntToString(x) + "_" + IntToString(z)
  }

  function KeyOf(t: Tile): string {
    TileKey(t.kind, t.tileX, t.tileZ)
  }

  /** Number of characters after the last underscore of `s`. */
  function TailLength(s: string): nat {
    if s == [] || s[|s| - 1] == '_' then 0 else TailLength(s[..|s| - 1]) + 1
  }

  lemma {:induction false} TailLengthAfterUnderscore(a: string, b: string)
    requires '_' !in b
    ensures TailLength(a + "_" + b) == |b|
  {
    if b != [] {
      var n := |b| - 1;
      assert (a + "_" + b)[..|a + "_" + b| - 1] == a + "_" + b[..n];
      TailLengthAfterUnderscore(a, b[..n]);
    }
  }

  /** A string ending in "_" and an underscore-free tail splits only one way. */
  lemma SplitAtLastUnderscore(a: string, b: string, c: string, d: string)
    requires '_' !in b && '_' !in d
    requires a + "_" + b == c + "_" + d
    ensures a == c && b == d
  {
    var s := a + "_" + b;
    TailLengthAfterUnderscore(a, b);
    TailLengthAfterUnderscore(c, d);
    assert a == s[..|a|] && c == s[..|c|];
    assert b == s[|a| + 1..] && d == s[|c| + 1..];
  }

  /** The key names the tile's type and cell unambiguously, even when the
      type itself contains underscores: integers never print one. */
  lemma TileKeyInjective(k1: string, x1: int, z1: int, k2: string, x2: int, z2: int)
    requires TileKey(k1, x1, z1) == TileKey(k2, x2, z2)
    ensures k1 == k2 && x1 == x2 && z1 == z2
  {
    SplitAtLastUnderscore(k1 + "_" + IntToString(x1), IntToString(z1),
                          k2 + "_" + IntToString(x2), IntToString(z2));
    SplitAtLastUnderscore(k1, IntToString(x1), k2, IntToString(x2));
    IntToStringInjective(x1, x2);
    IntToStringInjective(z1, z2);
  }

  // ---------------------------------------------------------------------
  // Layers

  /** One entry of the description's `layers` list. The metadata the game
      never reads (on, index, id, scale, offset) is not kept. */
  datatype LayerData = LayerData(name: string, kind: string, tiles: seq<TileData>)

  datatype Layer = Layer(name: string, kind: string, tiles: Hash<Tile>, atlasImage: AtlasImage)

  /** The (key, tile) pairs a layer stores, in description order. */
  function TilePairs(ds: seq<TileData>, img: AtlasImage): (ps: seq<(string, Tile)>)
    ensures |ps| == |ds|
    ensures forall i :: 0 <= i < |ds| ==> ps[i] == (KeyOf(NewTile(ds[i], img)), NewTile(ds[i], img))
  {
    seq(|ds|, i requires 0 <= i < |ds| => (KeyOf(NewTile(ds[i], img)), NewTile(ds[i], img)))
  }

  /** The layer `Layer.new(layer_data, atlas_image)` builds. */
  function LayerOf(ld: LayerData, img: AtlasImage): Layer {
    Layer(ld.name, ld.kind, FromPairs(TilePairs(ld.tiles, img)), img)
  }

  /** `Layer.new`: stores every described tile under its key, in order. */
  method NewLayer(ld: LayerData, img: AtlasImage) returns (layer: Layer)
    ensures layer == LayerOf(ld, img)
  {
    ghost var ps := TilePairs(ld.tiles, img);
    var tiles := EmptyHash<Tile>();
    var i := 0;
    while i < |ld.tiles|
      invariant 0 <= i <= |ld.tiles|
      invariant tiles == FromPairs(ps[..i])
    {
      var tile := NewTile(ld.tiles[i], img);
      var key := KeyOf(tile);
      FromPairsPrefix(ps, i);
      tiles := Store(tiles, key, tile);
      i := i + 1;
    }
    assert ps[..i] == ps;
    layer := Layer(ld.name, ld.kind, tiles, img);
  }

  /** A layer holds a tile under a key iff some described tile has that
      type and cell, and it holds the last such tile. */
  lemma LayerTileKeys(ld: LayerData, img: AtlasImage, key: string)
    ensures key in LayerOf(ld, img).tiles.values <==>
              exists i :: 0 <= i < |ld.tiles| && TileKey(ld.tiles[i].kind, ld.tiles[i].tileX, ld.tiles[i].tileZ) == key
  {
    var ks := seq(|ld.tiles|, i requires 0 <= i < |ld.tiles| => TileKey(ld.tiles[i].kind, ld.tiles[i].tileX, ld.tiles[i].tileZ));
    var ps := TilePairs(ld.tiles, img);
    forall i | 0 <= i < |ps| ensures ps[i].0 == ks[i] {
      assert DataOf(NewTile(ld.tiles[i], img)) == ld.tiles[i];
    }
    FromPairsHasKey(ps, ks, key);
    if key in ks {
      var i :| 0 <= i < |ks| && ks[i] == key;
      assert TileKey(ld.tiles[i].kind, ld.tiles[i].tileX, ld.tiles[i].tileZ) == key;
    }
  }

  /** Of several tiles with the same type and cell, the last one described wins. */
  lemma LayerLastTileWins(ld: LayerData, img: AtlasImage, i: int)
    requires 0 <= i < |ld.tiles|
    requires forall j :: i < j < |ld.tiles| ==> KeyOf(NewTile(ld.tiles[j], img)) != KeyOf(NewTile(ld.tiles[i], img))
    ensures var key := KeyOf(NewTile(ld.tiles[i], img));
            key in LayerOf(ld, img).tiles.values && LayerOf(ld, img).tiles.values[key] == NewTile(ld.tiles[i], img)
  {
    FromPairsLast(TilePairs(ld.tiles, img), i);
  }

  /** A layer never holds more tiles than its description lists. */
  lemma LayerSize(ld: LayerData, img: AtlasImage)
    ensures |LayerOf(ld, img).tiles.keys| <= |ld.tiles|
  {
    FromPairsSize(TilePairs(ld.tiles, img));
  }

  /** When no two described tiles share type and cell, the layer keeps every
      tile, in description order. */
  lemma LayerKeepsDistinctCells(ld: LayerData, img: AtlasImage)
    requires forall i, j :: 0 <= i < j < |ld.tiles| ==>
               (ld.tiles[i].kind, ld.tiles[i].tileX, ld.tiles[i].tileZ) != (ld.tiles[j].kind, ld.tiles[j].tileX, ld.tiles[j].tileZ)
    ensures |LayerOf(ld, img).tiles.keys| == |ld.tiles|
    ensures forall i :: 0 <= i < |ld.tiles| ==>
              LayerOf(ld, img).tiles.keys[i] == KeyOf(NewTile(ld.tiles[i], img)) &&
              LayerOf(ld, img).tiles.values[KeyOf(NewTile(ld.tiles[i], img))] == NewTile(ld.tiles[i], img)
  {
    var ps := TilePairs(ld.tiles, img);
    forall i, j | 0 <= i < j < |ps| ensures KeySeq(ps)[i] != KeySeq(ps)[j] {
      var a, b := ld.tiles[i], ld.tiles[j];
      if TileKey(a.kind, a.tileX, a.tileZ) == TileKey(b.kind, b.tileX, b.tileZ) {
        TileKeyInjective(a.kind, a.tileX, a.tileZ, b.kind, b.tileX, b.tileZ);
      }
    }
    FromPairsDistinctKeys(ps);
    FromPairsDistinctValues(ps);
  }

  // ---------------------------------------------------------------------
  // The atlas

  /** The parsed description file. Its metadata (version, generated,
      resolution, depth, width) is never read by the game and is not kept. */
  datatype AtlasData = AtlasData(layers: seq<LayerData>)

  datatype Atlas = Atlas(layers: Hash<Layer>, atlasImage: AtlasImage)

  /** The (type, layer) pairs the atlas stores, in description order. */
  function LayerPairs(lds: seq<LayerData>, img: AtlasImage): (ps: seq<(string, Layer)>)
    ensures |ps| == |lds|
    ensures forall i :: 0 <= i < |lds| ==> ps[i].0 == lds[i].kind
    ensures forall i :: 0 <= i < |lds| ==> ps[i].1 == LayerOf(lds[i], img)
  {
    seq(|lds|, i requires 0 <= i < |lds| => (lds[i].kind, LayerOf(lds[i], img)))
  }

  /** The atlas `Atlas.new(atlas_data, atlas_image)` builds. */
  function AtlasOf(ad: AtlasData, img: AtlasImage): Atlas {
    Atlas(FromPairs(LayerPairs(ad.layers, img)), img)
  }

  /** `Atlas.new`: builds every described layer and stores it under its type. */
  method NewAtlas(ad: AtlasData, img: AtlasImage) returns (atlas: Atlas)
    ensures atlas == AtlasOf(ad, img)
  {
    ghost var ps := LayerPairs(ad.layers, img);
    var layers := EmptyHash<Layer>();
    var i := 0;
    while i < |ad.layers|
      invariant 0 <= i <= |ad.layers|
      invariant layers == FromPairs(ps[..i])
    {
      var layer := NewLayer(ad.layers[i], img);
      FromPairsPrefix(ps, i);
      layers := Store(layers, ad.layers[i].kind, layer);
      i := i + 1;
    }
    assert ps[..i] == ps;
    atlas := Atlas(layers, img);
  }

  /** The atlas has a layer of a type iff the description lists one. */
  lemma AtlasLayerTypes(ad: AtlasData, img: AtlasImage, kind: string)
    ensures kind in AtlasOf(ad, img).layers.values <==> exists i :: 0 <= i < |ad.layers| && ad.layers[i].kind == kind
  {
    var ps := LayerPairs(ad.layers, img);
    var ks := seq(|ad.layers|, i requires 0 <= i < |ad.layers| => ad.layers[i].kind);
    FromPairsHasKey(ps, ks, kind);
    if kind in ks {
      var i :| 0 <= i < |ks| && ks[i] == kind;
      assert ad.layers[i].kind == kind;
    }
  }

  /** A later layer of the same type replaces an earlier one. */
  lemma AtlasLastLayerWins(ad: AtlasData, img: AtlasImage, i: int)
    requires 0 <= i < |ad.layers|
    requires forall j :: i < j < |ad.layers| ==> ad.layers[j].kind != ad.layers[i].kind
    ensures ad.layers[i].kind in AtlasOf(ad, img).layers.values
    ensures AtlasOf(ad, img).layers.values[ad.layers[i].kind] == LayerOf(ad.layers[i], img)
  {
    FromPairsLast(LayerPairs(ad.layers, img), i);
  }
}
