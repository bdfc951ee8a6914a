/** The four hard-coded visibility tables of faux_renderer.rb, one per
    facing, and the rotation that makes the East, South and West tables
    copies of the North one.

    Grid coordinates grow rightwards (x) and downwards (y), so North looks
    towards -y. An entry says: if the cell at (player.x + dx, player.y + dz)
    is a wall, draw the Walls fragment `key`, shifted sideways by `lane`
    fragment widths. */
module ViewTables {

  import AtlasMapper

  datatype Entry = Entry(dx: int, dz: int, key: string, lane: int)

  // faux_renderer.rb:79-135
  const NorthTable: seq<Entry> := [
    Entry(-3, -3, "front_0_-3", -3),
    Entry(-2, -3, "front_0_-3", -2),
    Entry(-1, -3, "front_0_-3", -1),
    Entry(0, -3, "front_0_-3", 0),
    Entry(1, -3, "front_0_-3", 1),
    Entry(2, -3, "front_0_-3", 2),
    Entry(3, -3, "front_0_-3", 3),
    Entry(-2, -2, "side_-2_-2", 0),
    Entry(-1, -2, "side_-1_-2", 0),
    Entry(2, -2, "side_2_-2", 0),
    Entry(1, -2, "side_1_-2", 0),
    Entry(-2, -2, "front_0_-2", -2),
    Entry(-1, -2, "front_0_-2", -1),
    Entry(0, -2, "front_0_-2", 0),
    Entry(1, -2, "front_0_-2", 1),
    Entry(2, -2, "front_0_-2", 2),
    Entry(-1, -1, "side_-1_-1", 0),
    Entry(1, -1, "side_1_-1", 0),
    Entry(-1, -1, "front_0_-1", -1),
    Entry(0, -1, "front_0_-1", 0),
    Entry(1, -1, "front_0_-1", 1),
    Entry(-1, 0, "side_-1_0", 0),
    Entry(1, 0, "side_1_0", 0)
  ]

  // faux_renderer.rb:217-275
  const EastTable: seq<Entry> := [
    Entry(3, -3, "front_0_-3", -3),
    Entry(3, -2, "front_0_-3", -2),
    Entry(3, -1, "front_0_-3", -1),
    Entry(3, 0, "front_0_-3", 0),
    Entry(3, 1, "front_0_-3", 1),
    Entry(3, 2, "front_0_-3", 2),
    Entry(3, 3, "front_0_-3", 3),
    Entry(2, -2, "side_-2_-2", 0),
    Entry(2, -1, "side_-1_-2", 0),
    Entry(2, 2, "side_2_-2", 0),
    Entry(2, 1, "side_1_-2", 0),
    Entry(2, -2, "front_0_-2", -2),
    Entry(2, -1, "front_0_-2", -1),
    Entry(2, 0, "front_0_-2", 0),
    Entry(2, 1, "front_0_-2", 1),
    Entry(2, 2, "front_0_-2", 2),
    Entry(1, -1, "side_-1_-1", 0),
    Entry(1, 1, "side_1_-1", 0),
    Entry(1, 1, "front_0_-1", 1),
    Entry(1, 0, "front_0_-1", 0),
    Entry(1, -1, "front_0_-1", -1),
    Entry(0, -1, "side_-1_0", 0),
    Entry(0, 1, "side_1_0", 0)
  ]

  // faux_renderer.rb:148-204
  const SouthTable: seq<Entry> := [
    Entry(-3, 3, "front_0_-3", 3),
    Entry(-2, 3, "front_0_-3", 2),
    Entry(-1, 3, "front_0_-3", 1),
    Entry(0, 3, "front_0_-3", 0),
    Entry(1, 3, "front_0_-3", -1),
    Entry(2, 3, "front_0_-3", -2),
    Entry(3, 3, "front_0_-3", -3),
    Entry(2, 2, "side_-2_-2", 0),
    Entry(1, 2, "side_-1_-2", 0),
    Entry(-2, 2, "side_2_-2", 0),
    Entry(-1, 2, "side_1_-2", 0),
    Entry(-2, 2, "front_0_-2", 2),
    Entry(-1, 2, "front_0_-2", 1),
    Entry(0, 2, "front_0_-2", 0),
    Entry(1, 2, "front_0_-2", -1),
    Entry(2, 2, "front_0_-2", -2),
    Entry(1, 1, "side_-1_-1", 0),
    Entry(-1, 1, "side_1_-1", 0),
    Entry(-1, 1, "front_0_-1", 1),
    Entry(0, 1, "front_0_-1", 0),
    Entry(1, 1, "front_0_-1", -1),
    Entry(1, 0, "side_-1_0", 0),
    Entry(-1, 0, "side_1_0", 0)
  ]

  // faux_renderer.rb:288-346
  const WestTable: seq<Entry> := [
    Entry(-3, -3, "front_0_-3", 3),
    Entry(-3, -2, "front_0_-3", 2),
    Entry(-3, -1, "front_0_-3", 1),
    Entry(-3, 0, "front_0_-3", 0),
    Entry(-3, 1, "front_0_-3", -1),
    Entry(-3, 2, "front_0_-3", -2),
    Entry(-3, 3, "front_0_-3", -3),
    Entry(-2, 2, "side_-2_-2", 0),
    Entry(-2, 1, "side_-1_-2", 0),
    Entry(-2, -2, "side_2_-2", 0),
    Entry(-2, -1, "side_1_-2", 0),
    Entry(-2, -2, "front_0_-2", 2),
    Entry(-2, -1, "front_0_-2", 1),
    Entry(-2, 0, "front_0_-2", 0),
    Entry(-2, 1, "front_0_-2", -1),
    Entry(-2, 2, "front_0_-2", -2),
    Entry(-1, 1, "side_-1_-1", 0),
    Entry(-1, -1, "side_1_-1", 0),
    Entry(-1, 1, "front_0_-1", -1),
    Entry(-1, 0, "front_0_-1", 0),
    Entry(-1, -1, "front_0_-1", 1),
    Entry(0, 1, "side_-1_0", 0),
    Entry(0, -1, "side_1_0", 0)
  ]

  /** The table `render_walls` walks for a facing already reduced mod 4. */
  function TableFor(o: int): (t: seq<Entry>)
    requires 0 <= o < 4
    ensures |t| == 23
  {
    if o == 0 then NorthTable
    else if o == 1 then EastTable
    else if o == 2 then SouthTable
    else WestTable
  }

  // ---------------------------------------------------------------------
  // The North table under rotation

  /** A quarter turn clockwise on the screen-oriented grid: North's
      straight-ahead (0, -1) becomes East's (1, 0). */
  function QuarterTurn(d: (int, int)): (r: (int, int))
    ensures r.0 * r.0 + r.1 * r.1 == d.0 * d.0 + d.1 * d.1
  {
    (-d.1, d.0)
  }

  /** `k` quarter turns clockwise (k taken mod 4, as every facing is). */
  function Turn(k: int, d: (int, int)): (int, int) {
    var q := k % 4;
    if q == 0 then d
    else if q == 1 then (-d.1, d.0)
    else if q == 2 then (-d.0, -d.1)
    else (d.1, -d.0)
  }

  /** Turn really is repeated quarter turns. */
  lemma TurnIsRepeatedQuarterTurn(k: int, d: (int, int))
    ensures Turn(k + 1, d) == QuarterTurn(Turn(k, d))
    ensures Turn(k + 4, d) == Turn(k, d)
  {
  }

  /** An entry seen from a player who has turned `k` times: same fragment,
      same lane, rotated cell offset. */
  function TurnEntry(k: int, e: Entry): Entry {
    var d := Turn(k, (e.dx, e.dz));
    Entry(d.0, d.1, e.key, e.lane)
  }

  /** Index `i` with the slice [lo, hi) read backwards. */
  function Mirror(lo: int, hi: int, i: int): (j: int)
    ensures lo <= i < hi <==> lo <= j < hi
  {
    if lo <= i < hi then lo + hi - 1 - i else i
  }

  /** Which North entry the i-th entry of the table for facing `k` is the
      turned copy of. The front strips of the North table sit at [0, 7)
      (depth 3), [11, 16) (depth 2) and [18, 21) (depth 1); East lists its
      depth-1 strip backwards, South all three, West the depth-3 and
      depth-2 strips. */
  function SourceIndex(k: int, i: int): (j: int)
    requires 0 <= k < 4
    ensures 0 <= i < 23 <==> 0 <= j < 23
  {
    if k == 1 then Mirror(18, 21, i)
    else if k == 2 then Mirror(0, 7, Mirror(11, 16, Mirror(18, 21, i)))
    else if k == 3 then Mirror(0, 7, Mirror(11, 16, i))
    else i
  }

  /** Reading a table through SourceIndex twice gives back the table's own order. */
  lemma SourceIndexInvolution(k: int, i: int)
    requires 0 <= k < 4
    ensures SourceIndex(k, SourceIndex(k, i)) == i
  {
  }

  /** The North table as seen after `k` quarter turns. */
  function Oriented(k: int): (t: seq<Entry>)
    requires 0 <= k < 4
    ensures |t| == 23
  {
    seq(23, i requires 0 <= i < 23 => TurnEntry(k, NorthTable[SourceIndex(k, i)]))
  }

  /** Every index below 23, one by one. */
  lemma IndexBelow23(i: int)
    requires 0 <= i < 23
    ensures i == 0 || i == 1 || i == 2 || i == 3 || i == 4 || i == 5 || i == 6 || i == 7 || i == 8 || i == 9 || i == 10 || i == 11 || i == 12 || i == 13 || i == 14 || i == 15 || i == 16 || i == 17 || i == 18 || i == 19 || i == 20 || i == 21 || i == 22
  {
  }

  /** Entries 0 to 3 of EastTable. */
  lemma EastRows0To3()
    ensures EastTable[0] == Oriented(1)[0] &&
      EastTable[1] == Oriented(1)[1] &&
      EastTable[2] == Oriented(1)[2] &&
      EastTable[3] == Oriented(1)[3]
  {
  }

  /** Entries 4 to 6 of EastTable. */
  lemma EastRows4To6()
    ensures EastTable[4] == Oriented(1)[4] &&
      EastTable[5] == Oriented(1)[5] &&
      EastTable[6] == Oriented(1)[6]
  {
  }

  /** Entries 7 to 11 of EastTable. */
  lemma EastRows7To11()
    ensures EastTable[7] == Oriented(1)[7] &&
      EastTable[8] == Oriented(1)[8] &&
      EastTable[9] == Oriented(1)[9] &&
      EastTable[10] == Oriented(1)[10] &&
      EastTable[11] == Oriented(1)[11]
  {
  }

  /** Entries 12 to 15 of EastTable. */
  lemma EastRows12To15()
    ensures EastTable[12] == Oriented(1)[12] &&
      EastTable[13] == Oriented(1)[13] &&
      EastTable[14] == Oriented(1)[14] &&
      EastTable[15] == Oriented(1)[15]
  {
  }

  /** Entries 16 to 19 of EastTable. */
  lemma EastRows16To19()
    ensures EastTable[16] == Oriented(1)[16] &&
      EastTable[17] == Oriented(1)[17] &&
      EastTable[18] == Oriented(1)[18] &&
      EastTable[19] == Oriented(1)[19]
  {
  }

  /** Entries 20 to 22 of EastTable. */
  lemma EastRows20To22()
    ensures EastTable[20] == Oriented(1)[20] &&
      EastTable[21] == Oriented(1)[21] &&
      EastTable[22] == Oriented(1)[22]
  {
  }

  /** render_view_east lists the North cells turned once. */
  lemma EastTableIsRotatedNorth()
    ensures EastTable == Oriented(1)
  {
    EastRows0To3();
    EastRows4To6();
    EastRows7To11();
    EastRows12To15();
    EastRows16To19();
    EastRows20To22();
    forall i | 0 <= i < 23 ensures EastTable[i] == Oriented(1)[i] {
      IndexBelow23(i);
    }
  }

  /** Entries 0 to 3 of SouthTable. */
  lemma SouthRows0To3()
    ensures SouthTable[0] == Oriented(2)[0] &&
      SouthTable[1] == Oriented(2)[1] &&
      SouthTable[2] == Oriented(2)[2] &&
      SouthTable[3] == Oriented(2)[3]
  {
    assert SouthTable[0] == Oriented(2)[0];
    assert SouthTable[1] == Oriented(2)[1];
    assert SouthTable[2] == Oriented(2)[2];
    assert SouthTable[3] == Oriented(2)[3];
  }

  /** Entries 4 to 6 of SouthTable. */
  lemma SouthRows4To6()
    ensures SouthTable[4] == Oriented(2)[4] &&
      SouthTable[5] == Oriented(2)[5] &&
      SouthTable[6] == Oriented(2)[6]
  {
    assert SouthTable[4] == Oriented(2)[4];
    assert SouthTable[5] == Oriented(2)[5];
    assert SouthTable[6] == Oriented(2)[6];
  }

  /** Entries 7 to 11 of SouthTable. */
  lemma SouthRows7To11()
    ensures SouthTable[7] == Oriented(2)[7] &&
      SouthTable[8] == Oriented(2)[8] &&
      SouthTable[9] == Oriented(2)[9] &&
      SouthTable[10] == Oriented(2)[10] &&
      SouthTable[11] == Oriented(2)[11]
  {
    assert SouthTable[7] == Oriented(2)[7];
    assert SouthTable[8] == Oriented(2)[8];
    assert SouthTable[9] == Oriented(2)[9];
    assert SouthTable[10] == Oriented(2)[10];
    assert SouthTable[11] == Oriented(2)[11];
  }

  /** Entries 12 to 15 of SouthTable. */
  lemma SouthRows12To15()
    ensures SouthTable[12] == Oriented(2)[12] &&
      SouthTable[13] == Oriented(2)[13] &&
      SouthTable[14] == Oriented(2)[14] &&
      SouthTable[15] == Oriented(2)[15]
  {
    assert SouthTable[12] == Oriented(2)[12];
    assert SouthTable[13] == Oriented(2)[13];
    assert SouthTable[14] == Oriented(2)[14];
    assert SouthTable[15] == Oriented(2)[15];
  }

  /** Entries 16 to 19 of SouthTable. */
  lemma SouthRows16To19()
    ensures SouthTable[16] == Oriented(2)[16] &&
      SouthTable[17] == Oriented(2)[17] &&
      SouthTable[18] == Oriented(2)[18] &&
      SouthTable[19] == Oriented(2)[19]
  {
  }

  /** Entries 20 to 22 of SouthTable. */
  lemma SouthRows20To22()
    ensures SouthTable[20] == Oriented(2)[20] &&
      SouthTable[21] == Oriented(2)[21] &&
      SouthTable[22] == Oriented(2)[22]
  {
  }

  /** render_view_south lists the North cells turned twice. */
  lemma SouthTableIsRotatedNorth()
    ensures SouthTable == Oriented(2)
  {
    SouthRows0To3();
    SouthRows4To6();
    SouthRows7To11();
    SouthRows12To15();
    SouthRows16To19();
    SouthRows20To22();
    forall i | 0 <= i < 23 ensures SouthTable[i] == Oriented(2)[i] {
      IndexBelow23(i);
    }
  }

  /** Entries 0 to 3 of WestTable. */
  lemma WestRows0To3()
    ensures WestTable[0] == Oriented(3)[0] &&
      WestTable[1] == Oriented(3)[1] &&
      WestTable[2] == Oriented(3)[2] &&
      WestTable[3] == Oriented(3)[3]
  {
    assert WestTable[0] == Oriented(3)[0];
    assert WestTable[1] == Oriented(3)[1];
    assert WestTable[2] == Oriented(3)[2];
    assert WestTable[3] == Oriented(3)[3];
  }

  /** Entries 4 to 6 of WestTable. */
  lemma WestRows4To6()
    ensures WestTable[4] == Oriented(3)[4] &&
      WestTable[5] == Oriented(3)[5] &&
      WestTable[6] == Oriented(3)[6]
  {
    assert WestTable[4] == Oriented(3)[4];
    assert WestTable[5] == Oriented(3)[5];
    assert WestTable[6] == Oriented(3)[6];
  }

  /** Entries 7 to 11 of WestTable. */
  lemma WestRows7To11()
    ensures WestTable[7] == Oriented(3)[7] &&
      WestTable[8] == Oriented(3)[8] &&
      WestTable[9] == Oriented(3)[9] &&
      WestTable[10] == Oriented(3)[10] &&
      WestTable[11] == Oriented(3)[11]
  {
    assert WestTable[7] == Oriented(3)[7];
    assert WestTable[8] == Oriented(3)[8];
    assert WestTable[9] == Oriented(3)[9];
    assert WestTable[10] == Oriented(3)[10];
    assert WestTable[11] == Oriented(3)[11];
  }

  /** Entries 12 to 15 of WestTable. */
  lemma WestRows12To15()
    ensures WestTable[12] == Oriented(3)[12] &&
      WestTable[13] == Oriented(3)[13] &&
      WestTable[14] == Oriented(3)[14] &&
      WestTable[15] == Oriented(3)[15]
  {
    assert WestTable[12] == Oriented(3)[12];
    assert WestTable[13] == Oriented(3)[13];
    assert WestTable[14] == Oriented(3)[14];
    assert WestTable[15] == Oriented(3)[15];
  }

  /** Entries 16 to 19 of WestTable. */
  lemma WestRows16To19()
    ensures WestTable[16] == Oriented(3)[16] &&
      WestTable[17] == Oriented(3)[17] &&
      WestTable[18] == Oriented(3)[18] &&
      WestTable[19] == Oriented(3)[19]
  {
  }

  /** Entries 20 to 22 of WestTable. */
  lemma WestRows20To22()
    ensures WestTable[20] == Oriented(3)[20] &&
      WestTable[21] == Oriented(3)[21] &&
      WestTable[22] == Oriented(3)[22]
  {
  }

  /** render_view_west lists the North cells turned three times. */
  lemma WestTableIsRotatedNorth()
    ensures WestTable == Oriented(3)
  {
    WestRows0To3();
    WestRows4To6();
    WestRows7To11();
    WestRows12To15();
    WestRows16To19();
    WestRows20To22();
    forall i | 0 <= i < 23 ensures WestTable[i] == Oriented(3)[i] {
      IndexBelow23(i);
    }
  }

  /** Each literal table is the North table rotated by a
      quarter turn per step of the facing, entry for entry, with the same
      fragment key and the same lane; only some front strips are listed in
      the opposite order. */
  lemma TablesAreRotatedNorth(k: int)
    requires 0 <= k < 4
    ensures TableFor(k) == Oriented(k)
  {
    if k == 0 {
      forall i | 0 <= i < 23 ensures NorthTable[i] == Oriented(0)[i] {
        IndexBelow23(i);
      }
    } else if k == 1 {
      EastTableIsRotatedNorth();
    } else if k == 2 {
      SouthTableIsRotatedNorth();
    } else {
      WestTableIsRotatedNorth();
    }
  }

  // ---------------------------------------------------------------------
  // What an entry means, seen from the player

  /** Turning back undoes turning. */
  lemma TurnInverse(k: int, d: (int, int))
    ensures Turn(-k, Turn(k, d)) == d
  {
  }

  /** The cell of `e`, for a player who has turned `k` times, in the
      player's own frame: (sideways, positive to the right; depth, positive
      ahead). */
  function Relative(k: int, e: Entry): (int, int) {
    var d := Turn(-k, (e.dx, e.dz));
    (d.0, -d.1)
  }

  /** The fragment and lane an entry draws fit its cell: a front fragment is
      named after its depth and shifted by the cell's sideways offset, at
      most `depth` lanes either way; a side fragment is named after the cell
      itself and never shifted. */
  predicate FitsCell(e: Entry, side: int, depth: int) {
    (e.key == AtlasMapper.TileKey("front", 0, -depth) && e.lane == side && -depth <= side <= depth) ||
    (e.key == AtlasMapper.TileKey("side", side, -depth) && e.lane == 0)
  }

  /** The row of the North table: 3 for the far strip, 0 for the cells
      beside the player. */
  function Band(i: int): int {
    if i < 7 then 3 else if i < 16 then 2 else if i < 21 then 1 else 0
  }

  /** The rows render_view_north looks at, entry by entry. */
  lemma NorthTableDepth(i: int)
    requires 0 <= i < 23
    ensures NorthTable[i].dz == -Band(i) && -3 <= NorthTable[i].dx <= 3
  {
    IndexBelow23(i);
  }

  /** The fragment names of the depth-3 row, as the atlas spells its keys. */
  lemma FarKeys()
    ensures AtlasMapper.TileKey("front", 0, -3) == "front_0_-3"
  {
  }

  /** The fragment names of the depth-2 row. */
  lemma MiddleKeys()
    ensures AtlasMapper.TileKey("front", 0, -2) == "front_0_-2"
    ensures AtlasMapper.TileKey("side", -2, -2) == "side_-2_-2"
    ensures AtlasMapper.TileKey("side", -1, -2) == "side_-1_-2"
    ensures AtlasMapper.TileKey("side", 1, -2) == "side_1_-2"
    ensures AtlasMapper.TileKey("side", 2, -2) == "side_2_-2"
  {
  }

  /** The fragment names of the depth-1 row and of the player's own row. */
  lemma NearKeys()
    ensures AtlasMapper.TileKey("front", 0, -1) == "front_0_-1"
    ensures AtlasMapper.TileKey("side", -1, -1) == "side_-1_-1"
    ensures AtlasMapper.TileKey("side", 1, -1) == "side_1_-1"
    ensures AtlasMapper.TileKey("side", -1, 0) == "side_-1_0"
    ensures AtlasMapper.TileKey("side", 1, 0) == "side_1_0"
  {
  }

  /** The fragment each entry of render_view_north draws for its cell. */
  lemma NorthTableFits(i: int)
    requires 0 <= i < 23
    ensures FitsCell(NorthTable[i], NorthTable[i].dx, -NorthTable[i].dz)
  {
    if i < 7 {
      FarKeys();
      assert i == 0 || i == 1 || i == 2 || i == 3 || i == 4 || i == 5 || i == 6;
    } else if i < 16 {
      MiddleKeys();
      assert i == 7 || i == 8 || i == 9 || i == 10 || i == 11 || i == 12 || i == 13 || i == 14 || i == 15;
    } else {
      NearKeys();
      assert i == 16 || i == 17 || i == 18 || i == 19 || i == 20 || i == 21 || i == 22;
    }
  }

  /** Every table looks at cells up to three rows ahead and three columns
      aside, and every fragment it draws is the one named after that cell. */
  lemma ViewCone(k: int, i: int)
    requires 0 <= k < 4 && 0 <= i < 23
    ensures var (side, depth) := Relative(k, TableFor(k)[i]);
      0 <= depth <= 3 && -3 <= side <= 3 && FitsCell(TableFor(k)[i], side, depth)
  {
    TablesAreRotatedNorth(k);
    var j := SourceIndex(k, i);
    NorthTableDepth(j);
    NorthTableFits(j);
    TurnInverse(k, (NorthTable[j].dx, NorthTable[j].dz));
  }

  /** The painter's order: every table lists farther cells before nearer
      ones, so a nearer wall is drawn over a farther one. */
  lemma FarthestFirst(k: int, i: int, j: int)
    requires 0 <= k < 4 && 0 <= i <= j < 23
    ensures Relative(k, TableFor(k)[i]).1 >= Relative(k, TableFor(k)[j]).1
  {
    TablesAreRotatedNorth(k);
    var si, sj := SourceIndex(k, i), SourceIndex(k, j);
    NorthTableDepth(si);
    NorthTableDepth(sj);
    TurnInverse(k, (NorthTable[si].dx, NorthTable[si].dz));
    TurnInverse(k, (NorthTable[sj].dx, NorthTable[sj].dz));
  }
}
