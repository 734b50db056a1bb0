/** The tile map of src/server/Map.cpp and the map pass of src/server/S_Collision.cpp. */
module Tiles {
  import opened Components
  import opened Geometry
  import opened Integers
  import opened Motion

  const TILE_SIZE: nat := 32
  const NUM_LAYERS: nat := 4

  datatype TileInfo = TileInfo(id: nat, friction: Vec, name: string, deadly: bool)

  datatype Tile = Tile(properties: TileInfo, solid: bool, warp: bool)

  // The map: tiles by converted coordinates, and the size in tiles.
  datatype MapState = MapState(tiles: map<nat, Tile>, width: nat, height: nat, defaultFriction: Vec)

  // One parsed line of a map file, ENTITY lines aside.
  datatype MapLine =
    | TileLine(tileId: nat, x: nat, y: nat, layer: nat, solid: bool, warp: bool)
    | SizeLine(width: nat, height: nat)
    | FrictionLine(friction: Vec)

  type TileSet = map<nat, TileInfo>

  // 32-bit unsigned arithmetic wraps; it is a ring homomorphism, so once at the end is enough.
  function ConvertCoords(width: nat, height: nat, x: nat, y: nat, layer: nat): nat {
    Linear(width, height, x, y, layer) % UINT
  }

  function Linear(width: nat, height: nat, x: nat, y: nat, layer: nat): nat {
    (layer * height + y) * width + x
  }

  predicate InRange(s: MapState, x: int, y: int, layer: int) {
    0 <= x < s.width && 0 <= y < s.height && 0 <= layer < NUM_LAYERS
  }

  function GetTile(s: MapState, x: int, y: int, layer: int): Option<Tile> {
    var ux, uy, ul := ToUnsigned(x), ToUnsigned(y), ToUnsigned(layer);
    if ux >= s.width || uy >= s.height || ul >= NUM_LAYERS then None
    else
      var code := ConvertCoords(s.width, s.height, ux, uy, ul);
      if code in s.tiles then Some(s.tiles[code]) else None
  }

  // ---------- coordinates ----------

  // All coordinates of the map have different codes, and no negative coordinate is taken for one of them.
  predicate Fits(s: MapState) {
    NUM_LAYERS * s.width * s.height <= UINT
  }

  lemma LinearBelow(width: nat, height: nat, x: nat, y: nat, layer: nat)
    requires x < width && y < height && layer < NUM_LAYERS
    ensures Linear(width, height, x, y, layer) < NUM_LAYERS * width * height
  {
    var row, rows := layer * height + y, NUM_LAYERS * height;
    assert row + 1 <= rows by {
      MulMonotone(layer + 1, NUM_LAYERS, height);
      NextMultiple(layer, height);
    }
    assert row * width + width <= rows * width by {
      MulMonotone(row + 1, rows, width);
      NextMultiple(row, width);
    }
    assert rows * width == NUM_LAYERS * width * height;
  }

  lemma MulMonotone(a: nat, b: nat, n: nat)
    requires a <= b
    ensures a * n <= b * n
  {
  }

  lemma NextMultiple(a: nat, n: nat)
    ensures (a + 1) * n == a * n + n
  {
  }

  lemma QuotientBelow(a: nat, b: nat, r: nat, q: nat, n: nat)
    requires r < n && a < b
    ensures a * n + r < b * n + q
  {
    NextMultiple(a, n);
    MulMonotone(a + 1, b, n);
  }

  lemma QuotientUnique(a: nat, b: nat, r: nat, q: nat, n: nat)
    requires r < n && q < n && a * n + r == b * n + q
    ensures a == b && r == q
  {
    if a < b {
      QuotientBelow(a, b, r, q, n);
    } else if b < a {
      QuotientBelow(b, a, q, r, n);
    }
  }

  lemma LinearInjective(width: nat, height: nat, x: nat, y: nat, l: nat, x': nat, y': nat, l': nat)
    requires x < width && y < height && x' < width && y' < height
    requires Linear(width, height, x, y, l) == Linear(width, height, x', y', l')
    ensures x == x' && y == y' && l == l'
  {
    QuotientUnique(l * height + y, l' * height + y', x, x', width);
    QuotientUnique(l, l', y, y', height);
  }

  // convertCoords is injective on the coordinates of the map.
  lemma ConvertInjective(width: nat, height: nat, x: nat, y: nat, l: nat, x': nat, y': nat, l': nat)
    requires NUM_LAYERS * width * height <= UINT
    requires x < width && y < height && l < NUM_LAYERS && x' < width && y' < height && l' < NUM_LAYERS
    requires ConvertCoords(width, height, x, y, l) == ConvertCoords(width, height, x', y', l')
    ensures x == x' && y == y' && l == l'
  {
    assert Linear(width, height, x, y, l) == Linear(width, height, x', y', l') by {
      LinearBelow(width, height, x, y, l);
      LinearBelow(width, height, x', y', l');
      SameResidue(Linear(width, height, x, y, l), Linear(width, height, x', y', l'));
    }
    LinearInjective(width, height, x, y, l, x', y', l');
  }

  lemma SameResidue(a: nat, b: nat)
    requires a < UINT && b < UINT && a % UINT == b % UINT
    ensures a == b
  {
  }

  // Beyond that size it is not: the coordinates of the linear index 2^32 share the code of the origin.
  lemma ConvertCollides(width: nat, height: nat) returns (x: nat, y: nat, l: nat)
    requires NUM_LAYERS * width * height > UINT
    ensures x < width && y < height && l < NUM_LAYERS && (x, y, l) != (0, 0, 0)
    ensures ConvertCoords(width, height, x, y, l) == ConvertCoords(width, height, 0, 0, 0)
  {
    assert width > 0 && height > 0;
    var row: nat;
    row, x := Divide(UINT, width);
    l, y := Divide(row, height);
    assert (NUM_LAYERS * height) * width == NUM_LAYERS * width * height;
    if l >= NUM_LAYERS {
      MulMonotone(NUM_LAYERS, l, height);
      MulMonotone(NUM_LAYERS * height, row, width);
      assert false;
    }
    assert ConvertCoords(width, height, x, y, l) == UINT % UINT;
    assert 0 * height + 0 == 0 && 0 * width + 0 == 0;
  }

  lemma Divide(a: nat, n: nat) returns (q: nat, r: nat)
    requires n > 0
    ensures a == q * n + r && r < n
  {
    q, r := a / n, a % n;
  }

  lemma SmallSides(s: MapState)
    requires Fits(s) && s.width > 0 && s.height > 0
    ensures s.width <= UINT / 4 && s.height <= UINT / 4
  {
  }

  // For 32-bit signed coordinates getTile finds something on the map only.
  lemma GetTileInRange(s: MapState, x: int, y: int, layer: nat)
    requires Fits(s) && -0x8000_0000 <= x < 0x8000_0000 && -0x8000_0000 <= y < 0x8000_0000 && layer < NUM_LAYERS
    ensures GetTile(s, x, y, layer).Some? ==> InRange(s, x, y, layer)
  {
    if GetTile(s, x, y, layer).Some? {
      SmallSides(s);
    }
  }

  // ---------- loading ----------

  predicate Accepted(s: MapState, tileSet: TileSet, line: MapLine) {
    line.TileLine? && line.tileId in tileSet && line.x <= s.width && line.y <= s.height && line.layer < NUM_LAYERS
  }

  function Made(tileSet: TileSet, line: MapLine): Tile
    requires line.TileLine? && line.tileId in tileSet
  {
    Tile(tileSet[line.tileId], line.solid, line.warp)
  }

  function LoadLine(s: MapState, tileSet: TileSet, line: MapLine): MapState {
    match line
    case SizeLine(width, height) => s.(width := width, height := height)
    case FrictionLine(friction) => s.(defaultFriction := friction)
    case TileLine(_, x, y, layer, _, _) =>
      var code := ConvertCoords(s.width, s.height, x, y, layer);
      if !Accepted(s, tileSet, line) || code in s.tiles then s
      else s.(tiles := s.tiles[code := Made(tileSet, line)])
  }

  function Load(s: MapState, tileSet: TileSet, lines: seq<MapLine>): MapState {
    if lines == [] then s
    else LoadLine(Load(s, tileSet, lines[..|lines| - 1]), tileSet, lines[|lines| - 1])
  }

  function TileAt(tiles: map<nat, Tile>, code: nat): Option<Tile> {
    if code in tiles then Some(tiles[code]) else None
  }

  lemma GetTileReads(s: MapState, x: nat, y: nat, layer: nat)
    requires Fits(s) && InRange(s, x, y, layer)
    ensures GetTile(s, x, y, layer) == TileAt(s.tiles, ConvertCoords(s.width, s.height, x, y, layer))
  {
    SmallSides(s);
    SmallUnsigned(x);
    SmallUnsigned(y);
    SmallUnsigned(layer);
    hide ToUnsigned, ConvertCoords, Fits;
  }

  lemma SmallUnsigned(x: nat)
    requires x < UINT
    ensures ToUnsigned(x) == x
  {
  }

  lemma CodesAgree(s: MapState, x: nat, y: nat, l: nat, x': nat, y': nat, l': nat)
    requires Fits(s) && InRange(s, x, y, l) && InRange(s, x', y', l')
    ensures ConvertCoords(s.width, s.height, x, y, l) == ConvertCoords(s.width, s.height, x', y', l') <==>
            (x, y, l) == (x', y', l')
  {
    if ConvertCoords(s.width, s.height, x, y, l) == ConvertCoords(s.width, s.height, x', y', l') {
      ConvertInjective(s.width, s.height, x, y, l, x', y', l');
    }
  }

  // ---------- the map pass ----------

  datatype CollisionElement = CollisionElement(area: real, tile: TileInfo, bounds: Rect)

  function TileBounds(x: int, y: int): Rect {
    Rect((x * TILE_SIZE) as real, (y * TILE_SIZE) as real, TILE_SIZE as real, TILE_SIZE as real)
  }

  // The lowest layer from `layer` up with a solid tile in the cell.
  function SolidTile(s: MapState, x: int, y: int, layer: nat): Option<Tile>
    decreases NUM_LAYERS - layer
  {
    if layer >= NUM_LAYERS then None
    else
      var t := GetTile(s, x, y, layer);
      if t.Some? && t.value.solid then t else SolidTile(s, x, y, layer + 1)
  }

  // What a cell contributes: an element for its lowest solid tile, if the box overlaps the cell.
  function CellElement(s: MapState, box: Rect, x: int, y: int): Option<CollisionElement> {
    var t := SolidTile(s, x, y, 0);
    var area := Area(Intersection(box, TileBounds(x, y)));
    if t.None? || area == 0.0 then None else Some(CollisionElement(area, t.value.properties, TileBounds(x, y)))
  }

  type Cell = (int, int)

  // Every cell of the whole map that contributes an element.
  ghost function FullScan(s: MapState, box: Rect): set<Cell> {
    set x, y | 0 <= x < s.width && 0 <= y < s.height && CellElement(s, box, x, y).Some? :: (x, y)
  }

  function FloorTile(a: real): int {
    (a / TILE_SIZE as real).Floor
  }

  lemma BelowFloor(a: real, x: int)
    requires x < FloorTile(a)
    ensures ((x + 1) * TILE_SIZE) as real <= a
  {
  }

  lemma AboveFloor(a: real, x: int)
    requires x > FloorTile(a)
    ensures (x * TILE_SIZE) as real > a
  {
  }

  lemma OverlapBetween(low: real, high: real, x: int)
    requires Max(low, (x * TILE_SIZE) as real) < Min(high, ((x + 1) * TILE_SIZE) as real)
    ensures FloorTile(low) <= x <= FloorTile(high)
  {
    if x < FloorTile(low) {
      BelowFloor(low, x);
    }
    if x > FloorTile(high) {
      AboveFloor(high, x);
    }
  }

  // A cell the box overlaps lies between the tiles of the corners of the box.
  lemma OverlapInCorners(box: Rect, x: int, y: int)
    requires Intersects(box, TileBounds(x, y))
    ensures FloorTile(LeftOf(box)) <= x <= FloorTile(RightOf(box))
    ensures FloorTile(TopOf(box)) <= y <= FloorTile(BottomOf(box))
  {
    var b := TileBounds(x, y);
    assert RightOf(b) == ((x + 1) * TILE_SIZE) as real && BottomOf(b) == ((y + 1) * TILE_SIZE) as real;
    OverlapBetween(LeftOf(box), RightOf(box), x);
    OverlapBetween(TopOf(box), BottomOf(box), y);
  }

  // The loop of the scan comes to the cell.
  predicate InRanges(box: Rect, x: int, y: int) {
    && FloorTile(box.left) <= x <= FloorTile(box.left + box.width)
    && FloorTile(box.top) <= y <= FloorTile(box.top + box.height)
  }

  // The box has no inside, or the guards of both loops of the scan hold at the start.
  predicate RangesOpen(box: Rect) {
    || box.width == 0.0 || box.height == 0.0
    || (FloorTile(box.left) <= FloorTile(box.left + box.width) && FloorTile(box.top) <= FloorTile(box.top + box.height))
  }

  lemma FloorMonotone(a: real, b: real)
    requires a <= b
    ensures FloorTile(a) <= FloorTile(b)
  {
    if FloorTile(b) < FloorTile(a) {
      BelowFloor(a, FloorTile(b));
      AboveFloor(b, FloorTile(b) + 1);
    }
  }

  // The first tile a side of the box is over.
  lemma CornerOverlap(low: real, high: real)
    requires low < high
    ensures Max(low, (FloorTile(low) * TILE_SIZE) as real) < Min(high, ((FloorTile(low) + 1) * TILE_SIZE) as real)
  {
  }

  lemma CornerCell(box: Rect)
    requires box.width != 0.0 && box.height != 0.0
    ensures Intersects(box, TileBounds(FloorTile(LeftOf(box)), FloorTile(TopOf(box))))
  {
    var x, y := FloorTile(LeftOf(box)), FloorTile(TopOf(box));
    var b := TileBounds(x, y);
    assert RightOf(b) == ((x + 1) * TILE_SIZE) as real && BottomOf(b) == ((y + 1) * TILE_SIZE) as real;
    CornerOverlap(LeftOf(box), RightOf(box));
    CornerOverlap(TopOf(box), BottomOf(box));
  }

  lemma OpenCovers(box: Rect, x: int, y: int)
    requires RangesOpen(box) && Intersects(box, TileBounds(x, y))
    ensures InRanges(box, x, y)
  {
    OverlapInCorners(box, x, y);
    FloorMonotone(LeftOf(box), RightOf(box));
    FloorMonotone(TopOf(box), BottomOf(box));
  }

  // The floor ranges of a box hold all cells it overlaps if and only if they are open: a box of negative size is
  // scanned correctly exactly when it stays within one column, or row, of tiles.
  lemma RangesCover(box: Rect)
    ensures (forall x, y :: Intersects(box, TileBounds(x, y)) ==> InRanges(box, x, y)) <==> RangesOpen(box)
  {
    if RangesOpen(box) {
      forall x, y | Intersects(box, TileBounds(x, y))
        ensures InRanges(box, x, y)
      {
        OpenCovers(box, x, y);
      }
    } else {
      CornerCell(box);
      assert !InRanges(box, FloorTile(LeftOf(box)), FloorTile(TopOf(box)));
    }
  }

  // The floor ranges of the box are 32-bit integers.
  predicate RangesFit(box: Rect) {
    && IsInt32(FloorTile(box.left)) && IsInt32(FloorTile(box.left + box.width))
    && IsInt32(FloorTile(box.top)) && IsInt32(FloorTile(box.top + box.height))
  }

  lemma {:induction false} SolidTileInRange(s: MapState, x: int, y: int, layer: nat)
    requires Fits(s) && IsInt32(x) && IsInt32(y)
    ensures SolidTile(s, x, y, layer).Some? ==> 0 <= x < s.width && 0 <= y < s.height
    decreases NUM_LAYERS - layer
  {
    if layer < NUM_LAYERS {
      GetTileInRange(s, x, y, layer);
      SolidTileInRange(s, x, y, layer + 1);
    }
  }

  // Scanning open floor ranges sees exactly the cells a scan of the whole map sees.
  lemma RangesCoverMap(s: MapState, box: Rect, x: int, y: int)
    requires Fits(s) && RangesOpen(box) && RangesFit(box)
    ensures (x, y) in FullScan(s, box) <==> InRanges(box, x, y) && CellElement(s, box, x, y).Some?
  {
    OverlapIsPositive(box, TileBounds(x, y));
    if CellElement(s, box, x, y).Some? {
      OpenCovers(box, x, y);
      SolidTileInRange(s, x, y, 0);
    }
  }

  // The full scan of the map has an element in a cell the loops do not come to.
  ghost predicate Overlooks(s: MapState, box: Rect) {
    exists p: Cell :: p in FullScan(s, box) && !InRanges(box, p.0, p.1)
  }

  // The top left one of the cells on maps that the box is over.
  function CornerOf(box: Rect): (nat, nat) {
    var x, y := FloorTile(LeftOf(box)), FloorTile(TopOf(box));
    (if x < 0 then 0 else x, if y < 0 then 0 else y)
  }

  // A map that ends in that cell, with a solid tile in it.
  function CornerMap(box: Rect): MapState {
    var (x, y) := CornerOf(box);
    var stone := Tile(TileInfo(0, ZERO, "", false), true, false);
    MapState(map[ConvertCoords(x + 1, y + 1, x, y, 0) := stone], x + 1, y + 1, ZERO)
  }

  // The ranges are not open, and the box is over a cell of some map with different codes for its cells.
  predicate CanOverlook(box: Rect) {
    && !RangesOpen(box) && RightOf(box) > 0.0 && BottomOf(box) > 0.0
    && Fits(CornerMap(box))
  }

  lemma ZeroBetween(low: real, high: real)
    requires low < high && high > 0.0
    ensures var x := if FloorTile(low) < 0 then 0 else FloorTile(low);
            Max(low, (x * TILE_SIZE) as real) < Min(high, ((x + 1) * TILE_SIZE) as real)
  {
    if FloorTile(low) < 0 {
      AboveFloor(low, 0);
    } else {
      CornerOverlap(low, high);
    }
  }

  lemma CornerShown(box: Rect)
    requires Fits(CornerMap(box))
    ensures SolidTile(CornerMap(box), CornerOf(box).0, CornerOf(box).1, 0).Some?
  {
    var s := CornerMap(box);
    var (x, y) := CornerOf(box);
    assert s.width == x + 1 && s.height == y + 1;
    GetTileReads(s, x, y, 0);
    hide GetTile, ConvertCoords, Fits;
  }

  lemma CornerUnderBox(box: Rect)
    requires CanOverlook(box)
    ensures Intersects(box, TileBounds(CornerOf(box).0, CornerOf(box).1))
  {
    var (x, y) := CornerOf(box);
    var b := TileBounds(x, y);
    hide Fits;
    assert RightOf(b) == ((x + 1) * TILE_SIZE) as real && BottomOf(b) == ((y + 1) * TILE_SIZE) as real;
    ZeroBetween(LeftOf(box), RightOf(box));
    ZeroBetween(TopOf(box), BottomOf(box));
  }

  // On that map the full scan finds the tile, and the bounded scan comes to no cell at all.
  lemma CornerOverlooked(box: Rect)
    requires CanOverlook(box)
    ensures CornerOf(box) in FullScan(CornerMap(box), box) && forall x, y :: !InRanges(box, x, y)
    ensures Fits(CornerMap(box)) && Overlooks(CornerMap(box), box)
  {
    var s, p := CornerMap(box), CornerOf(box);
    var cell: Cell := (p.0, p.1);
    CornerShown(box);
    CornerUnderBox(box);
    OverlapIsPositive(box, TileBounds(p.0, p.1));
    hide Intersects, SolidTile, Fits, Intersection;
    assert s.width == p.0 + 1 && s.height == p.1 + 1;
    assert cell in FullScan(s, box) && !InRanges(box, cell.0, cell.1);
  }

  lemma SmallerFits(x: nat, y: nat, width: nat, height: nat)
    requires x <= width && y <= height && NUM_LAYERS * width * height <= UINT
    ensures NUM_LAYERS * x * y <= UINT
  {
    MulMonotone(x, width, y);
    MulMonotone(y, height, width);
    assert NUM_LAYERS * x * y == NUM_LAYERS * (x * y);
    assert NUM_LAYERS * width * height == NUM_LAYERS * (height * width);
  }

  // Whatever cell with coordinates from zero the box is over lies right of and below its corner.
  lemma CornerFirst(box: Rect, x: nat, y: nat)
    requires Intersects(box, TileBounds(x, y))
    ensures CornerOf(box).0 <= x && CornerOf(box).1 <= y && RightOf(box) > 0.0 && BottomOf(box) > 0.0
  {
    OverlapInCorners(box, x, y);
    hide FloorTile;
  }

  lemma CornerMapFits(s: MapState, box: Rect)
    requires Fits(s) && CornerOf(box).0 < s.width && CornerOf(box).1 < s.height
    ensures Fits(CornerMap(box))
  {
    SmallerFits(CornerOf(box).0 + 1, CornerOf(box).1 + 1, s.width, s.height);
    hide CornerOf;
  }

  lemma OverlookedFits(s: MapState, box: Rect, x: int, y: int)
    requires Fits(s) && (x, y) in FullScan(s, box) && !InRanges(box, x, y)
    ensures CanOverlook(box)
  {
    hide SolidTile, Intersection, Intersects, Fits, RangesOpen, CornerOf, CornerMap, RightOf, BottomOf, InRanges;
    assert 0 <= x < s.width && 0 <= y < s.height && CellElement(s, box, x, y).Some?;
    OverlapIsPositive(box, TileBounds(x, y));
    CornerFirst(box, x, y);
    if RangesOpen(box) {
      OpenCovers(box, x, y);
    }
    CornerMapFits(s, box);
  }

  // Some map has a tile that the bounded scan overlooks if and only if the ranges are not open and the box is over a
  // cell that a map can have.
  lemma OverlooksExactly(box: Rect)
    ensures (exists s :: Fits(s) && Overlooks(s, box)) <==> CanOverlook(box)
  {
    if CanOverlook(box) {
      CornerOverlooked(box);
    }
    if exists s :: Fits(s) && Overlooks(s, box) {
      var s :| Fits(s) && Overlooks(s, box);
      var p: Cell :| p in FullScan(s, box) && !InRanges(box, p.0, p.1);
      OverlookedFits(s, box, p.0, p.1);
    }
  }
}
