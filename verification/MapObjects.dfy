/** The map as an object, and the loops of S_Collision's map pass and of S_Movement::getTileFriction over it. */
module MapObjects {
  import opened Components
  import opened Ecs
  import opened Geometry
  import opened Integers
  import opened Motion
  import opened Tiles

  // getTileFriction: the friction of the highest tile at or below the elevation, zero if there is none.
  function FrictionAt(s: MapState, x: int, y: int, elevation: nat): Vec {
    var t := GetTile(s, x, y, elevation);
    if t.Some? then t.value.properties.friction
    else if elevation > 0 then FrictionAt(s, x, y, elevation - 1)
    else ZERO
  }

  lemma {:induction false} FrictionIsOfHighestTile(s: MapState, x: int, y: int, elevation: nat, layer: nat)
    requires layer <= elevation && GetTile(s, x, y, layer).Some?
    requires forall l :: layer < l <= elevation ==> GetTile(s, x, y, l).None?
    ensures FrictionAt(s, x, y, elevation) == GetTile(s, x, y, layer).value.properties.friction
  {
    if layer < elevation {
      assert GetTile(s, x, y, elevation).None?;
      FrictionIsOfHighestTile(s, x, y, elevation - 1, layer);
    }
  }

  lemma {:induction false} NoTileNoFriction(s: MapState, x: int, y: int, elevation: nat)
    requires forall l :: 0 <= l <= elevation ==> GetTile(s, x, y, l).None?
    ensures FrictionAt(s, x, y, elevation) == ZERO
  {
    assert GetTile(s, x, y, elevation).None?;
    if elevation > 0 {
      NoTileNoFriction(s, x, y, elevation - 1);
    }
  }

  function FrictionUnder(s: MapState, p: Position): Vec {
    FrictionAt(s, FloorTile(p.at.x), FloorTile(p.at.y), p.elevation)
  }

  // ---------- positions and boxes ----------

  // C_Collidable::setPosition.
  function BoxAt(k: Collidable, at: Vec): Collidable {
    var corner := match k.origin
      case TopLeft => Vec(at.x + k.offset.x, at.y + k.offset.y)
      case AbsCentre => Vec(at.x - k.box.width / 2.0 + k.offset.x, at.y - k.box.height / 2.0 + k.offset.y)
      case MidBottom => Vec(at.x - k.box.width / 2.0 + k.offset.x, at.y - k.box.height / 2.0 + k.offset.y);
    k.(box := Rect(corner.x, corner.y, k.box.width, k.box.height))
  }

  // The offset position is the corner of a Top_Left box and the centre of every other one, Mid_Bottom included.
  lemma BoxFollows(k: Collidable, at: Vec)
    ensures var b := BoxAt(k, at).box;
            && b.width == k.box.width && b.height == k.box.height
            && (k.origin == TopLeft ==> Vec(b.left, b.top) == Plus(at, k.offset))
            && (k.origin != TopLeft ==> Vec(b.left + b.width / 2.0, b.top + b.height / 2.0) == Plus(at, k.offset))
    ensures BoxAt(k, at).(box := k.box) == k
  {
  }

  predicate InStep(p: Position, k: Collidable) {
    BoxAt(k, p.at) == k
  }

  function MovedTo(p: Position, at: Vec): Position {
    Position(at, p.at, p.elevation)
  }

  // One axis of checkOutOfBounds.
  function Confined(a: real, side: nat): real {
    if a < 0.0 then 0.0 else if a > (side * TILE_SIZE) as real then (side * TILE_SIZE) as real else a
  }

  // checkOutOfBounds, first on the x axis and then on the y axis.
  function Bounded(p: Position, k: Collidable, width: nat, height: nat): (Position, Collidable) {
    var px := if Confined(p.at.x, width) == p.at.x then p else MovedTo(p, Vec(Confined(p.at.x, width), p.at.y));
    var kx := if Confined(p.at.x, width) == p.at.x then k else BoxAt(k, px.at);
    if Confined(p.at.y, height) == p.at.y then (px, kx)
    else
      var py := MovedTo(px, Vec(px.at.x, Confined(p.at.y, height)));
      (py, BoxAt(kx, py.at))
  }

  // The entity ends up on the map, and its box where its position is if it was moved.
  lemma BoundedIsOnMap(p: Position, k: Collidable, width: nat, height: nat)
    ensures var (p', k') := Bounded(p, k, width, height);
            && 0.0 <= p'.at.x <= (width * TILE_SIZE) as real && 0.0 <= p'.at.y <= (height * TILE_SIZE) as real
            && (p'.at != p.at ==> InStep(p', k'))
            && (p'.at == p.at ==> p' == p && k' == k)
            && (InStep(p, k) ==> InStep(p', k'))
  {
  }

  // How one collision element moves the entity, and which axis it reports.
  datatype Resolution = Resolution(position: Position, box: Collidable, event: EntityEvent)

  function ResolveTile(p: Position, k: Collidable, bounds: Rect): Resolution {
    var box := k.box;
    var xDiff := (box.left + box.width / 2.0) - (bounds.left + bounds.width / 2.0);
    var yDiff := (box.top + box.height / 2.0) - (bounds.top + bounds.height / 2.0);
    if Abs(xDiff) > Abs(yDiff) then
      var resolve := if xDiff > 0.0 then (bounds.left + TILE_SIZE as real) - box.left
                     else -((box.left + box.width) - bounds.left);
      var p' := MovedTo(p, Vec(p.at.x + resolve, p.at.y));
      Resolution(p', BoxAt(k, p'.at).(onX := true), CollidingX)
    else
      var resolve := if yDiff > 0.0 then (bounds.top + TILE_SIZE as real) - box.top
                     else -((box.top + box.height) - bounds.top);
      var p' := MovedTo(p, Vec(p.at.x, p.at.y + resolve));
      Resolution(p', BoxAt(k, p'.at).(onY := true), CollidingY)
  }

  // The size of the box along the axis the entity is moved on.
  function SizeAlong(k: Collidable, event: EntityEvent): real {
    if event == CollidingX then k.box.width else k.box.height
  }

  // The box is over the tile's column, or row, on the other axis.
  predicate OverAcross(a: Rect, b: Rect, event: EntityEvent) {
    if event == CollidingX then Max(TopOf(a), TopOf(b)) < Min(BottomOf(a), BottomOf(b))
    else Max(LeftOf(a), LeftOf(b)) < Min(RightOf(a), RightOf(b))
  }

  // If the box was in step with the position, it still is, and the entity has moved on the reported axis only. The box
  // no longer overlaps the tile, unless its size along that axis is negative and it is over the tile on the other one.
  lemma ResolveClears(p: Position, k: Collidable, x: int, y: int)
    requires InStep(p, k)
    ensures var b, r := TileBounds(x, y), ResolveTile(p, k, TileBounds(x, y));
            && InStep(r.position, r.box)
            && (Intersects(r.box.box, b) <==> SizeAlong(k, r.event) < 0.0 && OverAcross(k.box, b, r.event))
            && (r.event == CollidingX ==> r.position.at.y == p.at.y && r.box.box.top == k.box.top)
            && (r.event == CollidingY ==> r.position.at.x == p.at.x && r.box.box.left == k.box.left)
  {
    var b, r := TileBounds(x, y), ResolveTile(p, k, TileBounds(x, y));
    ResolveMoves(p, k, b);
    hide InStep, ResolveTile, BoxAt, Max, Min;
    if r.event == CollidingX {
      SideAtEdge(r.box.box.left, r.box.box.width, b.left);
    } else {
      SideAtEdge(r.box.box.top, r.box.box.height, b.top);
    }
  }

  // What a resolution does to position and box.
  lemma ResolveMoves(p: Position, k: Collidable, b: Rect)
    requires InStep(p, k) && b.width == 32.0 && b.height == 32.0
    ensures var r := ResolveTile(p, k, b);
            var box := r.box.box;
            && InStep(r.position, r.box) && box.width == k.box.width && box.height == k.box.height
            && (r.event == CollidingX || r.event == CollidingY)
            && (if r.event == CollidingX then
                  && r.position.at.y == p.at.y && box.top == k.box.top
                  && (box.left == b.left + 32.0 || box.left + box.width == b.left)
                else
                  && r.position.at.x == p.at.x && box.left == k.box.left
                  && (box.top == b.top + 32.0 || box.top + box.height == b.top))
  {
    var r := ResolveTile(p, k, b);
    assert r.box.box.left - k.box.left == r.position.at.x - p.at.x;
    assert r.box.box.top - k.box.top == r.position.at.y - p.at.y;
  }

  // A side of the box that ends at an edge of the tile is over the tile if it runs backwards.
  lemma SideAtEdge(start: real, size: real, edge: real)
    requires start == edge + 32.0 || start + size == edge
    ensures Max(Min(start, start + size), edge) < Min(Max(start, start + size), edge + 32.0) <==> size < 0.0
    ensures edge <= edge + 32.0
  {
  }

  // The elements in turn, each from where the last one left the entity.
  function ResolveAll(p: Position, k: Collidable, elements: seq<CollisionElement>)
    : (Position, Collidable, seq<EntityEvent>)
  {
    if elements == [] then (p, k, [])
    else
      var before := ResolveAll(p, k, elements[..|elements| - 1]);
      var r := ResolveTile(before.0, before.1, elements[|elements| - 1].bounds);
      (r.position, r.box, before.2 + [r.event])
  }

  predicate Descending(c: seq<CollisionElement>) {
    forall j, k :: 0 <= j < k < |c| ==> c[j].area >= c[k].area
  }

  // c lists the elements of the cells, each cell once.
  ghost predicate Listed(s: MapState, box: Rect, c: seq<CollisionElement>, cells: seq<Cell>) {
    && |c| == |cells|
    && (forall j, k :: 0 <= j < k < |cells| ==> cells[j] != cells[k])
    && (forall k :: 0 <= k < |cells| ==> CellElement(s, box, cells[k].0, cells[k].1) == Some(c[k]))
  }

  // The cells are exactly those of a scan of the whole map.
  ghost predicate IsFullScan(s: MapState, box: Rect, c: seq<CollisionElement>, cells: seq<Cell>) {
    Listed(s, box, c, cells) && forall p :: p in cells <==> p in FullScan(s, box)
  }

  // The conditions under which the bounded scan is a full scan: coordinates have different codes, the floor ranges
  // are 32-bit integers, and open.
  predicate Scannable(s: MapState, box: Rect) {
    Tiles.Fits(s) && RangesFit(box) && RangesOpen(box)
  }

  // The loop bounds of the scan.
  datatype Ranges = Ranges(fromX: int, toX: int, fromY: int, toY: int)

  function RangesOf(box: Rect): Ranges {
    Ranges(ToInt32(FloorTile(box.left)), ToInt32(FloorTile(box.left + box.width)),
           ToInt32(FloorTile(box.top)), ToInt32(FloorTile(box.top + box.height)))
  }

  // The cells are exactly those within the loop bounds that have an element.
  ghost predicate IsRangeScan(s: MapState, box: Rect, c: seq<CollisionElement>, cells: seq<Cell>) {
    var r := RangesOf(box);
    && Listed(s, box, c, cells)
    && forall p: Cell :: p in cells <==>
         r.fromX <= p.0 <= r.toX && r.fromY <= p.1 <= r.toY && CellElement(s, box, p.0, p.1).Some?
  }

  // What the scan finds for any map and box.
  ghost predicate IsCollisionList(s: MapState, box: Rect, c: seq<CollisionElement>) {
    exists cells :: IsRangeScan(s, box, c, cells)
  }

  // The same elements, the largest overlap first.
  ghost predicate IsSortedList(s: MapState, box: Rect, sorted: seq<CollisionElement>) {
    Descending(sorted) && exists c :: multiset(sorted) == multiset(c) && IsCollisionList(s, box, c)
  }

  // The outcome of the map pass for an entity.
  ghost predicate IsMapPass(s: MapState, p: Position, k: Collidable,
                            outcome: (Position, Collidable, seq<EntityEvent>))
  {
    exists sorted :: IsSortedList(s, k.box, sorted) && outcome == ResolveAll(p, k, sorted)
  }

  lemma MapPassIs(s: MapState, p: Position, k: Collidable, c: seq<CollisionElement>, sorted: seq<CollisionElement>,
                  outcome: (Position, Collidable, seq<EntityEvent>))
    requires IsCollisionList(s, k.box, c) && multiset(sorted) == multiset(c) && Descending(sorted)
    requires outcome == ResolveAll(p, k, sorted)
    ensures IsMapPass(s, p, k, outcome)
  {
    assert IsSortedList(s, k.box, sorted);
  }

  // The bounded scan finds what a scan of the whole map finds.
  lemma RangeScanIsFullScan(s: MapState, box: Rect, c: seq<CollisionElement>, cells: seq<Cell>)
    requires Scannable(s, box) && IsRangeScan(s, box, c, cells)
    ensures IsFullScan(s, box, c, cells)
  {
    forall p: Cell
      ensures p in cells <==> p in FullScan(s, box)
    {
      RangesCoverMap(s, box, p.0, p.1);
    }
  }

  // The cells scanned once the scan has come to (x, y).
  ghost predicate ScannedTo(s: MapState, box: Rect, r: Ranges, c: seq<CollisionElement>, cells: seq<Cell>,
                            x: int, y: int)
  {
    && Listed(s, box, c, cells)
    && (forall p: Cell :: p in cells <==> Before(r, p, x, y) && CellElement(s, box, p.0, p.1).Some?)
  }

  predicate Before(r: Ranges, p: Cell, x: int, y: int) {
    r.fromX <= p.0 && r.fromY <= p.1 <= r.toY && (p.0 < x || (p.0 == x && p.1 < y))
  }

  lemma ScanCell(s: MapState, box: Rect, r: Ranges, c: seq<CollisionElement>, cells: seq<Cell>, x: int, y: int)
    requires ScannedTo(s, box, r, c, cells, x, y) && r.fromX <= x && r.fromY <= y <= r.toY
    ensures var e := CellElement(s, box, x, y);
            if e.Some? then ScannedTo(s, box, r, c + [e.value], cells + [(x, y)], x, y + 1)
            else ScannedTo(s, box, r, c, cells, x, y + 1)
  {
    hide CellElement;
    var cell: Cell := (x, y);
    assert !Before(r, cell, x, y) && cell !in cells;
    forall p: Cell {
      OneMoreBefore(r, p, x, y);
    }
    hide Before;
  }

  lemma OneMoreBefore(r: Ranges, p: Cell, x: int, y: int)
    requires r.fromX <= x && r.fromY <= y <= r.toY
    ensures Before(r, p, x, y + 1) <==> Before(r, p, x, y) || p == (x, y)
  {
  }

  lemma NextColumn(s: MapState, box: Rect, r: Ranges, c: seq<CollisionElement>, cells: seq<Cell>, x: int, y: int)
    requires ScannedTo(s, box, r, c, cells, x, y) && y > r.toY
    ensures ScannedTo(s, box, r, c, cells, x + 1, r.fromY)
  {
  }

  lemma ScannedAll(s: MapState, box: Rect, c: seq<CollisionElement>, cells: seq<Cell>, x: int)
    requires ScannedTo(s, box, RangesOf(box), c, cells, x, RangesOf(box).fromY)
    requires x == if RangesOf(box).fromX <= RangesOf(box).toX then RangesOf(box).toX + 1 else RangesOf(box).fromX
    ensures IsRangeScan(s, box, c, cells)
  {
    var r := RangesOf(box);
    forall p: Cell
      ensures Before(r, p, x, r.fromY) <==> r.fromX <= p.0 <= r.toX && r.fromY <= p.1 <= r.toY
    {
    }
  }

  class GameMap {
    const tileSet: TileSet
    var tiles: map<nat, Tile>
    var width: nat
    var height: nat
    var defaultFriction: Vec

    function State(): MapState
      reads this
    {
      MapState(tiles, width, height, defaultFriction)
    }

    constructor (tileSet: TileSet)
      ensures State() == MapState(map[], 32, 32, ZERO) && this.tileSet == tileSet
    {
      this.tileSet := tileSet;
      tiles, width, height, defaultFriction := map[], 32, 32, ZERO;
    }

    method LoadMap(lines: seq<MapLine>)
      modifies this
      ensures State() == Load(old(State()), tileSet, lines)
    {
      for i := 0 to |lines|
        invariant State() == Load(old(State()), tileSet, lines[..i])
      {
        var line := lines[i];
        assert lines[..i + 1][..i] == lines[..i];
        match line {
          case SizeLine(w, h) => width, height := w, h;
          case FrictionLine(f) => defaultFriction := f;
          case TileLine(tileId, x, y, layer, solid, warp) =>
            if tileId in tileSet && x <= width && y <= height && layer < NUM_LAYERS {
              var code := ConvertCoords(width, height, x, y, layer);
              if code !in tiles {
                tiles := tiles[code := Tile(tileSet[tileId], solid, warp)];
              }
            }
        }
      }
      assert lines[..|lines|] == lines;
    }

    method GetTile(x: int, y: int, layer: int) returns (t: Option<Tile>)
      ensures t == Tiles.GetTile(State(), x, y, layer)
    {
      var ux, uy, ul := ToUnsigned(x), ToUnsigned(y), ToUnsigned(layer);
      if ux >= width || uy >= height || ul >= NUM_LAYERS {
        return None;
      }
      var code := ConvertCoords(width, height, ux, uy, ul);
      if code !in tiles {
        return None;
      }
      return Some(tiles[code]);
    }

    method GetTileFriction(elevation: nat, x: int, y: int) returns (friction: Vec)
      ensures friction == FrictionAt(State(), x, y, elevation)
    {
      var tile := GetTile(x, y, elevation);
      var l: nat := elevation;
      while tile.None? && l > 0
        invariant l <= elevation && tile == Tiles.GetTile(State(), x, y, l)
        invariant FrictionAt(State(), x, y, elevation) == FrictionAt(State(), x, y, l)
      {
        l := l - 1;
        tile := GetTile(x, y, l);
      }
      friction := if tile.Some? then tile.value.properties.friction else ZERO;
    }

    // The layer loop: at most one element per cell.
    method ScanLayers(box: Rect, x: int, y: int) returns (e: Option<CollisionElement>)
      ensures e == CellElement(State(), box, x, y)
    {
      for l := 0 to NUM_LAYERS
        invariant Area(Intersection(box, TileBounds(x, y))) == 0.0 ||
                  SolidTile(State(), x, y, 0) == SolidTile(State(), x, y, l)
      {
        var t := GetTile(x, y, l);
        if t.Some? && t.value.solid {
          var area := Area(Intersection(box, TileBounds(x, y)));
          if area != 0.0 {
            return Some(CollisionElement(area, t.value.properties, TileBounds(x, y)));
          }
        }
      }
      return None;
    }

    // The collision list: the bounded scan finds what a scan of the whole map would.
    method Scan(box: Rect) returns (c: seq<CollisionElement>)
      ensures IsCollisionList(State(), box, c)
      ensures Scannable(State(), box) ==> exists cells :: IsFullScan(State(), box, c, cells)
    {
      var r := RangesOf(box);
      c := [];
      ghost var cells := [];
      var x := r.fromX;
      while x <= r.toX
        invariant r.fromX <= x && (x <= r.toX + 1 || x == r.fromX)
        invariant ScannedTo(State(), box, r, c, cells, x, r.fromY)
        decreases r.toX - x
      {
        var y := r.fromY;
        while y <= r.toY
          invariant r.fromY <= y
          invariant ScannedTo(State(), box, r, c, cells, x, y)
          decreases r.toY - y
        {
          var e := ScanLayers(box, x, y);
          ScanCell(State(), box, r, c, cells, x, y);
          if e.Some? {
            c, cells := c + [e.value], cells + [(x, y)];
          }
          y := y + 1;
        }
        NextColumn(State(), box, r, c, cells, x, y);
        x := x + 1;
      }
      ScannedAll(State(), box, c, cells, x);
      if Scannable(State(), box) {
        RangeScanIsFullScan(State(), box, c, cells);
      }
    }

    // checkOutOfBounds.
    method CheckOutOfBounds(p: Position, k: Collidable) returns (p': Position, k': Collidable)
      ensures (p', k') == Bounded(p, k, width, height)
    {
      p', k' := p, k;
      if p'.at.x < 0.0 {
        p' := MovedTo(p', Vec(0.0, p'.at.y));
        k' := BoxAt(k', p'.at);
      } else if p'.at.x > (width * TILE_SIZE) as real {
        p' := MovedTo(p', Vec((width * TILE_SIZE) as real, p'.at.y));
        k' := BoxAt(k', p'.at);
      }
      if p'.at.y < 0.0 {
        p' := MovedTo(p', Vec(p'.at.x, 0.0));
        k' := BoxAt(k', p'.at);
      } else if p'.at.y > (height * TILE_SIZE) as real {
        p' := MovedTo(p', Vec(p'.at.x, (height * TILE_SIZE) as real));
        k' := BoxAt(k', p'.at);
      }
    }

    // mapCollisions: the collisions of the box, the largest overlap first, each resolved in turn.
    method MapCollisions(p: Position, k: Collidable)
      returns (p': Position, k': Collidable, events: seq<EntityEvent>)
      ensures IsMapPass(State(), p, k, (p', k', events))
    {
      hide IsCollisionList, IsMapPass, IsFullScan;
      var c := Scan(k.box);
      var order := SortByArea(c);
      p', k', events := p, k, [];
      for i := 0 to |order|
        invariant (p', k', events) == ResolveAll(p, k, order[..i])
      {
        assert order[..i + 1][..i] == order[..i];
        var r := ResolveTile(p', k', order[i].bounds);
        p', k', events := r.position, r.box, events + [r.event];
      }
      assert order[..|order|] == order;
      MapPassIs(State(), p, k, c, order, (p', k', events));
    }
  }

  // std::sort by descending area; ties in any order.
  method SortByArea(c: seq<CollisionElement>) returns (r: seq<CollisionElement>)
    ensures multiset(r) == multiset(c) && Descending(r)
  {
    r := [];
    for i := 0 to |c|
      invariant multiset(r) == multiset(c[..i]) && Descending(r)
    {
      assert c[..i + 1] == c[..i] + [c[i]];
      r := Insert(r, c[i]);
    }
    assert c[..|c|] == c;
  }

  method Insert(c: seq<CollisionElement>, e: CollisionElement) returns (r: seq<CollisionElement>)
    requires Descending(c)
    ensures multiset(r) == multiset(c) + multiset{e} && Descending(r)
  {
    var k := 0;
    while k < |c| && c[k].area >= e.area
      invariant k <= |c| && forall j :: 0 <= j < k ==> c[j].area >= e.area
    {
      k := k + 1;
    }
    r := c[..k] + [e] + c[k..];
    InsertedOrder(c, k, e);
    InsertedElements(c, k, e);
  }

  lemma InsertedOrder(c: seq<CollisionElement>, k: nat, e: CollisionElement)
    requires Descending(c) && k <= |c|
    requires forall j :: 0 <= j < k ==> c[j].area >= e.area
    requires k < |c| ==> c[k].area < e.area
    ensures Descending(c[..k] + [e] + c[k..])
  {
  }

  lemma InsertedElements(c: seq<CollisionElement>, k: nat, e: CollisionElement)
    requires k <= |c|
    ensures multiset(c[..k] + [e] + c[k..]) == multiset(c) + multiset{e}
  {
    assert c == c[..k] + c[k..];
  }
}
