/** What colliding comes to: overlaps as sets of points, and which way an entity is pushed out of a tile. */
module Obstacles {
  import opened Components
  import opened Ecs
  import opened Geometry
  import opened Integers
  import opened Motion
  import opened Rules
  import opened Machine
  import opened GameLoop
  import opened Tiles
  import opened MapObjects

  // ---------- overlaps ----------

  predicate Between(a: real, x: real, b: real) {
    a < x < b || b < x < a
  }

  // The point lies inside the rectangle, whichever corner the rectangle is given by.
  predicate Inside(r: Rect, x: real, y: real) {
    Between(r.left, x, r.left + r.width) && Between(r.top, y, r.top + r.height)
  }

  lemma CommonBetween(a: real, b: real, c: real, d: real, x: real)
    ensures Between(a, x, b) && Between(c, x, d) <==> Max(Min(a, b), Min(c, d)) < x < Min(Max(a, b), Max(c, d))
  {
  }

  // The overlap of two rectangles is exactly the points inside both, and there are some exactly if they intersect.
  lemma OverlapIsCommon(a: Rect, b: Rect, x: real, y: real)
    ensures Inside(a, x, y) && Inside(b, x, y) ==> Intersects(a, b)
    ensures Intersects(a, b) ==> (Inside(Intersection(a, b), x, y) <==> Inside(a, x, y) && Inside(b, x, y))
  {
    CommonBetween(a.left, a.left + a.width, b.left, b.left + b.width, x);
    CommonBetween(a.top, a.top + a.height, b.top, b.top + b.height, y);
  }

  lemma OverlapHasPoint(a: Rect, b: Rect) returns (x: real, y: real)
    requires Intersects(a, b)
    ensures Inside(a, x, y) && Inside(b, x, y)
  {
    var o := Intersection(a, b);
    x, y := o.left + o.width / 2.0, o.top + o.height / 2.0;
    OverlapIsCommon(a, b, x, y);
  }

  // An attack is reported exactly if some point is inside both the area of attack and the other one's box.
  lemma ReachesAPoint(w: World, s: EntityId, r: EntityId)
    requires BodyOf(w, s).attacker.Some? && BodyOf(w, r).collidable.Some?
    ensures Reaches(w, s, r) <==>
            exists x: real, y: real :: InBoth(BodyOf(w, s).attacker.value.area, BodyOf(w, r).collidable.value.box, x, y)
  {
    var area, box := BodyOf(w, s).attacker.value.area, BodyOf(w, r).collidable.value.box;
    if Reaches(w, s, r) {
      var x, y := OverlapHasPoint(area, box);
      assert InBoth(area, box, x, y);
    }
    if exists x: real, y: real :: InBoth(area, box, x, y) {
      var x: real, y: real :| InBoth(area, box, x, y);
      OverlapIsCommon(area, box, x, y);
    }
  }

  predicate InBoth(a: Rect, b: Rect, x: real, y: real) {
    Inside(a, x, y) && Inside(b, x, y)
  }

  // A cell of the map collides exactly if it has a solid tile and the box is over it, with the properties of the lowest
  // one and the size of the overlap.
  lemma CellCollides(s: MapState, box: Rect, x: int, y: int)
    ensures var e := CellElement(s, box, x, y);
            && (e.Some? <==> IsSolid(s, x, y) && Intersects(box, Rect((32 * x) as real, (32 * y) as real, 32.0, 32.0)))
            && (e.Some? ==>
                  && e.value.bounds == Rect((32 * x) as real, (32 * y) as real, 32.0, 32.0)
                  && (var overlap := Intersection(box, e.value.bounds); e.value.area == overlap.width * overlap.height)
                  && exists l: nat :: IsLowestSolid(s, x, y, l) && e.value.tile == GetTile(s, x, y, l).value.properties)
  {
    hide Intersects, Intersection, SolidTile, SolidAt, GetTile, TileBounds, IsLowestSolid, IsSolid;
    var l := LowestSolid(s, x, y, 0);
    LowestIsSolid(s, x, y, l);
    BoundsAre(x, y);
    OverlapIsPositive(box, TileBounds(x, y));
  }

  lemma LowestIsSolid(s: MapState, x: int, y: int, l: nat)
    ensures IsLowestSolid(s, x, y, l) ==> IsSolid(s, x, y) && GetTile(s, x, y, l).Some?
  {
  }

  lemma BoundsAre(x: int, y: int)
    ensures TileBounds(x, y) == Rect((32 * x) as real, (32 * y) as real, 32.0, 32.0)
  {
  }

  predicate SolidAt(s: MapState, x: int, y: int, l: nat) {
    GetTile(s, x, y, l).Some? && GetTile(s, x, y, l).value.solid
  }

  ghost predicate IsSolid(s: MapState, x: int, y: int) {
    exists l: nat :: l < NUM_LAYERS && SolidAt(s, x, y, l)
  }

  ghost predicate IsLowestSolid(s: MapState, x: int, y: int, l: nat) {
    l < NUM_LAYERS && SolidAt(s, x, y, l) && forall k: nat :: k < l ==> !SolidAt(s, x, y, k)
  }

  lemma {:induction false} LowestSolid(s: MapState, x: int, y: int, from: nat) returns (l: nat)
    requires forall k: nat :: k < from ==> !SolidAt(s, x, y, k)
    ensures if SolidTile(s, x, y, from).Some?
            then IsLowestSolid(s, x, y, l) && SolidTile(s, x, y, from) == GetTile(s, x, y, l)
            else !IsSolid(s, x, y)
    decreases NUM_LAYERS - from
  {
    l := from;
    if from < NUM_LAYERS && !SolidAt(s, x, y, from) {
      l := LowestSolid(s, x, y, from + 1);
    }
  }

  // ---------- pushed out ----------

  function Centre(start: real, size: real): real {
    start + size / 2.0
  }

  // The entity is pushed out on the axis on which its centre is further from the tile's, to the side its centre is on,
  // and remembers that it collided there.
  lemma PushedOutOnItsSide(p: Position, k: Collidable, x: int, y: int)
    requires InStep(p, k)
    ensures var b, r := TileBounds(x, y), ResolveTile(p, k, TileBounds(x, y));
            var dx := Centre(k.box.left, k.box.width) - Centre(b.left, 32.0);
            var dy := Centre(k.box.top, k.box.height) - Centre(b.top, 32.0);
            && r.box.(box := k.box, onX := k.onX, onY := k.onY) == k && r.box.box.width == k.box.width
            && r.box.box.height == k.box.height
            && r.position.previous == p.at && r.position.elevation == p.elevation
            && r.position.at == Vec(p.at.x + (r.box.box.left - k.box.left), p.at.y + (r.box.box.top - k.box.top))
            && (if Abs(dx) > Abs(dy) then
                  && r.event == CollidingX && r.box.onX && r.box.onY == k.onY && r.box.box.top == k.box.top
                  && (if dx > 0.0 then r.box.box.left == b.left + 32.0 else r.box.box.left + k.box.width == b.left)
                else
                  && r.event == CollidingY && r.box.onY && r.box.onX == k.onX && r.box.box.left == k.box.left
                  && (if dy > 0.0 then r.box.box.top == b.top + 32.0 else r.box.box.top + k.box.height == b.top))
  {
  }

  // After a pass the flags are those of the events, the box keeps its size and stays in step, and without a collision
  // nothing has moved.
  lemma {:induction false} PassOutcome(p: Position, k: Collidable, elements: seq<CollisionElement>)
    requires InStep(p, k)
    ensures var (p', k', events) := ResolveAll(p, k, elements);
            && InStep(p', k') && k'.box.width == k.box.width && k'.box.height == k.box.height
            && p'.elevation == p.elevation && |events| == |elements|
            && (forall event :: event in events ==> event == CollidingX || event == CollidingY)
            && (k'.onX <==> k.onX || CollidingX in events) && (k'.onY <==> k.onY || CollidingY in events)
            && (elements == [] ==> p' == p && k' == k)
  {
    if elements != [] {
      var before, last := elements[..|elements| - 1], elements[|elements| - 1];
      PassOutcome(p, k, before);
      var (p1, k1, events) := ResolveAll(p, k, before);
      TileOutcome(p1, k1, last.bounds);
      hide ResolveTile, InStep;
    }
  }

  lemma TileOutcome(p: Position, k: Collidable, bounds: Rect)
    requires InStep(p, k)
    ensures var r := ResolveTile(p, k, bounds);
            && InStep(r.position, r.box) && r.box.box.width == k.box.width && r.box.box.height == k.box.height
            && r.position.elevation == p.elevation && (r.event == CollidingX || r.event == CollidingY)
            && (r.box.onX <==> k.onX || r.event == CollidingX) && (r.box.onY <==> k.onY || r.event == CollidingY)
  {
  }

  // Out of bounds an entity comes to the nearest place on the map, and inside it stays where it is.
  lemma BoundedIsNearest(p: Position, k: Collidable, width: nat, height: nat, q: Vec)
    requires 0.0 <= q.x <= (32 * width) as real && 0.0 <= q.y <= (32 * height) as real
    ensures var (p', k') := Bounded(p, k, width, height);
            && Abs(p'.at.x - p.at.x) <= Abs(q.x - p.at.x) && Abs(p'.at.y - p.at.y) <= Abs(q.y - p.at.y)
            && p'.elevation == p.elevation && k'.(box := k.box) == k
            && (p'.at.x != p.at.x && p'.at.y == p.at.y ==> p'.previous == p.at)
            && (p'.at.y != p.at.y ==> p'.previous == Vec(p'.at.x, p.at.y))
  {
  }

  // The friction under an entity is that of the highest tile at or below its elevation in the cell its place is in.
  lemma FrictionOfItsCell(s: MapState, p: Position, x: int, y: int, l: nat)
    requires (32 * x) as real <= p.at.x < (32 * x + 32) as real && (32 * y) as real <= p.at.y < (32 * y + 32) as real
    requires l <= p.elevation && GetTile(s, x, y, l).Some?
    requires forall k :: l < k <= p.elevation ==> GetTile(s, x, y, k).None?
    ensures FrictionUnder(s, p) == GetTile(s, x, y, l).value.properties.friction
  {
    CellOfPoint(p.at.x, x);
    CellOfPoint(p.at.y, y);
    FrictionIsOfHighestTile(s, x, y, p.elevation, l);
  }

  lemma CellOfPoint(a: real, x: int)
    requires (32 * x) as real <= a < (32 * x + 32) as real
    ensures FloorTile(a) == x
  {
    if x < FloorTile(a) {
      BelowFloor(a, x);
    } else if x > FloorTile(a) {
      AboveFloor(a, x);
    }
  }

  // The collisions are resolved largest first: no cell the scan comes to has a larger overlap than the first, and none
  // a larger one than those before it.
  lemma LargestFirst(s: MapState, box: Rect, sorted: seq<CollisionElement>, x: int, y: int, j: nat, k: nat)
    requires IsSortedList(s, box, sorted) && RangesFit(box) && j < k < |sorted|
    ensures sorted[j].area >= sorted[k].area
    ensures InRanges(box, x, y) && CellElement(s, box, x, y).Some? ==>
            CellElement(s, box, x, y).value in sorted && CellElement(s, box, x, y).value.area <= sorted[0].area
  {
    hide IsCollisionList, InRanges, CellElement;
    var c :| multiset(sorted) == multiset(c) && IsCollisionList(s, box, c);
    if InRanges(box, x, y) && CellElement(s, box, x, y).Some? {
      var i := ScannedCell(s, box, c, x, y);
      assert c[i] in multiset(sorted);
    }
  }

  lemma ScannedCell(s: MapState, box: Rect, c: seq<CollisionElement>, x: int, y: int) returns (i: nat)
    requires IsCollisionList(s, box, c) && RangesFit(box) && InRanges(box, x, y) && CellElement(s, box, x, y).Some?
    ensures i < |c| && c[i] == CellElement(s, box, x, y).value
  {
    hide CellElement, FloorTile, ToInt32;
    var cells :| IsRangeScan(s, box, c, cells);
    var cell: Cell := (x, y);
    assert cell in cells;
    i :| 0 <= i < |cells| && cells[i] == cell;
  }

  // After a map turn the box is in step if it was, on the map's scale the flags say what the events say, whatever they
  // said before, and the events are about this turn only.
  lemma MapTurnOutcome(s: MapState, w: World, e: EntityId, a: Action)
    requires IsMapTurn(s, w, e, a) && InStep(BodyOf(w, e).position.value, BodyOf(w, e).collidable.value)
    ensures InStep(a.position, a.box)
    ensures a.box.onX <==> CollidingX in a.events
    ensures a.box.onY <==> CollidingY in a.events
    ensures forall event :: event in a.events ==> event == CollidingX || event == CollidingY
  {
    var p, k := BodyOf(w, e).position.value, BodyOf(w, e).collidable.value.(onX := false, onY := false);
    var (p', k') := Bounded(p, k, s.width, s.height);
    BoundedIsOnMap(p, k, s.width, s.height);
    BoundedFlags(p, k, s.width, s.height);
    hide Bounded, IsSortedList, ResolveAll;
    var sorted :| IsSortedList(s, k'.box, sorted) && (a.position, a.box, a.events) == ResolveAll(p', k', sorted);
    PassOutcome(p', k', sorted);
  }

  lemma BoundedFlags(p: Position, k: Collidable, width: nat, height: nat)
    ensures var (p', k') := Bounded(p, k, width, height); k'.onX == k.onX && k'.onY == k.onY
  {
  }
}
