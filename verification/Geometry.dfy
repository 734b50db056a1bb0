/** Axis-aligned rectangles as sf::FloatRect treats them: a negative size flips the rectangle. */
module Geometry {
  import opened Components

  function Min(a: real, b: real): real {
    if b < a then b else a
  }

  function Max(a: real, b: real): real {
    if a < b then b else a
  }

  function LeftOf(r: Rect): real { Min(r.left, r.left + r.width) }

  function RightOf(r: Rect): real { Max(r.left, r.left + r.width) }

  function TopOf(r: Rect): real { Min(r.top, r.top + r.height) }

  function BottomOf(r: Rect): real { Max(r.top, r.top + r.height) }

  predicate Intersects(a: Rect, b: Rect) {
    && Max(LeftOf(a), LeftOf(b)) < Min(RightOf(a), RightOf(b))
    && Max(TopOf(a), TopOf(b)) < Min(BottomOf(a), BottomOf(b))
  }

  // The overlap of two rectangles; the empty rectangle at the origin when there is none.
  function Intersection(a: Rect, b: Rect): Rect {
    if !Intersects(a, b) then Rect(0.0, 0.0, 0.0, 0.0)
    else
      var left, top := Max(LeftOf(a), LeftOf(b)), Max(TopOf(a), TopOf(b));
      Rect(left, top, Min(RightOf(a), RightOf(b)) - left, Min(BottomOf(a), BottomOf(b)) - top)
  }

  function Area(r: Rect): real {
    r.width * r.height
  }

  lemma OverlapIsPositive(a: Rect, b: Rect)
    ensures Area(Intersection(a, b)) >= 0.0
    ensures Area(Intersection(a, b)) != 0.0 <==> Intersects(a, b)
  {
  }
}
