/** Pan and zoom arithmetic of the game map: the pan offset is clamped so that
    part of a 16:10 virtual map always stays on screen, and the zoom scale is
    clamped to [0.5, 3]. Numbers are reals; floating-point rounding is not
    modelled. */
module Viewport {
  import opened Wrappers

  datatype Point = Point(x: real, y: real)

  type Length = r: real | r >= 0.0

  /** The map container's `clientWidth` and `clientHeight`. */
  datatype Size = Size(width: Length, height: Length)

  /** The map's aspect ratio, 16 / 10. */
  const MapAspect: real := 1.6
  /** Fraction of the viewport that is reserved as a visible margin. */
  const VisibleMargin: real := 0.4
  const MinScale: real := 0.5
  const MaxScale: real := 3.0
  /** Factors of the on-screen "+" and "-" zoom buttons. */
  const ZoomInButtonFactor: real := 1.15
  const ZoomOutButtonFactor: real := 0.85

  /** Size of the virtual map at `scale`: the largest 16:10 rectangle that fits
      the viewport, scaled. `clampOffset` compares `vw / vh > 16 / 10`; for
      non-negative sizes that is `vw > 1.6 * vh`, including `vh == 0` where the
      quotient is Infinity (`vw > 0`) or NaN (`vw == 0`). */
  function VirtualMapSize(view: Size, scale: Length): (map_: Point)
    ensures map_.x == map_.y * MapAspect
    ensures map_.x <= view.width * scale && map_.y <= view.height * scale
    ensures map_.x == view.width * scale || map_.y == view.height * scale
  {
    if view.width > MapAspect * view.height then
      var h := view.height * scale;
      assert h * MapAspect <= view.width * scale by {
        assert (MapAspect * view.height) * scale <= view.width * scale;
      }
      Point(h * MapAspect, h)
    else
      var w := view.width * scale;
      assert w / MapAspect <= view.height * scale by {
        assert view.width * scale <= (MapAspect * view.height) * scale;
      }
      Point(w, w / MapAspect)
  }

  /** The largest pan offset allowed on each axis. */
  function MaxOffset(view: Size, scale: Length): (m: Point)
    ensures m.x >= 0.0 && m.y >= 0.0
  {
    var size := VirtualMapSize(view, scale);
    Point(Max(0.0, (size.x - view.width * VisibleMargin) / 2.0),
          Max(0.0, (size.y - view.height * VisibleMargin) / 2.0))
  }

  function Max(a: real, b: real): real { if a >= b then a else b }
  function Min(a: real, b: real): real { if a <= b then a else b }

  predicate InBounds(p: Point, bound: Point) {
    -bound.x <= p.x <= bound.x && -bound.y <= p.y <= bound.y
  }

  /** `Math.max(-bound, Math.min(bound, v))`. */
  function ClampAxis(v: real, bound: real): (r: real)
    requires bound >= 0.0
    ensures -bound <= r <= bound
    ensures -bound <= v <= bound ==> r == v
    ensures v > bound ==> r == bound
    ensures v < -bound ==> r == -bound
  {
    Max(-bound, Min(bound, v))
  }

  /** `clampOffset`: with no container the offset is returned as it is;
      otherwise each axis is clamped to the allowed pan range. */
  function ClampOffset(next: Point, container: Option<Size>, scale: Length): (r: Point)
    ensures container.None? ==> r == next
    ensures container.Some? ==> InBounds(r, MaxOffset(container.value, scale))
    ensures container.Some? && InBounds(next, MaxOffset(container.value, scale)) ==> r == next
    ensures container.Some? ==>
      var m := MaxOffset(container.value, scale);
      && (-m.x <= next.x <= m.x ==> r.x == next.x)
      && (next.x > m.x ==> r.x == m.x)
      && (next.x < -m.x ==> r.x == -m.x)
      && (-m.y <= next.y <= m.y ==> r.y == next.y)
      && (next.y > m.y ==> r.y == m.y)
      && (next.y < -m.y ==> r.y == -m.y)
  {
    match container
    case None => next
    case Some(view) =>
      var m := MaxOffset(view, scale);
      Point(ClampAxis(next.x, m.x), ClampAxis(next.y, m.y))
  }

  /** Clamping is idempotent. */
  lemma ClampOffsetIdempotent(next: Point, container: Option<Size>, scale: Length)
    ensures ClampOffset(ClampOffset(next, container, scale), container, scale)
         == ClampOffset(next, container, scale)
  {
  }

  predicate InScaleRange(s: real) {
    MinScale <= s <= MaxScale
  }

  /** `applyZoom`'s state updater: `Math.min(3, Math.max(0.5, prev * factor))`. */
  function ApplyZoom(prev: real, factor: real): (r: real)
    ensures InScaleRange(r)
    ensures InScaleRange(prev * factor) ==> r == prev * factor
    ensures prev * factor < MinScale ==> r == MinScale
    ensures prev * factor > MaxScale ==> r == MaxScale
  {
    Min(MaxScale, Max(MinScale, prev * factor))
  }

  /** The wheel handler zooms in by 1.1 exactly when the wheel moved up
      (`-deltaY > 0`), and out by 0.9 otherwise, a zero delta included. */
  function WheelZoomFactor(deltaY: real): (f: real)
    ensures (f == 1.1) <==> -deltaY > 0.0
    ensures (f == 0.9) <==> !(-deltaY > 0.0)
  {
    var delta := -deltaY;
    if delta > 0.0 then 1.1 else 0.9
  }

  /** Two zoom steps equal one step by the product of their factors whenever
      the first step was not clamped. */
  lemma ZoomComposes(prev: real, f1: real, f2: real)
    requires InScaleRange(prev * f1)
    ensures ApplyZoom(ApplyZoom(prev, f1), f2) == ApplyZoom(prev, f1 * f2)
  {
    assert (prev * f1) * f2 == prev * (f1 * f2);
  }

  /** Applying a sequence of zoom factors in order. */
  function ZoomAll(prev: real, factors: seq<real>): (r: real)
    ensures factors != [] ==> InScaleRange(r)
    ensures factors == [] ==> r == prev
    decreases |factors|
  {
    if factors == [] then prev else ZoomAll(ApplyZoom(prev, factors[0]), factors[1..])
  }

  function Product(factors: seq<real>): real {
    if factors == [] then 1.0 else factors[0] * Product(factors[1..])
  }

  /** No step of the sequence but the last reaches the clamp: each partial
      product stays inside the scale range. */
  predicate NoIntermediateClamp(prev: real, factors: seq<real>)
    decreases |factors|
  {
    |factors| <= 1 || (InScaleRange(prev * factors[0]) && NoIntermediateClamp(prev * factors[0], factors[1..]))
  }

  lemma MulAssoc(a: real, b: real, c: real)
    ensures (a * b) * c == a * (b * c)
  {
  }

  /** With no intermediate clamping, a sequence of zoom steps is one step by
      the product of the factors. */
  lemma {:induction false} ZoomAllIsOneStep(prev: real, factors: seq<real>)
    requires factors != []
    requires NoIntermediateClamp(prev, factors)
    ensures ZoomAll(prev, factors) == ApplyZoom(prev, Product(factors))
    decreases |factors|
  {
    var rest := factors[1..];
    if rest == [] {
      assert Product(factors) == factors[0] * 1.0;
    } else {
      var next := prev * factors[0];
      assert ApplyZoom(prev, factors[0]) == next;
      ZoomAllIsOneStep(next, rest);
      MulAssoc(prev, factors[0], Product(rest));
    }
  }

  /** Intermediate clamping loses information: zooming 4x and then 0.5x from
      scale 1 ends at 1.5, not at the clamp of the product, 2. */
  lemma ClampedZoomIsNotMultiplicative()
    ensures ZoomAll(1.0, [4.0, 0.5]) == 1.5
    ensures ApplyZoom(1.0, Product([4.0, 0.5])) == 2.0
  {
    assert [4.0, 0.5][1..] == [0.5];
    assert [0.5][1..] == [];
  }
}
