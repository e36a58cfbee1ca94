/** Points, rectangles and the affine maps of the plotting library.

    Every transform the core builds or consumes (figure fraction, axes fraction,
    data coordinates with linear scales, and the anchored unit systems) scales and
    translates each axis on its own, so a transform is modelled by the four
    numbers of `Affine`. Blending two such maps per axis is then exact. */
module Geometry {
  import opened Base

  datatype Point = Point(x: real, y: real)

  function Add(p: Point, q: Point): Point { Point(p.x + q.x, p.y + q.y) }
  function Sub(p: Point, q: Point): Point { Point(p.x - q.x, p.y - q.y) }

  /** A bounding box by its two corners, `[[x0, y0], [x1, y1]]`. */
  datatype Rect = Rect(p0: Point, p1: Point) {
    predicate NonDegenerate() { p1.x != p0.x && p1.y != p0.y }
  }

  /** The map `(x, y) |-> (sx*x + tx, sy*y + ty)`. */
  datatype Affine = Affine(sx: real, tx: real, sy: real, ty: real) {
    function Apply(p: Point): Point { Point(sx * p.x + tx, sy * p.y + ty) }
    predicate Invertible() { sx != 0.0 && sy != 0.0 }
  }

  /** `CompositeGenericTransform(a, b)`: first `a`, then `b`. */
  function Then(a: Affine, b: Affine): Affine
  {
    Affine(b.sx * a.sx, b.sx * a.tx + b.tx, b.sy * a.sy, b.sy * a.ty + b.ty)
  }

  lemma ThenApply(a: Affine, b: Affine, p: Point)
    ensures Then(a, b).Apply(p) == b.Apply(a.Apply(p))
  {
    var q := a.Apply(p);
    Distribute(b.sx, a.sx, p.x, a.tx);
    Distribute(b.sy, a.sy, p.y, a.ty);
    assert b.Apply(q).x == (b.sx * a.sx) * p.x + (b.sx * a.tx + b.tx);
    assert b.Apply(q).y == (b.sy * a.sy) * p.y + (b.sy * a.ty + b.ty);
    var c := Then(a, b);
    SameFactor(c.sx, b.sx * a.sx, p.x);
    SameFactor(c.sy, b.sy * a.sy, p.y);
  }

  lemma SameFactor(u: real, v: real, x: real)
    requires u == v
    ensures u * x == v * x
  {
  }

  lemma Distribute(c: real, s: real, x: real, t: real)
    ensures c * (s * x + t) == (c * s) * x + c * t
  {
  }

  /** `BboxTransformTo(r)`: the unit square onto `r`. */
  function BboxTransformTo(r: Rect): Affine
  {
    Affine(r.p1.x - r.p0.x, r.p0.x, r.p1.y - r.p0.y, r.p0.y)
  }

  lemma BboxTransformToCorners(r: Rect)
    ensures BboxTransformTo(r).Apply(Point(0.0, 0.0)) == r.p0
    ensures BboxTransformTo(r).Apply(Point(1.0, 1.0)) == r.p1
  {
  }

  /** `BboxTransformFrom(r)`: `r` onto the unit square. */
  function BboxTransformFrom(r: Rect): Affine
    requires r.NonDegenerate()
  {
    var w, h := r.p1.x - r.p0.x, r.p1.y - r.p0.y;
    Affine(1.0 / w, -r.p0.x / w, 1.0 / h, -r.p0.y / h)
  }

  lemma BboxTransformFromCorners(r: Rect)
    requires r.NonDegenerate()
    ensures BboxTransformFrom(r).Apply(r.p0) == Point(0.0, 0.0)
    ensures BboxTransformFrom(r).Apply(r.p1) == Point(1.0, 1.0)
  {
    var w, h := r.p1.x - r.p0.x, r.p1.y - r.p0.y;
    assert (1.0 / w) * r.p1.x + -r.p0.x / w == (r.p1.x - r.p0.x) / w;
    assert (1.0 / h) * r.p1.y + -r.p0.y / h == (r.p1.y - r.p0.y) / h;
  }

  /** `inverted()`: fails on a singular map, as the library's matrix inversion does. */
  function Inverse(a: Affine): (r: Result<Affine>)
    ensures r.Ok? <==> a.Invertible()
    ensures r.Err? ==> r.error == Singular
  {
    if a.Invertible() then Ok(Affine(1.0 / a.sx, -a.tx / a.sx, 1.0 / a.sy, -a.ty / a.sy))
    else Err(Singular)
  }

  /** The inverse undoes the map on both sides. */
  lemma InverseApply(a: Affine, p: Point)
    requires a.Invertible()
    ensures Inverse(a).value.Apply(a.Apply(p)) == p && a.Apply(Inverse(a).value.Apply(p)) == p
  {
    var inv := Inverse(a).value;
    assert inv.sx * (a.sx * p.x + a.tx) + inv.tx == p.x;
    assert inv.sy * (a.sy * p.y + a.ty) + inv.ty == p.y;
    assert a.sx * (inv.sx * p.x + inv.tx) + a.tx == p.x;
    assert a.sy * (inv.sy * p.y + inv.ty) + a.ty == p.y;
  }

  /** `blended_transform_factory(xt, yt)`: x from the first map, y from the second. */
  function Blend(xt: Affine, yt: Affine): Affine
  {
    Affine(xt.sx, xt.tx, yt.sy, yt.ty)
  }

  lemma BlendApply(xt: Affine, yt: Affine, p: Point)
    ensures Blend(xt, yt).Apply(p).x == xt.Apply(p).x && Blend(xt, yt).Apply(p).y == yt.Apply(p).y
  {
  }

  lemma ScaledApart(u: real, v: real, c: real, s: real)
    requires s != 0.0
    ensures u != v ==> (u - c) / s != (v - c) / s
  {
    assert (u - c) / s * s == u - c;
    assert (v - c) / s * s == v - c;
  }

  /** One axis of an anchored unit system: the interval `[p0, p1]` measured in units of
      `s` from `a` is `[c0, c1]`; mapping that onto `[0, 1]` and `[0, 1]` back onto
      `[p0, p1]` scales by `s` and puts the origin at `a`. */
  lemma AnchoredAxis(p0: real, p1: real, a: real, s: real)
    requires p0 != p1 && s != 0.0
    ensures var c0, c1 := (p0 - a) / s, (p1 - a) / s;
            c1 - c0 != 0.0 &&
            (p1 - p0) * (1.0 / (c1 - c0)) == s &&
            (p1 - p0) * (-c0 / (c1 - c0)) + p0 == a
  {
    var c0, c1 := (p0 - a) / s, (p1 - a) / s;
    var w := p1 - p0;
    assert c1 - c0 == w / s;
    assert (w / s) * (s / w) == 1.0;
    assert 1.0 / (c1 - c0) == s / w;
    assert -c0 / (c1 - c0) == (a - p0) / w;
    assert w * ((a - p0) / w) == a - p0;
    assert w * (s / w) == s;
  }

  /** The rectangle `f` measured from the point `a` in units of `s`: `(f - a) / s`. */
  function InUnits(f: Rect, a: Point, s: real): (r: Rect)
    requires s != 0.0
    ensures f.NonDegenerate() ==> r.NonDegenerate()
  {
    ScaledApart(f.p0.x, f.p1.x, a.x, s);
    ScaledApart(f.p0.y, f.p1.y, a.y, s);
    Rect(Point((f.p0.x - a.x) / s, (f.p0.y - a.y) / s), Point((f.p1.x - a.x) / s, (f.p1.y - a.y) / s))
  }

  /** Taking a rectangle measured from an anchor point `a` in units of `s` onto the unit
      square and then the unit square back onto the rectangle leaves the map
      `u |-> a + s*u`: the composite `BboxTransformFrom((f - a) / s) + BboxTransformTo(f)`
      of an anchored unit system. */
  lemma AnchoredUnitSystem(f: Rect, a: Point, s: real)
    requires f.NonDegenerate() && s != 0.0
    ensures Then(BboxTransformFrom(InUnits(f, a, s)), BboxTransformTo(f)) == Affine(s, a.x, s, a.y)
  {
    AnchoredAxis(f.p0.x, f.p1.x, a.x, s);
    AnchoredAxis(f.p0.y, f.p1.y, a.y, s);
    var box := InUnits(f, a, s);
    var w, h := box.p1.x - box.p0.x, box.p1.y - box.p0.y;
    var from, to := BboxTransformFrom(box), BboxTransformTo(f);
    assert from == Affine(1.0 / w, -box.p0.x / w, 1.0 / h, -box.p0.y / h);
    assert to == Affine(f.p1.x - f.p0.x, f.p0.x, f.p1.y - f.p0.y, f.p0.y);
    assert to.sx * from.sx == s;
    assert to.sx * from.tx + to.tx == a.x;
    assert to.sy * from.sy == s;
    assert to.sy * from.ty + to.ty == a.y;
  }
}
