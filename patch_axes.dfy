/** `AxesPlus`, the axes of matplotpatch: a rectangle given in a unit system, margins
    given in a unit system that rescale the axis limits, tick-label pads given in a
    unit system, and the decorator that makes it the default projection. */
module PatchAxes {
  import opened Base
  import opened Geometry
  import opened Canvas
  import opened PatchTransforms

  // ---------------------------------------------------------------------------
  // `__init__`

  /** The rectangle `AxesPlus.__init__` hands to the axes: with a system, its pairs
      are points of that system for the figure (the `figure` keyword if given, else
      the current figure), converted to figure fractions; without one it is kept. */
  function AxesRect(system: Option<Systems>, figureKw: Option<Figure>, current: Figure,
                    rect: seq<real>): (r: Result<seq<real>>)
    requires current.Valid() && (figureKw.Some? ==> figureKw.value.Valid())
    ensures system.None? ==> r == Ok(rect)
    ensures system.Some? && r.Ok? ==> |rect| == 4 && |r.value| == 4
    ensures r.Err? ==> r.error in {NoSystems, NoAttribute, UnitNoMatch, BadNumber, BadUnit, BadAnchor, Degenerate, BadShape}
  {
    if system.None? then Ok(rect)
    else
      var fig := if figureKw.Some? then figureKw.value else current;
      var trans :- Factory(Some(FigureObj(fig)), current, system.value, "bl");
      FractionOfFigure(trans, fig, rect)
  }

  /** A rectangle in a bare unit (`'pt'`, `'inch'`, `'pc'`, ...) is measured from the
      figure's lower-left corner: it becomes `s*l/W, s*b/H, s*w/W, s*h/H` with `s` the
      pixels per unit; any length other than four fails on the shape. */
  lemma UnitAxesRect(figureKw: Option<Figure>, current: Figure, fig: Figure, rect: seq<real>, syst: string)
    requires current.Valid() && (figureKw.Some? ==> figureKw.value.Valid())
    requires fig == if figureKw.Some? then figureKw.value else current
    requires syst in PicaUnits + InchUnits + PointUnits
    ensures |rect| != 4 ==> AxesRect(Some(Name(syst)), figureKw, current, rect) == Err(BadShape)
    ensures |rect| == 4 ==>
      AxesRect(Some(Name(syst)), figureKw, current, rect) == Ok(Scaled4(fig.dpi / PerInch(syst), fig, rect))
  {
    var ob := FigureObj(fig);
    var s := fig.dpi / PerInch(syst);
    UnitFigureTransform(fig, current, syst);
    assert AxesRect(Some(Name(syst)), figureKw, current, rect) == FractionOfFigure(Affine(s, 0.0, s, 0.0), fig, rect);
    if |rect| == 4 {
      FractionOfScaledFigure(s, fig, rect);
    }
  }

  /** A bare unit for a figure: that many pixels per unit from its lower-left corner. */
  lemma UnitFigureTransform(fig: Figure, current: Figure, syst: string)
    requires fig.Valid() && current.Valid()
    requires syst in PicaUnits + InchUnits + PointUnits
    ensures var s := fig.dpi / PerInch(syst);
      Factory(Some(FigureObj(fig)), current, Name(syst), "bl") == Ok(Affine(s, 0.0, s, 0.0))
  {
    var ob := FigureObj(fig);
    FactorySingleName(Some(ob), current, syst, "bl");
    assert Resolve(Some(ob), current) == Ok((ob, fig));
    NamedUnitSystem(ob, fig, syst, "bl");
    assert OwnFigure(ob) == Ok(fig);
    assert ObjectPosition(ob, fig) == fig.Bbox();
    assert AnchorPoint("bl", fig.Bbox()) == Ok(Point(0.0, 0.0));
  }

  // ---------------------------------------------------------------------------
  // `set_margin`

  /** The `rect` argument: absent (or an empty list), a list, or something truthy that
      is not a list. */
  datatype RectArg = NoRect | RectList(items: seq<Option<real>>) | NotAList

  /** The four sides, `None` where unspecified. */
  datatype Sides = Sides(left: Option<real>, bottom: Option<real>, right: Option<real>, top: Option<real>)

  /** A list of four is left, bottom, right, top; a list of two is left and bottom, used
      again for right and top; without a list the keyword sides stay. */
  function RectSides(rect: RectArg, kw: Sides): (r: Result<Sides>)
    ensures rect.NoRect? || rect == RectList([]) ==> r == Ok(kw)
    ensures rect.NotAList? ==> r == Err(BadRect)
    ensures rect.RectList? && |rect.items| == 4 ==>
      r == Ok(Sides(rect.items[0], rect.items[1], rect.items[2], rect.items[3]))
    ensures rect.RectList? && |rect.items| == 2 ==>
      r == Ok(Sides(rect.items[0], rect.items[1], rect.items[0], rect.items[1]))
    ensures rect.RectList? && |rect.items| !in {0, 2, 4} ==> r == Err(BadRect)
  {
    match rect
    case NoRect => Ok(kw)
    case NotAList => Err(BadRect)
    case RectList(items) =>
      if |items| == 0 then Ok(kw)
      else if |items| == 4 then Ok(Sides(items[0], items[1], items[2], items[3]))
      else if |items| == 2 then Ok(Sides(items[0], items[1], items[0], items[1]))
      else Err(BadRect)
  }

  /** `arr[isnan(arr)] = 0`: an unspecified side counts as no margin. */
  function OrZero(side: Option<real>): real
  {
    if side.Some? then side.value else 0.0
  }

  /** The size of the axes in pixels: `transFigure` applied to the position's extent. */
  function SizePx(ax: Axes): (px: Point)
    ensures px == Point(ax.figure.width * (ax.position.p1.x - ax.position.p0.x),
                        ax.figure.height * (ax.position.p1.y - ax.position.p0.y))
  {
    ax.figure.TransFigure().Apply(Sub(ax.position.p1, ax.position.p0))
  }

  lemma SizePxNonZero(ax: Axes)
    requires ax.Valid()
    ensures SizePx(ax) == Point(ax.figure.width * (ax.position.p1.x - ax.position.p0.x),
                                ax.figure.height * (ax.position.p1.y - ax.position.p0.y))
    ensures SizePx(ax).x != 0.0 && SizePx(ax).y != 0.0
  {
    var d := Sub(ax.position.p1, ax.position.p0);
    assert d.x != 0.0 && d.y != 0.0;
    NonZeroProduct(ax.figure.width, d.x);
    NonZeroProduct(ax.figure.height, d.y);
  }

  lemma NonZeroProduct(a: real, b: real)
    requires a != 0.0 && b != 0.0
    ensures a * b != 0.0
  {
  }

  /** The margins in pixels, `trans(arr) - trans(0)`, as a pair of (x, y) points: the
      lower-left sides and the upper-right sides. */
  function MarginPx(t: Affine, s: Sides): (m: (Point, Point))
    ensures m.0 == Point(t.sx * OrZero(s.left), t.sy * OrZero(s.bottom))
    ensures m.1 == Point(t.sx * OrZero(s.right), t.sy * OrZero(s.top))
  {
    FromOrigin(t, Point(OrZero(s.left), OrZero(s.bottom)));
    FromOrigin(t, Point(OrZero(s.right), OrZero(s.top)));
    (Sub(t.Apply(Point(OrZero(s.left), OrZero(s.bottom))), t.Apply(Point(0.0, 0.0))),
     Sub(t.Apply(Point(OrZero(s.right), OrZero(s.top))), t.Apply(Point(0.0, 0.0))))
  }

  /** A point measured from the image of the origin: only the transform's scale acts. */
  lemma FromOrigin(t: Affine, q: Point)
    ensures Sub(t.Apply(q), t.Apply(Point(0.0, 0.0))) == Point(t.sx * q.x, t.sy * q.y)
  {
    assert t.Apply(Point(0.0, 0.0)) == Point(t.tx, t.ty);
  }

  /** The margin pixels are the transform's scale applied to the sides, whatever its
      translation. */
  lemma MarginPxScaled(t: Affine, s: Sides, tx: real, ty: real)
    ensures MarginPx(t, s).0 == Point(t.sx * OrZero(s.left), t.sy * OrZero(s.bottom))
    ensures MarginPx(t, s).1 == Point(t.sx * OrZero(s.right), t.sy * OrZero(s.top))
    ensures MarginPx(t.(tx := tx, ty := ty), s) == MarginPx(t, s)
  {
    var lo := Point(OrZero(s.left), OrZero(s.bottom));
    var hi := Point(OrZero(s.right), OrZero(s.top));
    var u := t.(tx := tx, ty := ty);
    FromOrigin(t, lo);
    FromOrigin(t, hi);
    FromOrigin(u, lo);
    FromOrigin(u, hi);
    assert MarginPx(t, s).0 == Point(t.sx * lo.x, t.sy * lo.y) == MarginPx(u, s).0;
    assert MarginPx(t, s).1 == Point(t.sx * hi.x, t.sy * hi.y) == MarginPx(u, s).1;
  }

  /** The margins as proportions of the axes size. */
  function MarginProp(t: Affine, ax: Axes, s: Sides): (Point, Point)
    requires ax.Valid()
  {
    SizePxNonZero(ax);
    var (lo, hi) := MarginPx(t, s);
    (Per(lo, SizePx(ax)), Per(hi, SizePx(ax)))
  }

  /** A pixel extent as a proportion of a size, coordinate by coordinate. */
  function Per(p: Point, size: Point): Point
    requires size.x != 0.0 && size.y != 0.0
  {
    Point(p.x / size.x, p.y / size.y)
  }

  /** Scaling by a size and taking the proportion of it cancel. */
  lemma PerScaled(q: Point, size: Point)
    requires size.x != 0.0 && size.y != 0.0
    ensures Per(Point(size.x * q.x, size.y * q.y), size) == q
  {
    Cancel(size.x, q.x);
    Cancel(size.y, q.y);
  }

  /** The new limits of one axis: with margin proportions `mLow` and `mHigh` the span
      becomes `drange / (1 - mLow - mHigh)`, the lower limit moves below the data by
      `mLow` of it and the upper limit above by `mHigh` of it; an unspecified side
      keeps its old limit. A given side comes out infinite or NaN when the axis has
      no data (`drange` is `-inf`) or the denominator is zero, and setting the limits
      refuses that. */
  function NewLimits(data: Option<Interval>, prev: Interval, mLow: real, mHigh: real,
                     lowGiven: bool, highGiven: bool): (r: Result<Interval>)
    ensures r.Err? <==> (lowGiven || highGiven) && (data.None? || mLow + mHigh == 1.0)
    ensures r.Err? ==> r.error == NonFiniteLimits
    ensures r.Ok? && !lowGiven ==> r.value.lo == prev.lo
    ensures r.Ok? && !highGiven ==> r.value.hi == prev.hi
  {
    var d := 1.0 - mLow - mHigh;
    if !lowGiven && !highGiven then Ok(prev)
    else if data.None? || d == 0.0 then Err(NonFiniteLimits)
    else
      var span := (data.value.hi - data.value.lo) / d;
      Ok(Interval(if lowGiven then data.value.lo - mLow * span else prev.lo,
                  if highGiven then data.value.hi + mHigh * span else prev.hi))
  }


  /** With both sides given, the data interval fills exactly the `1 - mLow - mHigh`
      fraction of the new limits, with `mLow` of them below it and `mHigh` above it. */
  lemma NewLimitsFill(data: Interval, prev: Interval, mLow: real, mHigh: real)
    requires mLow + mHigh != 1.0
    ensures var l := NewLimits(Some(data), prev, mLow, mHigh, true, true).value;
      data.hi - data.lo == (1.0 - mLow - mHigh) * (l.hi - l.lo) &&
      data.lo - l.lo == mLow * (l.hi - l.lo) &&
      l.hi - data.hi == mHigh * (l.hi - l.lo)
  {
    var d := 1.0 - mLow - mHigh;
    var span := (data.hi - data.lo) / d;
    assert span * d == data.hi - data.lo;
    var l := NewLimits(Some(data), prev, mLow, mHigh, true, true).value;
    assert l.hi - l.lo == span;
  }

  /** The plan of `set_margin`: the sides, the margins as proportions of the axes in
      the transform of `system` for this axes, and the new x and y limits. */
  function MarginLimits(ax: Axes, rect: RectArg, kw: Sides, system: Systems, current: Figure)
    : (r: Result<(Result<Interval>, Result<Interval>)>)
    requires ax.Valid() && current.Valid()
    ensures r.Err? && r.error == BadRect <==> RectSides(rect, kw).Err?
    ensures r.Err? ==> r.error in {BadRect, NoSystems, NoAttribute, UnitNoMatch, BadNumber, BadUnit, BadAnchor, Degenerate}
    ensures r.Ok? ==> (r.value.0.Err? ==> r.value.0.error == NonFiniteLimits) &&
                      (r.value.1.Err? ==> r.value.1.error == NonFiniteLimits)
    ensures r.Ok? && RectSides(rect, kw) == Ok(Sides(None, None, None, None)) ==>
      r.value.0 == Ok(ax.xlim) && r.value.1 == Ok(ax.ylim)
    ensures r.Ok? && ax.xdata.None? && (RectSides(rect, kw).value.left.Some? || RectSides(rect, kw).value.right.Some?) ==>
      r.value.0 == Err(NonFiniteLimits)
    ensures r.Ok? && ax.ydata.None? && (RectSides(rect, kw).value.bottom.Some? || RectSides(rect, kw).value.top.Some?) ==>
      r.value.1 == Err(NonFiniteLimits)
  {
    var s :- RectSides(rect, kw);
    var t :- Factory(Some(AxesObj(ax)), current, system, "bl");
    NoSidesNoMargin(t, ax);
    var (lo, hi) := MarginProp(t, ax, s);
    Ok((NewLimits(ax.xdata, ax.xlim, lo.x, hi.x, s.left.Some?, s.right.Some?),
        NewLimits(ax.ydata, ax.ylim, lo.y, hi.y, s.bottom.Some?, s.top.Some?)))
  }

  /** A margin on a fresh axes, before anything is plotted: the x limits fail and the
      y limits, with no side given, stay. */
  lemma FreshAxesMargin(ax: Axes, current: Figure)
    requires ax.Valid() && current.Valid() && ax.xdata.None?
    ensures var m := MarginLimits(ax, NoRect, Sides(Some(1.0), None, None, None), Name("axes"), current);
      m.Ok? && m.value.0 == Err(NonFiniteLimits) && m.value.1 == Ok(ax.ylim)
  {
    AxesSystem(ax, current);
  }

  /** With no side given there is no margin, whatever the system. */
  lemma NoSidesNoMargin(t: Affine, ax: Axes)
    requires ax.Valid()
    ensures MarginProp(t, ax, Sides(None, None, None, None)) == (Point(0.0, 0.0), Point(0.0, 0.0))
  {
    SizePxNonZero(ax);
  }

  /** The axes transform scales by the axes size in pixels. */
  lemma TransAxesScale(ax: Axes)
    ensures ax.TransAxes().sx == SizePx(ax).x && ax.TransAxes().sy == SizePx(ax).y
  {
    var (p0, p1) := (ax.position.p0, ax.position.p1);
    var (w, h) := (ax.figure.width, ax.figure.height);
    assert ax.TransAxes().sx == w * p1.x - w * p0.x;
    assert ax.TransAxes().sy == h * p1.y - h * p0.y;
    assert SizePx(ax) == Point(w * (p1.x - p0.x), h * (p1.y - p0.y));
  }

  /** A transform that scales by the axes size leaves the sides as proportions. */
  lemma PropOfSize(t: Affine, ax: Axes, s: Sides)
    requires ax.Valid() && t.sx == SizePx(ax).x && t.sy == SizePx(ax).y
    ensures MarginProp(t, ax, s).0 == Point(OrZero(s.left), OrZero(s.bottom))
    ensures MarginProp(t, ax, s).1 == Point(OrZero(s.right), OrZero(s.top))
  {
    SizePxNonZero(ax);
    MarginPxScaled(t, s, 0.0, 0.0);
    PerScaled(Point(OrZero(s.left), OrZero(s.bottom)), SizePx(ax));
    PerScaled(Point(OrZero(s.right), OrZero(s.top)), SizePx(ax));
  }

  /** In the default `'axes'` system margins are fractions of the axes already. */
  lemma AxesMarginProp(ax: Axes, s: Sides)
    requires ax.Valid()
    ensures MarginProp(ax.TransAxes(), ax, s).0 == Point(OrZero(s.left), OrZero(s.bottom))
    ensures MarginProp(ax.TransAxes(), ax, s).1 == Point(OrZero(s.right), OrZero(s.top))
  {
    TransAxesScale(ax);
    PropOfSize(ax.TransAxes(), ax, s);
  }

  lemma Cancel(a: real, b: real)
    requires a != 0.0
    ensures a * b / a == b
  {
  }

  lemma AxesSystem(ax: Axes, current: Figure)
    requires ax.Valid() && current.Valid()
    ensures Factory(Some(AxesObj(ax)), current, Name("axes"), "bl") == Ok(ax.TransAxes())
  {
    FactorySingleName(Some(AxesObj(ax)), current, "axes", "bl");
  }

  /** `set_margin` in the default `'axes'` system with all four sides given: the data
      fills the middle `1 - left - right` of the x range and `1 - bottom - top` of the
      y range, with the given fractions of the new limits on either side. */
  lemma AxesMargins(ax: Axes, current: Figure, l: real, b: real, r: real, t: real)
    requires ax.Valid() && current.Valid() && l + r != 1.0 && b + t != 1.0
    requires ax.xdata.Some? && ax.ydata.Some?
    ensures var m := MarginLimits(ax, RectList([Some(l), Some(b), Some(r), Some(t)]), Sides(None, None, None, None),
                                  Name("axes"), current);
      m.Ok? && m.value.0.Ok? && m.value.1.Ok? &&
      var (x, y) := (m.value.0.value, m.value.1.value);
      var (dx, dy) := (ax.xdata.value, ax.ydata.value);
      dx.hi - dx.lo == (1.0 - l - r) * (x.hi - x.lo) && dx.lo - x.lo == l * (x.hi - x.lo) &&
      dy.hi - dy.lo == (1.0 - b - t) * (y.hi - y.lo) && dy.lo - y.lo == b * (y.hi - y.lo)
  {
    var s := Sides(Some(l), Some(b), Some(r), Some(t));
    AxesSystem(ax, current);
    AxesMarginProp(ax, s);
    NewLimitsFill(ax.xdata.value, ax.xlim, l, r);
    NewLimitsFill(ax.ydata.value, ax.ylim, b, t);
  }

  // ---------------------------------------------------------------------------
  // Tick-label pads

  /** The length of the first major tick, which counts only when it points outward. */
  function TickLength(tick: Tick): (l: real)
    ensures tick.dir == "in" ==> l == 0.0
    ensures tick.dir != "in" ==> l == tick.size
  {
    if tick.dir != "in" then tick.size else 0.0
  }

  /** The y tick-label pad handed to `tick_params`: the horizontal pixels of `pad`
      units, measured from `(pad, 0)` back to the origin and converted to points,
      less the tick length. */
  function YTicklabelPad(ax: Axes, pad: real, system: Systems, current: Figure): (r: Result<real>)
    requires ax.Valid() && current.Valid()
    ensures var f := Factory(Some(AxesObj(ax)), current, system, "bl");
      (r.Ok? <==> f.Ok?) && (r.Err? ==> r.error == f.error) &&
      (r.Ok? ==> r.value == YPadPoints(f.value, pad, ax.figure.dpi) - TickLength(ax.ytick))
  {
    var f := Factory(Some(AxesObj(ax)), current, system, "bl");
    if f.Err? then Err(f.error) else Ok(YPadPoints(f.value, pad, ax.figure.dpi) - TickLength(ax.ytick))
  }

  /** The x tick-label pad: the same with the vertical pixels of `(0, pad)`. */
  function XTicklabelPad(ax: Axes, pad: real, system: Systems, current: Figure): (r: Result<real>)
    requires ax.Valid() && current.Valid()
    ensures var f := Factory(Some(AxesObj(ax)), current, system, "bl");
      (r.Ok? <==> f.Ok?) && (r.Err? ==> r.error == f.error) &&
      (r.Ok? ==> r.value == XPadPoints(f.value, pad, ax.figure.dpi) - TickLength(ax.xtick))
  {
    var f := Factory(Some(AxesObj(ax)), current, system, "bl");
    if f.Err? then Err(f.error) else Ok(XPadPoints(f.value, pad, ax.figure.dpi) - TickLength(ax.xtick))
  }

  /** `(T(0, 0) - T(pad, 0)) * 72 / dpi`, horizontally. */
  function YPadPoints(t: Affine, pad: real, dpi: real): (p: real)
    requires dpi != 0.0
    ensures p == -(t.sx * pad) * 72.0 / dpi
  {
    FromOrigin(t, Point(pad, 0.0));
    Sub(t.Apply(Point(0.0, 0.0)), t.Apply(Point(pad, 0.0))).x * 72.0 / dpi
  }

  /** `(T(0, 0) - T(0, pad)) * 72 / dpi`, vertically. */
  function XPadPoints(t: Affine, pad: real, dpi: real): (p: real)
    requires dpi != 0.0
    ensures p == -(t.sy * pad) * 72.0 / dpi
  {
    FromOrigin(t, Point(0.0, pad));
    Sub(t.Apply(Point(0.0, 0.0)), t.Apply(Point(0.0, pad))).y * 72.0 / dpi
  }

  /** A bare unit for an axes: that many pixels per unit from the axes' lower-left corner. */
  lemma UnitAxesTransform(ax: Axes, current: Figure, syst: string)
    requires ax.Valid() && current.Valid()
    requires syst in PicaUnits + InchUnits + PointUnits
    ensures var s := ax.figure.dpi / PerInch(syst);
      var a := ax.DisplayBox().p0;
      Factory(Some(AxesObj(ax)), current, Name(syst), "bl") == Ok(Affine(s, a.x, s, a.y))
  {
    var ob := AxesObj(ax);
    FactorySingleName(Some(ob), current, syst, "bl");
    assert Resolve(Some(ob), current) == Ok((ob, ax.figure));
    NamedUnitSystem(ob, ax.figure, syst, "bl");
    assert OwnFigure(ob) == Ok(ax.figure);
    assert ObjectPosition(ob, ax.figure) == ax.DisplayBox();
    assert AnchorPoint("bl", ax.DisplayBox()) == Ok(ax.DisplayBox().p0);
  }

  /** In a bare unit both pads are `pad` of that unit in points, negated, less the
      tick length. */
  lemma UnitPads(ax: Axes, pad: real, syst: string, current: Figure)
    requires ax.Valid() && current.Valid()
    requires syst in PicaUnits + InchUnits + PointUnits
    ensures YTicklabelPad(ax, pad, Name(syst), current) == Ok(-pad * 72.0 / PerInch(syst) - TickLength(ax.ytick))
    ensures XTicklabelPad(ax, pad, Name(syst), current) == Ok(-pad * 72.0 / PerInch(syst) - TickLength(ax.xtick))
  {
    UnitNameFacts(syst);
    UnitAxesTransform(ax, current, syst);
    var a := ax.DisplayBox().p0;
    var u := PerInch(syst);
    var t := Affine(ax.figure.dpi / u, a.x, ax.figure.dpi / u, a.y);
    var v := -pad * 72.0 / u;
    PadPoints(t, ax.figure.dpi, u, pad, v);
    PadsOf(ax, pad, Name(syst), current, t);
  }

  /** In the default `'pt'` (or another point alias) the pad is `-pad - ticklength`:
      the labels move `pad` points inward from the end of an outward tick. */
  lemma PointPads(ax: Axes, pad: real, syst: string, current: Figure)
    requires ax.Valid() && current.Valid()
    requires syst in PointUnits
    ensures YTicklabelPad(ax, pad, Name(syst), current) == Ok(-pad - TickLength(ax.ytick))
    ensures XTicklabelPad(ax, pad, Name(syst), current) == Ok(-pad - TickLength(ax.xtick))
  {
    UnitPads(ax, pad, syst, current);
    PointsPerInch(syst, pad);
  }

  lemma PointsPerInch(syst: string, pad: real)
    requires syst in PointUnits
    ensures KnownUnit(syst) && -pad * 72.0 / PerInch(syst) == -pad
  {
    UnitNameFacts(syst);
  }

  /** Both pads in a system whose transform is `t`. */
  lemma PadsOf(ax: Axes, pad: real, system: Systems, current: Figure, t: Affine)
    requires ax.Valid() && current.Valid()
    requires Factory(Some(AxesObj(ax)), current, system, "bl") == Ok(t)
    ensures YTicklabelPad(ax, pad, system, current) == Ok(YPadPoints(t, pad, ax.figure.dpi) - TickLength(ax.ytick))
    ensures XTicklabelPad(ax, pad, system, current) == Ok(XPadPoints(t, pad, ax.figure.dpi) - TickLength(ax.xtick))
  {
  }

  /** Pixels at `dpi / u` per unit, measured back from `pad`, are `-pad * 72 / u` points. */
  lemma PadPoints(t: Affine, dpi: real, u: real, pad: real, v: real)
    requires dpi > 0.0 && u > 0.0 && t.sx == dpi / u && t.sy == dpi / u && v == -pad * 72.0 / u
    ensures YPadPoints(t, pad, dpi) == v && XPadPoints(t, pad, dpi) == v
  {
    FromOrigin(t, Point(pad, 0.0));
    FromOrigin(t, Point(0.0, pad));
    PointsBack(dpi, u, pad);
  }

  lemma PointsBack(dpi: real, u: real, pad: real)
    requires dpi > 0.0 && u > 0.0
    ensures -(dpi / u * pad) * 72.0 / dpi == -pad * 72.0 / u
  {
    assert dpi / u * pad * 72.0 == dpi * (pad * 72.0 / u);
  }

  // ---------------------------------------------------------------------------
  // `decorator_axes`

  /** `add_axes` and `add_subplot` make an `AxesPlus` unless a projection is asked for. */
  function WithDefaultProjection(kwargs: Kwargs): (r: Kwargs)
    ensures "projection" in kwargs ==> r == kwargs
    ensures "projection" !in kwargs ==> r == kwargs["projection" := Str("axesplus")]
  {
    if "projection" in kwargs then kwargs else kwargs["projection" := Str("axesplus")]
  }

  /** The projection is always set afterwards, the caller's kept, and applying the
      decorator twice is applying it once. */
  lemma DefaultProjectionKeeps(kwargs: Kwargs)
    ensures "projection" in WithDefaultProjection(kwargs)
    ensures forall k :: k in kwargs ==> k in WithDefaultProjection(kwargs) && WithDefaultProjection(kwargs)[k] == kwargs[k]
    ensures WithDefaultProjection(WithDefaultProjection(kwargs)) == WithDefaultProjection(kwargs)
  {
  }

  // ---------------------------------------------------------------------------
  // The axes object

  /** An `AxesPlus`: the axes and the label pads last handed to `tick_params`. */
  class AxesPlus {
    var ax: Axes
    /** The tick-label pads set through this class, in points; `None` until set, when
        the axes keeps the pad it was created with. */
    var xpad: Option<real>
    var ypad: Option<real>

    constructor(ax: Axes)
      ensures this.ax == ax && xpad == None && ypad == None
    {
      this.ax := ax;
      xpad := None;
      ypad := None;
    }

    /** `set_yticklabel_pad`: the pad in points goes to the y tick labels; a system
        that fails leaves everything as it was. */
    method SetYticklabelPad(pad: real, system: Systems, current: Figure) returns (r: Result<()>)
      requires ax.Valid() && current.Valid()
      modifies this
      ensures ax == old(ax) && xpad == old(xpad)
      ensures var p := YTicklabelPad(ax, pad, system, current);
        (p.Err? ==> r == Err(p.error) && ypad == old(ypad)) &&
        (p.Ok? ==> r == Ok(()) && ypad == Some(p.value))
    {
      var p := YTicklabelPad(ax, pad, system, current);
      if p.Err? {
        return Err(p.error);
      }
      ypad := Some(p.value);
      r := Ok(());
    }

    /** `set_xticklabel_pad`: the same for the x tick labels. */
    method SetXticklabelPad(pad: real, system: Systems, current: Figure) returns (r: Result<()>)
      requires ax.Valid() && current.Valid()
      modifies this
      ensures ax == old(ax) && ypad == old(ypad)
      ensures var p := XTicklabelPad(ax, pad, system, current);
        (p.Err? ==> r == Err(p.error) && xpad == old(xpad)) &&
        (p.Ok? ==> r == Ok(()) && xpad == Some(p.value))
    {
      var p := XTicklabelPad(ax, pad, system, current);
      if p.Err? {
        return Err(p.error);
      }
      xpad := Some(p.value);
      r := Ok(());
    }

    /** `set_xlim` with finite limits. */
    method SetXlim(lim: Interval)
      modifies this
      ensures ax == old(ax).(xlim := lim) && xpad == old(xpad) && ypad == old(ypad)
    {
      ax := ax.(xlim := lim);
    }

    /** `set_ylim` with finite limits. */
    method SetYlim(lim: Interval)
      modifies this
      ensures ax == old(ax).(ylim := lim) && xpad == old(xpad) && ypad == old(ypad)
    {
      ax := ax.(ylim := lim);
    }

    /** `set_margin`: the x limits are set first, then the y limits; a failure before
        either changes nothing, and a failure of the y limits leaves the new x limits. */
    method SetMargin(rect: RectArg, kw: Sides, system: Systems, current: Figure) returns (r: Result<()>)
      requires ax.Valid() && current.Valid()
      modifies this
      ensures xpad == old(xpad) && ypad == old(ypad)
      ensures var m := MarginLimits(old(ax), rect, kw, system, current);
        (m.Err? ==> r == Err(m.error) && ax == old(ax)) &&
        (m.Ok? && m.value.0.Err? ==> r == Err(m.value.0.error) && ax == old(ax)) &&
        (m.Ok? && m.value.0.Ok? && m.value.1.Err? ==>
           r == Err(m.value.1.error) && ax == old(ax).(xlim := m.value.0.value)) &&
        (m.Ok? && m.value.0.Ok? && m.value.1.Ok? ==>
           r == Ok(()) && ax == old(ax).(xlim := m.value.0.value, ylim := m.value.1.value))
    {
      var m := MarginLimits(ax, rect, kw, system, current);
      if m.Err? {
        return Err(m.error);
      }
      var (x, y) := m.value;
      if x.Err? {
        return Err(x.error);
      }
      SetXlim(x.value);
      if y.Err? {
        return Err(y.error);
      }
      SetYlim(y.value);
      r := Ok(());
    }
  }
}
