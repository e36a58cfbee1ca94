/** The parts of the host plotting library's object model that the core reads:
    a figure (its pixel bounding box and resolution), an axes (its position as a
    fraction of the figure, its view limits and data interval, its first major
    ticks), the objects a transform can be built for, and keyword arguments. */
module Canvas {
  import opened Base
  import opened Geometry

  /** A figure of `width` by `height` pixels at `dpi` pixels per inch;
      its bounding box `fig.bbox` is `[[0, 0], [width, height]]`. */
  datatype Figure = Figure(width: real, height: real, dpi: real) {
    predicate Valid() { width > 0.0 && height > 0.0 && dpi > 0.0 }

    function Bbox(): Rect { Rect(Point(0.0, 0.0), Point(width, height)) }

    /** `fig.transFigure`: figure fraction to pixels. */
    function TransFigure(): Affine
    {
      BboxTransformTo(Bbox())
    }
  }

  datatype Interval = Interval(lo: real, hi: real)

  /** The direction (`'in'`, `'out'`, `'inout'`) and length in points of an axis's first major tick. */
  datatype Tick = Tick(dir: string, size: real)

  /** An axes: `position` is `get_position()` in figure fraction, `xlim`/`ylim` the
      view limits, `xdata`/`ydata` the data intervals `(min, max)`, `None` for an
      axis with no data yet (the null box's `(inf, -inf)`). */
  datatype Axes = Axes(figure: Figure, position: Rect, xlim: Interval, ylim: Interval,
                       xdata: Option<Interval>, ydata: Option<Interval>, xtick: Tick, ytick: Tick) {
    predicate Valid() {
      figure.Valid() && position.NonDegenerate() && xlim.lo != xlim.hi && ylim.lo != ylim.hi
    }

    /** `ax.bbox`: the position mapped to pixels. */
    function DisplayBox(): Rect {
      Rect(figure.TransFigure().Apply(position.p0), figure.TransFigure().Apply(position.p1))
    }

    /** `ax.transAxes`: axes fraction to pixels. */
    function TransAxes(): Affine
    {
      BboxTransformTo(DisplayBox())
    }

    /** `ax.transData` for linear scales: view limits onto the axes box. */
    function TransData(): Affine
      requires Valid()
    {
      Then(BboxTransformFrom(ViewBox()), TransAxes())
    }

    /** The view limits as a rectangle in data coordinates. */
    function ViewBox(): Rect { Rect(Point(xlim.lo, ylim.lo), Point(xlim.hi, ylim.hi)) }
  }

  /** The figure transform takes the unit square's corners to the figure's. */
  lemma FigureCorners(f: Figure)
    ensures f.TransFigure().Apply(Point(0.0, 0.0)) == Point(0.0, 0.0)
    ensures f.TransFigure().Apply(Point(1.0, 1.0)) == Point(f.width, f.height)
  {
    BboxTransformToCorners(f.Bbox());
  }

  /** The axes transform takes the unit square's corners to the axes box's. */
  lemma AxesCorners(ax: Axes)
    ensures ax.TransAxes().Apply(Point(0.0, 0.0)) == ax.DisplayBox().p0
    ensures ax.TransAxes().Apply(Point(1.0, 1.0)) == ax.DisplayBox().p1
  {
    BboxTransformToCorners(ax.DisplayBox());
  }

  /** The data transform takes the corners of the view limits to the axes box's. */
  lemma DataCorners(ax: Axes)
    requires ax.Valid()
    ensures ax.TransData().Apply(ax.ViewBox().p0) == ax.DisplayBox().p0
    ensures ax.TransData().Apply(ax.ViewBox().p1) == ax.DisplayBox().p1
  {
    var from := BboxTransformFrom(ax.ViewBox());
    BboxTransformFromCorners(ax.ViewBox());
    AxesCorners(ax);
    ThenApply(from, ax.TransAxes(), ax.ViewBox().p0);
    ThenApply(from, ax.TransAxes(), ax.ViewBox().p1);
  }

  /** What `object=` can be: a Figure, an Axes, another artist that only has a
      `figure` attribute, or something without a figure at all. */
  datatype Obj = FigureObj(fig: Figure) | AxesObj(ax: Axes) | ArtistObj(owner: Figure) | Detached {
    predicate Valid() {
      match this
      case FigureObj(f) => f.Valid()
      case AxesObj(a) => a.Valid()
      case ArtistObj(f) => f.Valid()
      case Detached => true
    }
  }

  /** Keyword-argument values, as far as the core looks at them. */
  datatype Arg = Str(s: string) | Num(n: real) | Rgb(r: real, g: real, b: real) | Trans(t: Affine) | Opaque(id: nat)

  type Kwargs = map<string, Arg>

  /** The figure of the `object` argument, with `plt.gcf()` standing in for `None`: the
      argument handling shared by both transform dispatchers. */
  function Resolve(target: Option<Obj>, current: Figure): (r: Result<(Obj, Figure)>)
    ensures r.Err? <==> target == Some(Detached)
    ensures r.Err? ==> r.error == NoFigure
    ensures target.None? ==> r == Ok((FigureObj(current), current))
    ensures r.Ok? && target.Some? ==> r.value.0 == target.value
    ensures r.Ok? && r.value.0.AxesObj? ==> r.value.1 == r.value.0.ax.figure
    ensures r.Ok? && current.Valid() && (target.Some? ==> target.value.Valid()) ==>
      r.value.0.Valid() && r.value.1.Valid()
  {
    match target
    case None => Ok((FigureObj(current), current))
    case Some(FigureObj(f)) => Ok((FigureObj(f), f))
    case Some(AxesObj(a)) => Ok((AxesObj(a), a.figure))
    case Some(ArtistObj(f)) => Ok((ArtistObj(f), f))
    case Some(Detached) => Err(NoFigure)
  }

  /** One (x, y) pair of a rectangle, mapped by `t` and divided by the figure's top-right corner. */
  function FractionPair(t: Affine, fig: Figure, x: real, y: real): seq<real>
    requires fig.Valid()
  {
    [t.Apply(Point(x, y)).x / fig.width, t.Apply(Point(x, y)).y / fig.height]
  }

  /** `transform(reshape(rect, (-1, 2))).flatten() / tile(fig.bbox._points[1], 2)`: each
      (x, y) pair of `rect` is mapped by `t` and divided by the figure's top-right corner.
      An odd length cannot be reshaped into pairs and any even length other than four
      cannot be broadcast against the four divisors, so only four numbers succeed. */
  function FractionOfFigure(t: Affine, fig: Figure, rect: seq<real>): (r: Result<seq<real>>)
    requires fig.Valid()
    ensures r.Err? <==> |rect| != 4
    ensures r.Err? ==> r.error == BadShape
    ensures r.Ok? ==> |r.value| == 4
  {
    if |rect| != 4 then Err(BadShape)
    else Ok(FractionPair(t, fig, rect[0], rect[1]) + FractionPair(t, fig, rect[2], rect[3]))
  }

  /** The margin `[l, b, w, h]` scaled by `s` and divided by the figure size. */
  function Scaled4(s: real, fig: Figure, rect: seq<real>): seq<real>
    requires fig.Valid() && |rect| == 4
  {
    [s * rect[0] / fig.width, s * rect[1] / fig.height, s * rect[2] / fig.width, s * rect[3] / fig.height]
  }

  /** Through a unit system anchored at the figure's lower-left corner (`u |-> s*u`),
      a margin rectangle in units becomes the figure fraction `s*u / size`. */
  lemma FractionOfScaledFigure(s: real, fig: Figure, rect: seq<real>)
    requires fig.Valid() && |rect| == 4
    ensures FractionOfFigure(Affine(s, 0.0, s, 0.0), fig, rect) == Ok(Scaled4(s, fig, rect))
  {
    var t := Affine(s, 0.0, s, 0.0);
    assert t.Apply(Point(rect[0], rect[1])) == Point(s * rect[0], s * rect[1]);
    assert t.Apply(Point(rect[2], rect[3])) == Point(s * rect[2], s * rect[3]);
    var a := FractionPair(t, fig, rect[0], rect[1]);
    var b := FractionPair(t, fig, rect[2], rect[3]);
    assert a == [s * rect[0] / fig.width, s * rect[1] / fig.height];
    assert b == [s * rect[2] / fig.width, s * rect[3] / fig.height];
    assert a + b == [a[0], a[1], b[0], b[1]];
  }
}
