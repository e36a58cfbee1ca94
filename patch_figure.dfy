/** `FigurePlus`, the figure of matplotpatch: its lines, the dot grid it can draw,
    show and hide, and its decorated `line` call. */
module PatchFigure {
  import opened Base
  import opened Geometry
  import opened Canvas
  import opened Grid
  import opened PatchTransforms

  /** The dot grid's data and keywords: the default style merged with the caller's
      keywords, the transform of `system` for the figure, and the grid of dots of
      `interval` units; `transform` or `figure` among the caller's keywords is a
      duplicate keyword of the `Line2D` call. */
  function DotgridArtist(fig: Figure, current: Figure, system: Systems, interval: real,
                         kwargs: Kwargs): (r: Result<(seq<real>, seq<real>, Kwargs)>)
    requires fig.Valid() && current.Valid()
    ensures r.Ok? ==> "transform" !in kwargs && "figure" !in kwargs && interval != 0.0
    ensures r.Ok? ==> |r.value.0| == |r.value.1| && r.value.2.Keys == kwargs.Keys + {"c", "lw", "marker", "ms", "zorder", "transform"}
    ensures r.Ok? ==> forall k :: k in kwargs ==> r.value.2[k] == kwargs[k]
    ensures r.Err? ==> r.error in {NoSystems, NoAttribute, UnitNoMatch, BadNumber, BadUnit, BadAnchor, Degenerate, Singular, ZeroStep, DuplicateKeyword}
  {
    var style := DotgridStyle(kwargs);
    var t :- Factory(Some(FigureObj(fig)), current, system, "bl");
    var grid :- DotGrid(t, fig, interval);
    if "transform" in style || "figure" in style then Err(DuplicateKeyword)
    else Ok((grid.0, grid.1, style["transform" := Trans(t)]))
  }

  /** The inch system of a figure: `dpi` pixels per inch from its lower-left corner. */
  lemma InchTransform(fig: Figure, current: Figure)
    requires fig.Valid() && current.Valid()
    ensures Factory(Some(FigureObj(fig)), current, Name("inch"), "bl") == Ok(Affine(fig.dpi, 0.0, fig.dpi, 0.0))
  {
    var ob := FigureObj(fig);
    FactorySingleName(Some(ob), current, "inch", "bl");
    assert Resolve(Some(ob), current) == Ok((ob, fig));
    UnitNameFacts("inch");
    NamedUnitSystem(ob, fig, "inch", "bl");
    assert OwnFigure(ob) == Ok(fig);
    assert ObjectPosition(ob, fig) == fig.Bbox();
    assert AnchorPoint("bl", fig.Bbox()) == Ok(Point(0.0, 0.0));
    assert fig.dpi / PerInch("inch") == fig.dpi;
  }

  /** In inches (the default system) the dots sit at every multiple of the interval
      inside the figure, one row after another, in the caller's style over the
      default one. */
  lemma InchDotgrid(fig: Figure, current: Figure, interval: real, kwargs: Kwargs)
    requires fig.Valid() && current.Valid() && interval > 0.0
    requires "transform" !in kwargs && "figure" !in kwargs
    ensures var r := DotgridArtist(fig, current, Name("inch"), interval, kwargs);
      var (xs, ys) := GridValues(Affine(fig.dpi, 0.0, fig.dpi, 0.0), fig, interval);
      r.Ok? && RowMajor(r.value.0, r.value.1, xs, ys) &&
      InsideMultiples(xs, interval, fig.width / fig.dpi) && InsideMultiples(ys, interval, fig.height / fig.dpi) &&
      (forall k :: k in kwargs ==> r.value.2[k] == kwargs[k])
  {
    InchTransform(fig, current);
    ScaledDotgrid(fig, current, Name("inch"), interval, kwargs, fig.dpi);
  }

  /** In a system of `s` pixels per unit from the figure's lower-left corner the dots
      sit at every multiple of the interval inside the figure, row after row, in the
      caller's style over the default one. */
  lemma ScaledDotgrid(fig: Figure, current: Figure, system: Systems, interval: real, kwargs: Kwargs, s: real)
    requires fig.Valid() && current.Valid() && interval > 0.0 && s > 0.0
    requires "transform" !in kwargs && "figure" !in kwargs
    requires Factory(Some(FigureObj(fig)), current, system, "bl") == Ok(Affine(s, 0.0, s, 0.0))
    ensures var r := DotgridArtist(fig, current, system, interval, kwargs);
      var (xs, ys) := GridValues(Affine(s, 0.0, s, 0.0), fig, interval);
      r.Ok? && RowMajor(r.value.0, r.value.1, xs, ys) &&
      InsideMultiples(xs, interval, fig.width / s) && InsideMultiples(ys, interval, fig.height / s) &&
      (forall k :: k in kwargs ==> r.value.2[k] == kwargs[k])
  {
    var t := Affine(s, 0.0, s, 0.0);
    ArtistOf(fig, current, system, interval, kwargs, t);
    DotGridPoints(t, fig, interval);
    GridOfUnits(s, fig, interval);
  }

  /** Given the system's transform `t` and a grid it can draw, the artist is that grid
      in the default style updated by the caller's keywords and `t`. */
  lemma ArtistOf(fig: Figure, current: Figure, system: Systems, interval: real, kwargs: Kwargs, t: Affine)
    requires fig.Valid() && current.Valid()
    requires "transform" !in kwargs && "figure" !in kwargs
    requires Factory(Some(FigureObj(fig)), current, system, "bl") == Ok(t)
    requires DotGrid(t, fig, interval).Ok?
    ensures var r := DotgridArtist(fig, current, system, interval, kwargs);
      r.Ok? && r.value.0 == DotGrid(t, fig, interval).value.0 && r.value.1 == DotGrid(t, fig, interval).value.1 &&
      (forall k :: k in kwargs ==> r.value.2[k] == kwargs[k])
  {
    var style := DotgridStyle(kwargs);
    assert "transform" !in style && "figure" !in style;
  }

  /** A `FigurePlus`: the figure, its lines, and the dot grid once drawn (always one
      of its lines). */
  class FigurePlus {
    const fig: Figure
    var lines: seq<Line2D>
    var dotgrid: Line2D?

    predicate Valid()
      reads this
    {
      fig.Valid() && (dotgrid != null ==> dotgrid in lines)
    }

    constructor(fig: Figure)
      requires fig.Valid()
      ensures Valid() && this.fig == fig && lines == [] && dotgrid == null
    {
      this.fig := fig;
      lines := [];
      dotgrid := null;
    }

    /** The decorated `line`: a new line with the caller's keywords, in the transform
        of `system` when one is given, appended to the figure's lines. */
    method Line(xs: seq<real>, ys: seq<real>, kwargs: Kwargs, system: Option<Systems>, anchor: string,
                current: Figure) returns (r: Result<Line2D>)
      requires Valid() && current.Valid()
      modifies this
      ensures Valid() && dotgrid == old(dotgrid)
      ensures var k := DecorateCustomTransform(FigureObj(fig), current, kwargs, system, anchor);
        (r.Ok? <==> k.Ok?) &&
        (r.Err? ==> r.error == k.error && lines == old(lines)) &&
        (r.Ok? ==> fresh(r.value) && lines == old(lines) + [r.value] && r.value.visible &&
                   r.value.xs == xs && r.value.ys == ys && r.value.style == k.value)
    {
      var k := DecorateCustomTransform(FigureObj(fig), current, kwargs, system, anchor);
      if k.Err? {
        return Err(k.error);
      }
      var line := new Line2D(xs, ys, k.value);
      lines := lines + [line];
      r := Ok(line);
    }

    /** `draw_dotgrid`: a new, hidden line of dots becomes the dot grid and is appended
        to the lines (a grid drawn before stays among the lines). */
    method DrawDotgrid(system: Systems, interval: real, kwargs: Kwargs, current: Figure)
      returns (r: Result<()>)
      requires Valid() && current.Valid()
      modifies this
      ensures Valid()
      ensures var d := DotgridArtist(fig, current, system, interval, kwargs);
        (r.Ok? <==> d.Ok?) &&
        (r.Err? ==> r.error == d.error && lines == old(lines) && dotgrid == old(dotgrid)) &&
        (r.Ok? ==> fresh(dotgrid) && lines == old(lines) + [dotgrid] && !dotgrid.visible &&
                   dotgrid.xs == d.value.0 && dotgrid.ys == d.value.1 && dotgrid.style == d.value.2)
    {
      var d := DotgridArtist(fig, current, system, interval, kwargs);
      if d.Err? {
        return Err(d.error);
      }
      AddDotgrid(d.value.0, d.value.1, d.value.2);
      r := Ok(());
    }

    /** The new dot grid becomes the figure's grid, is appended to its lines and hidden. */
    method AddDotgrid(xs: seq<real>, ys: seq<real>, style: Kwargs)
      requires Valid()
      modifies this
      ensures Valid()
      ensures fresh(dotgrid) && lines == old(lines) + [dotgrid] && !dotgrid.visible
      ensures dotgrid.xs == xs && dotgrid.ys == ys && dotgrid.style == style
    {
      var line := new Line2D(xs, ys, style);
      dotgrid := line;
      lines := lines + [line];
      var hidden := HideDotgrid();
    }

    /** `show_dotgrid`: draws the grid first if there is none, then makes it visible;
        a grid drawn before is reused. */
    method ShowDotgrid(system: Systems, interval: real, kwargs: Kwargs, current: Figure)
      returns (r: Result<()>)
      requires Valid() && current.Valid()
      modifies this, dotgrid
      ensures Valid()
      ensures old(dotgrid) != null ==> r.Ok? && dotgrid == old(dotgrid) && lines == old(lines) && dotgrid.visible
      ensures old(dotgrid) == null ==>
        var d := DotgridArtist(fig, current, system, interval, kwargs);
        (r.Ok? <==> d.Ok?) &&
        (r.Err? ==> r.error == d.error && lines == old(lines) && dotgrid == null) &&
        (r.Ok? ==> fresh(dotgrid) && lines == old(lines) + [dotgrid] && dotgrid.visible &&
                   dotgrid.xs == d.value.0 && dotgrid.ys == d.value.1 && dotgrid.style == d.value.2)
    {
      if dotgrid == null {
        r := DrawDotgrid(system, interval, kwargs, current);
        if r.Err? {
          return;
        }
      }
      dotgrid.SetVisible(true);
      r := Ok(());
    }

    /** `hide_dotgrid`: hides the grid; before any grid was drawn there is nothing to hide. */
    method HideDotgrid() returns (r: Result<()>)
      requires Valid()
      modifies dotgrid
      ensures (r.Ok? <==> dotgrid != null) && (r.Err? ==> r.error == NoDotgrid)
      ensures dotgrid != null ==> !dotgrid.visible
    {
      if dotgrid == null {
        return Err(NoDotgrid);
      }
      dotgrid.SetVisible(false);
      r := Ok(());
    }
  }
}
