/** The `mpltypo` package: a unit system measured in multiples of a point
    (`PointTransform` with a `spacing`), the dispatcher `GetTransform`, and the axes
    and figure classes that route their drawing calls through it. */
module Typo {
  import opened Base
  import opened Geometry
  import opened Canvas
  import opened Grid
  import PatchTransforms

  // ---------------------------------------------------------------------------
  // `PointTransform`

  /** `fig._dpi / (72 / spacing)`: the pixels of one unit of `spacing` points.
      A zero spacing divides by zero. */
  function SpacingScale(dpi: real, spacing: real): (r: Result<real>)
    ensures r.Ok? <==> spacing != 0.0
    ensures r.Err? ==> r.error == ZeroDivision
  {
    if spacing == 0.0 then Err(ZeroDivision) else Ok(dpi / (72.0 / spacing))
  }

  /** One unit is `spacing` points: `dpi * spacing / 72` pixels. */
  lemma SpacingScaleValue(dpi: real, spacing: real, s: real)
    requires spacing != 0.0 && s == dpi * spacing / 72.0
    ensures SpacingScale(dpi, spacing) == Ok(s)
  {
    var q := 72.0 / spacing;
    assert q * spacing == 72.0;
    assert s * q == dpi * (spacing * q) / 72.0;
    assert dpi / q == s;
  }

  lemma NonZeroScale(dpi: real, spacing: real)
    requires dpi != 0.0 && spacing != 0.0
    ensures dpi * spacing / 72.0 != 0.0
  {
  }

  /** The attributes a `PointTransform` holds once constructed. */
  datatype PointTransform = PointTransform(obj: Obj, fig: Figure, spacing: real, anchor: string,
                                           figPos: Rect, objPos: Rect)
  {
    /** `get_bbox`: the figure box in units, measured from the anchor. The scale is
        computed before the anchor is looked up; a zero scale would fill the box with
        non-finite values, which is reported as `Degenerate`. */
    function GetBbox(): (r: Result<Rect>)
      ensures r.Ok? && figPos.NonDegenerate() ==> r.value.NonDegenerate()
    {
      var scale :- SpacingScale(fig.dpi, spacing);
      var a :- PatchTransforms.AnchorPoint(anchor, objPos);
      if scale == 0.0 then Err(Degenerate) else Ok(InUnits(figPos, a, scale))
    }
  }

  /** `PointTransform.__init__`: find the figure and record the positions. */
  function NewPointTransform(target: Obj, anchor: string, spacing: real): (r: Result<PointTransform>)
    ensures r.Err? <==> target.Detached?
    ensures r.Err? ==> r.error == NoFigure
    ensures r.Ok? ==> r.value.fig == PatchTransforms.OwnFigure(target).value && r.value.figPos == r.value.fig.Bbox()
                      && r.value.objPos == PatchTransforms.ObjectPosition(target, r.value.fig)
  {
    var fig :- PatchTransforms.OwnFigure(target);
    Ok(PointTransform(target, fig, spacing, anchor, fig.Bbox(), PatchTransforms.ObjectPosition(target, fig)))
  }

  /** The transform a `PointTransform` stands for:
      `BboxTransformFrom(get_bbox())` followed by `fig.transFigure`. */
  function PointTransformAffine(target: Obj, anchor: string, spacing: real): (r: Result<Affine>)
    requires target.Valid()
  {
    var pt :- NewPointTransform(target, anchor, spacing);
    var bbox :- pt.GetBbox();
    Ok(Then(BboxTransformFrom(bbox), pt.fig.TransFigure()))
  }

  /** A `PointTransform` exists exactly when the object has a figure, the spacing is
      not zero and the anchor key is known. */
  lemma PointTransformExists(target: Obj, anchor: string, spacing: real)
    requires target.Valid()
    ensures PointTransformAffine(target, anchor, spacing).Ok? <==>
      !target.Detached? && spacing != 0.0 && anchor in ["bl", "tl", "tr", "br"]
  {
    if target.Detached? {
      assert NewPointTransform(target, anchor, spacing).Err?;
    } else if spacing == 0.0 {
      ZeroSpacingFirst(target, anchor);
    } else {
      var pt := NewPointTransform(target, anchor, spacing).value;
      var s := pt.fig.dpi * spacing / 72.0;
      SpacingScaleValue(pt.fig.dpi, spacing, s);
      NonZeroScale(pt.fig.dpi, spacing);
      assert pt.GetBbox().Ok? <==> PatchTransforms.AnchorPoint(anchor, pt.objPos).Ok?;
    }
  }

  /** A `PointTransform` is the map `u |-> anchor + s * u` with `s = dpi * spacing / 72`:
      its origin is the anchor corner and one unit is `spacing` points along both axes. */
  lemma PointTransformIsAnchoredScale(target: Obj, anchor: string, spacing: real)
    requires target.Valid()
    ensures var r := PointTransformAffine(target, anchor, spacing);
      r.Ok? ==>
        var fig := PatchTransforms.OwnFigure(target).value;
        var a := PatchTransforms.AnchorPoint(anchor, PatchTransforms.ObjectPosition(target, fig)).value;
        r.value == Affine(fig.dpi * spacing / 72.0, a.x, fig.dpi * spacing / 72.0, a.y)
  {
    PointTransformExists(target, anchor, spacing);
    if PointTransformAffine(target, anchor, spacing).Ok? {
      var fig := PatchTransforms.OwnFigure(target).value;
      var s := fig.dpi * spacing / 72.0;
      SpacingScaleValue(fig.dpi, spacing, s);
      NonZeroScale(fig.dpi, spacing);
      var a := PatchTransforms.AnchorPoint(anchor, PatchTransforms.ObjectPosition(target, fig));
      AnchoredTransform(target, anchor, spacing, s, a.value);
    }
  }

  lemma AnchoredTransform(target: Obj, anchor: string, spacing: real, s: real, a: Point)
    requires target.Valid() && !target.Detached? && s != 0.0
    requires SpacingScale(PatchTransforms.OwnFigure(target).value.dpi, spacing) == Ok(s)
    requires PatchTransforms.AnchorPoint(anchor, PatchTransforms.ObjectPosition(target, PatchTransforms.OwnFigure(target).value)) == Ok(a)
    ensures PointTransformAffine(target, anchor, spacing) == Ok(Affine(s, a.x, s, a.y))
  {
    var pt := NewPointTransform(target, anchor, spacing).value;
    AnchoredUnitSystem(pt.fig.Bbox(), a, s);
  }

  /** A zero spacing fails on the division even when the anchor key is unknown too. */
  lemma ZeroSpacingFirst(target: Obj, anchor: string)
    requires target.Valid() && !target.Detached?
    ensures PointTransformAffine(target, anchor, 0.0) == Err(ZeroDivision)
  {
  }

  // ---------------------------------------------------------------------------
  // `GetTransform`

  /** The spacing in points of the names that build a `PointTransform`:
      a pica is 12 points, an inch 72, a point 1, and `'unit'` the caller's spacing. */
  function SystemSpacing(syst: string, spacing: real): (r: Option<real>)
    ensures r.Some? <==> syst in ["pica", "inch", "point", "unit"]
  {
    if syst == "pica" then Some(12.0)
    else if syst == "inch" then Some(72.0)
    else if syst == "point" then Some(1.0)
    else if syst == "unit" then Some(spacing)
    else None
  }

  /** The transform of one system name for object `ob` of figure `fig`; only
      `'axes'` (no other spelling) names the axes system, and any name outside the
      seven known ones is refused. */
  function SystemTransform(ob: Obj, fig: Figure, syst: string, anchor: string, spacing: real): (r: Result<Affine>)
    requires ob.Valid() && fig.Valid()
    ensures r.Err? ==> r.error in {NoFigure, NoAttribute, ZeroDivision, BadAnchor, Degenerate, UnknownSystem}
    ensures r.Err? && r.error == UnknownSystem <==>
      syst !in ["figure", "axes", "data", "pica", "inch", "point", "unit"]
    ensures r.Err? && r.error == NoAttribute <==> (syst == "axes" || syst == "data") && !ob.AxesObj?
    ensures syst == "figure" ==> r.Ok?
    ensures r.Err? && r.error == NoFigure ==> ob.Detached?
  {
    if syst == "figure" then Ok(fig.TransFigure())
    else if syst == "axes" then (if ob.AxesObj? then Ok(ob.ax.TransAxes()) else Err(NoAttribute))
    else if syst == "data" then (if ob.AxesObj? then Ok(ob.ax.TransData()) else Err(NoAttribute))
    else match SystemSpacing(syst, spacing)
      case Some(sp) => PointTransformAffine(ob, anchor, sp)
      case None => Err(UnknownSystem)
  }

  /** The figure, axes and data systems are the object's own transforms; an object
      that is not an axes has no `transAxes` or `transData`. */
  lemma FixedSystemTransforms(ob: Obj, fig: Figure, syst: string, anchor: string, spacing: real)
    requires ob.Valid() && fig.Valid()
    ensures var r := SystemTransform(ob, fig, syst, anchor, spacing);
      (syst == "figure" ==> r == Ok(fig.TransFigure())) &&
      (syst == "axes" || syst == "data" ==> (r.Ok? <==> ob.AxesObj?)) &&
      (syst == "axes" && ob.AxesObj? ==> r == Ok(ob.ax.TransAxes())) &&
      (syst == "data" && ob.AxesObj? ==> r == Ok(ob.ax.TransData()))
  {
  }

  /** The spacing names are none of the coordinate-system names. */
  lemma SpacingNameNotReserved(syst: string)
    requires syst in ["pica", "inch", "point", "unit"]
    ensures syst != "figure" && syst != "axes" && syst != "data"
  {
  }

  /** `'pica'`, `'inch'`, `'point'` and `'unit'` are anchored unit systems of 12, 72, 1
      and `spacing` points: the map `u |-> anchor + s * u` with `s = dpi * points / 72`. */
  lemma NamedSpacingTransform(ob: Obj, fig: Figure, syst: string, anchor: string, spacing: real)
    requires ob.Valid() && fig.Valid() && !ob.Detached?
    requires syst in ["pica", "inch", "point", "unit"]
    ensures var r := SystemTransform(ob, fig, syst, anchor, spacing);
      var sp := SystemSpacing(syst, spacing).value;
      var own := PatchTransforms.OwnFigure(ob).value;
      var a := PatchTransforms.AnchorPoint(anchor, PatchTransforms.ObjectPosition(ob, own));
      (r.Ok? <==> sp != 0.0 && a.Ok?) &&
      (r.Ok? ==> r.value == Affine(own.dpi * sp / 72.0, a.value.x, own.dpi * sp / 72.0, a.value.y))
  {
    SpacingNameNotReserved(syst);
    var sp := SystemSpacing(syst, spacing).value;
    assert SystemTransform(ob, fig, syst, anchor, spacing) == PointTransformAffine(ob, anchor, sp);
    PointTransformExists(ob, anchor, sp);
    PointTransformIsAnchoredScale(ob, anchor, sp);
  }

  /** The spacings of the named systems agree with the unit table of the other
      package: 12 points are a pica, 72 an inch, 1 a point. */
  lemma SpacingsAgreeWithUnits(dpi: real)
    ensures SpacingScale(dpi, 12.0) == PatchTransforms.UnitScale(1.0, "pc", dpi)
    ensures SpacingScale(dpi, 72.0) == PatchTransforms.UnitScale(1.0, "in", dpi)
    ensures SpacingScale(dpi, 1.0) == PatchTransforms.UnitScale(1.0, "pt", dpi)
  {
    SpacingScaleValue(dpi, 12.0, dpi * 12.0 / 72.0);
    SpacingScaleValue(dpi, 72.0, dpi * 72.0 / 72.0);
    SpacingScaleValue(dpi, 1.0, dpi * 1.0 / 72.0);
    PatchTransforms.TwelvePoints(dpi);
    PatchTransforms.KnownUnitScale(1.0, "pc", dpi);
    PatchTransforms.KnownUnitScale(1.0, "in", dpi);
    PatchTransforms.KnownUnitScale(1.0, "pt", dpi);
  }

  /** What `GetTransform(object, system, anchor, spacing)` returns, with `current` the
      figure `plt.gcf()` would give: one name gives its transform, two or more blend
      the first two (x from the first, y from the second), none leaves the result
      variable unbound. */
  function Transform(target: Option<Obj>, current: Figure, system: PatchTransforms.Systems,
                     anchor: string, spacing: real): (r: Result<Affine>)
    requires current.Valid() && (target.Some? ==> target.value.Valid())
    ensures r.Err? ==> r.error in {NoFigure, NoAttribute, ZeroDivision, BadAnchor, Degenerate, UnknownSystem, NoSystems}
    ensures r.Err? && r.error == NoFigure <==> target == Some(Detached)
    ensures r.Err? && r.error == NoSystems <==> target != Some(Detached) && system.List() == []
  {
    var res :- Resolve(target, current);
    var ob, fig := res.0, res.1;
    var names := system.List();
    if |names| == 0 then Err(NoSystems)
    else
      var t0 :- SystemTransform(ob, fig, names[0], anchor, spacing);
      if |names| == 1 then Ok(t0)
      else
        var t1 :- SystemTransform(ob, fig, names[1], anchor, spacing);
        Ok(Blend(t0, t1))
  }

  /** The transforms of the first `n` names, in order, or the first failure. */
  function FirstTransforms(ob: Obj, fig: Figure, names: seq<string>, anchor: string, spacing: real,
                           n: nat): Result<seq<Affine>>
    requires ob.Valid() && fig.Valid() && n <= |names|
  {
    if n == 0 then Ok([])
    else
      var ts :- FirstTransforms(ob, fig, names, anchor, spacing, n - 1);
      var t :- SystemTransform(ob, fig, names[n - 1], anchor, spacing);
      Ok(ts + [t])
  }

  /** `GetTransform.__new__`: at most the first two names are turned into
      transforms, in order, and the first failure stops it. */
  method GetTransform(target: Option<Obj>, current: Figure, system: PatchTransforms.Systems,
                      anchor: string, spacing: real) returns (r: Result<Affine>)
    requires current.Valid() && (target.Some? ==> target.value.Valid())
    ensures r == Transform(target, current, system, anchor, spacing)
  {
    var resolved := Resolve(target, current);
    if resolved.Err? {
      return Err(resolved.error);
    }
    var names := system.List();
    var n := if |names| < 2 then |names| else 2;
    TransformOfFirst(target, current, system, anchor, spacing);
    var transforms := CollectTransforms(resolved.value.0, resolved.value.1, names, anchor, spacing, n);
    if transforms.Err? {
      return Err(transforms.error);
    }
    FirstTransformsLength(resolved.value.0, resolved.value.1, names, anchor, spacing, n);
    if |transforms.value| == 2 {
      r := Ok(Blend(transforms.value[0], transforms.value[1]));
    } else if |transforms.value| == 1 {
      r := Ok(transforms.value[0]);
    } else {
      r := Err(NoSystems);
    }
  }

  /** The loop of `GetTransform.__new__` over the first `n` names. */
  method CollectTransforms(ob: Obj, fig: Figure, names: seq<string>, anchor: string, spacing: real, n: nat)
    returns (r: Result<seq<Affine>>)
    requires ob.Valid() && fig.Valid() && n <= |names|
    ensures r == FirstTransforms(ob, fig, names, anchor, spacing, n)
  {
    var transforms: seq<Affine> := [];
    var i := 0;
    while i < n
      invariant 0 <= i <= n
      invariant FirstTransforms(ob, fig, names, anchor, spacing, i) == Ok(transforms)
    {
      var trans := SystemTransform(ob, fig, names[i], anchor, spacing);
      NextTransform(ob, fig, names, anchor, spacing, i, transforms);
      if trans.Err? {
        FailurePersists(ob, fig, names, anchor, spacing, i + 1, n);
        return Err(trans.error);
      }
      transforms := transforms + [trans.value];
      i := i + 1;
    }
    r := Ok(transforms);
  }

  /** One more name extends the run by its transform, or ends it with its failure. */
  lemma NextTransform(ob: Obj, fig: Figure, names: seq<string>, anchor: string, spacing: real, i: nat, ts: seq<Affine>)
    requires ob.Valid() && fig.Valid() && i < |names|
    requires FirstTransforms(ob, fig, names, anchor, spacing, i) == Ok(ts)
    ensures var t := SystemTransform(ob, fig, names[i], anchor, spacing);
      FirstTransforms(ob, fig, names, anchor, spacing, i + 1) == if t.Err? then Err(t.error) else Ok(ts + [t.value])
  {
  }

  /** Once one of the first names fails, the later ones are never reached. */
  lemma {:induction false} FailurePersists(ob: Obj, fig: Figure, names: seq<string>, anchor: string, spacing: real,
                                           i: nat, n: nat)
    requires ob.Valid() && fig.Valid() && i <= n <= |names|
    requires FirstTransforms(ob, fig, names, anchor, spacing, i).Err?
    ensures FirstTransforms(ob, fig, names, anchor, spacing, n) == FirstTransforms(ob, fig, names, anchor, spacing, i)
    decreases n - i
  {
    if i < n {
      FailurePersists(ob, fig, names, anchor, spacing, i + 1, n);
    }
  }

  /** A successful run over `n` names yields `n` transforms. */
  lemma {:induction false} FirstTransformsLength(ob: Obj, fig: Figure, names: seq<string>, anchor: string,
                                                 spacing: real, n: nat)
    requires ob.Valid() && fig.Valid() && n <= |names|
    ensures var r := FirstTransforms(ob, fig, names, anchor, spacing, n); r.Ok? ==> |r.value| == n
  {
    if n > 0 {
      FirstTransformsLength(ob, fig, names, anchor, spacing, n - 1);
    }
  }

  /** The result of the run over the first names: the blend of two transforms, the
      only one, none, or the failure that stopped it. */
  function Combined(f: Result<seq<Affine>>): Result<Affine>
  {
    if f.Err? then Err(f.error)
    else if |f.value| == 2 then Ok(Blend(f.value[0], f.value[1]))
    else if |f.value| == 1 then Ok(f.value[0])
    else Err(NoSystems)
  }

  /** `Transform` is the run over the first (at most two) names, combined. */
  lemma TransformOfFirst(target: Option<Obj>, current: Figure, system: PatchTransforms.Systems, anchor: string, spacing: real)
    requires current.Valid() && (target.Some? ==> target.value.Valid())
    requires Resolve(target, current).Ok?
    ensures var res := Resolve(target, current).value;
      var n := if |system.List()| < 2 then |system.List()| else 2;
      Transform(target, current, system, anchor, spacing) == Combined(FirstTransforms(res.0, res.1, system.List(), anchor, spacing, n))
  {
    var res := Resolve(target, current).value;
    var names := system.List();
    if |names| >= 1 {
      FirstOfOne(res.0, res.1, names, anchor, spacing);
    }
  }

  /** The run over one name is that name's transform, or its failure. */
  lemma FirstOfOne(ob: Obj, fig: Figure, names: seq<string>, anchor: string, spacing: real)
    requires ob.Valid() && fig.Valid() && 1 <= |names|
    ensures var t := SystemTransform(ob, fig, names[0], anchor, spacing);
      FirstTransforms(ob, fig, names, anchor, spacing, 1) == if t.Err? then Err(t.error) else Ok([t.value])
  {
    assert FirstTransforms(ob, fig, names, anchor, spacing, 0) == Ok([]);
    var t := SystemTransform(ob, fig, names[0], anchor, spacing);
    if t.Ok? {
      assert [] + [t.value] == [t.value];
    }
  }

  /** A name outside the seven known ones is refused. */
  lemma UnknownSystemName(ob: Obj, fig: Figure, syst: string, anchor: string, spacing: real)
    requires ob.Valid() && fig.Valid()
    requires syst !in ["figure", "axes", "data", "pica", "inch", "point", "unit"]
    ensures SystemTransform(ob, fig, syst, anchor, spacing) == Err(UnknownSystem)
  {
  }

  /** Two or more names blend the first two and ignore the rest; the blend exists
      exactly when both of the first two exist. */
  lemma TransformBlendsFirstTwo(target: Option<Obj>, current: Figure, names: seq<string>, anchor: string, spacing: real)
    requires current.Valid() && (target.Some? ==> target.value.Valid())
    requires |names| >= 2 && Resolve(target, current).Ok?
    ensures Transform(target, current, PatchTransforms.Names(names), anchor, spacing) ==
            Transform(target, current, PatchTransforms.Names(names[..2]), anchor, spacing)
    ensures var res := Resolve(target, current).value;
      Transform(target, current, PatchTransforms.Names(names), anchor, spacing).Ok? <==>
        SystemTransform(res.0, res.1, names[0], anchor, spacing).Ok? &&
        SystemTransform(res.0, res.1, names[1], anchor, spacing).Ok?
  {
  }

  /** The blended transform takes its x coordinate from the first system and its y
      coordinate from the second. */
  lemma TransformBlendAxes(target: Option<Obj>, current: Figure, names: seq<string>, anchor: string,
                           spacing: real, p: Point)
    requires current.Valid() && (target.Some? ==> target.value.Valid())
    requires |names| >= 2 && Transform(target, current, PatchTransforms.Names(names), anchor, spacing).Ok?
    ensures Resolve(target, current).Ok?
    ensures var res := Resolve(target, current).value;
      var t := Transform(target, current, PatchTransforms.Names(names), anchor, spacing).value;
      t.Apply(p).x == SystemTransform(res.0, res.1, names[0], anchor, spacing).value.Apply(p).x &&
      t.Apply(p).y == SystemTransform(res.0, res.1, names[1], anchor, spacing).value.Apply(p).y
  {
    var res := Resolve(target, current).value;
    var t0 := SystemTransform(res.0, res.1, names[0], anchor, spacing).value;
    var t1 := SystemTransform(res.0, res.1, names[1], anchor, spacing).value;
    assert Transform(target, current, PatchTransforms.Names(names), anchor, spacing) == Ok(Blend(t0, t1));
    BlendApply(t0, t1, p);
  }

  /** A single name and a list holding only that name give the same transform. */
  lemma TransformSingleName(target: Option<Obj>, current: Figure, name: string, anchor: string, spacing: real)
    requires current.Valid() && (target.Some? ==> target.value.Valid())
    ensures Transform(target, current, PatchTransforms.Name(name), anchor, spacing) ==
            Transform(target, current, PatchTransforms.Names([name]), anchor, spacing)
    ensures Resolve(target, current).Ok? ==>
      var res := Resolve(target, current).value;
      Transform(target, current, PatchTransforms.Name(name), anchor, spacing) == SystemTransform(res.0, res.1, name, anchor, spacing)
  {
  }

  // ---------------------------------------------------------------------------
  // `PointAxes`

  /** The rectangle `PointAxes.__init__` hands to the axes: with `margin`, the rectangle
      is read as pairs of multiples of `spacing` points from the lower-left corner
      of the figure (the `figure` keyword if given, else the current figure) and
      converted to figure fractions; without it, the rectangle is kept. */
  function AxesRect(margin: bool, figureKw: Option<Figure>, current: Figure, rect: seq<real>,
                    spacing: real): (r: Result<seq<real>>)
    requires current.Valid() && (figureKw.Some? ==> figureKw.value.Valid())
    ensures !margin ==> r == Ok(rect)
    ensures margin && r.Ok? ==> |rect| == 4 && |r.value| == 4
    ensures r.Err? ==> r.error in {ZeroDivision, BadShape}
  {
    if !margin then Ok(rect)
    else
      var fig := if figureKw.Some? then figureKw.value else current;
      var trans :- Transform(Some(FigureObj(fig)), current, PatchTransforms.Name("unit"), "bl", spacing);
      FractionOfFigure(trans, fig, rect)
  }

  /** A margin rectangle `[l, b, w, h]` in units of `spacing` points becomes the figure
      fractions `k*l/W, k*b/H, k*w/W, k*h/H` with `k = dpi * spacing / 72`; a zero
      spacing fails on the division and any length other than four on the shape. */
  lemma MarginRectFractions(figureKw: Option<Figure>, current: Figure, fig: Figure, rect: seq<real>, spacing: real)
    requires current.Valid() && (figureKw.Some? ==> figureKw.value.Valid())
    requires fig == if figureKw.Some? then figureKw.value else current
    ensures spacing == 0.0 ==> AxesRect(true, figureKw, current, rect, spacing) == Err(ZeroDivision)
    ensures spacing != 0.0 && |rect| != 4 ==> AxesRect(true, figureKw, current, rect, spacing) == Err(BadShape)
    ensures spacing != 0.0 && |rect| == 4 ==>
      AxesRect(true, figureKw, current, rect, spacing) ==
        Ok(Scaled4(fig.dpi * spacing / 72.0, fig, rect))
  {
    var ob := FigureObj(fig);
    assert Transform(Some(ob), current, PatchTransforms.Name("unit"), "bl", spacing) ==
           SystemTransform(ob, fig, "unit", "bl", spacing);
    NamedSpacingTransform(ob, fig, "unit", "bl", spacing);
    if spacing != 0.0 {
      var k := fig.dpi * spacing / 72.0;
      assert PatchTransforms.OwnFigure(ob) == Ok(fig);
      assert PatchTransforms.ObjectPosition(ob, fig) == fig.Bbox();
      assert PatchTransforms.AnchorPoint("bl", fig.Bbox()) == Ok(Point(0.0, 0.0));
      SpacingScaleValue(fig.dpi, spacing, k);
      NonZeroScale(fig.dpi, spacing);
      AnchoredTransform(ob, "bl", spacing, k, Point(0.0, 0.0));
      assert SystemTransform(ob, fig, "unit", "bl", spacing) == Ok(Affine(k, 0.0, k, 0.0));
      assert AxesRect(true, figureKw, current, rect, spacing) == FractionOfFigure(Affine(k, 0.0, k, 0.0), fig, rect);
      if |rect| == 4 {
        FractionOfScaledFigure(k, fig, rect);
      }
    }
  }

  /** The transform `align_ticklabels` gives the tick labels of one axis: data
      coordinates along that axis and the chosen system across it. */
  function TickLabelTransform(ax: Axes, current: Figure, axis: string, system: string,
                              anchor: string, spacing: real): (r: Result<Affine>)
    requires ax.Valid() && current.Valid()
    ensures r.Err? && r.error == NoAxis <==> axis != "x" && axis != "y"
    ensures r.Err? ==> r.error in {NoAxis, ZeroDivision, BadAnchor, Degenerate, UnknownSystem}
  {
    if axis == "x" then Transform(Some(AxesObj(ax)), current, PatchTransforms.Names(["data", system]), anchor, spacing)
    else if axis == "y" then Transform(Some(AxesObj(ax)), current, PatchTransforms.Names([system, "data"]), anchor, spacing)
    else Err(NoAxis)
  }

  /** For `'x'` the labels follow the data along x and the system along y, for `'y'`
      the other way round; it fails exactly when the system does, and any other axis
      name is refused. */
  lemma TickLabelAxes(ax: Axes, current: Figure, axis: string, system: string, anchor: string,
                      spacing: real, p: Point)
    requires ax.Valid() && current.Valid()
    ensures var r := TickLabelTransform(ax, current, axis, system, anchor, spacing);
      var st := SystemTransform(AxesObj(ax), ax.figure, system, anchor, spacing);
      (axis != "x" && axis != "y" ==> r == Err(NoAxis)) &&
      (axis in ["x", "y"] ==> (r.Ok? <==> st.Ok?)) &&
      (axis == "x" && r.Ok? ==> r.value.Apply(p).x == ax.TransData().Apply(p).x && r.value.Apply(p).y == st.value.Apply(p).y) &&
      (axis == "y" && r.Ok? ==> r.value.Apply(p).x == st.value.Apply(p).x && r.value.Apply(p).y == ax.TransData().Apply(p).y)
  {
    var target := Some(AxesObj(ax));
    if axis == "x" {
      TransformBlendsFirstTwo(target, current, ["data", system], anchor, spacing);
      if TickLabelTransform(ax, current, axis, system, anchor, spacing).Ok? {
        TransformBlendAxes(target, current, ["data", system], anchor, spacing, p);
      }
    } else if axis == "y" {
      TransformBlendsFirstTwo(target, current, [system, "data"], anchor, spacing);
      if TickLabelTransform(ax, current, axis, system, anchor, spacing).Ok? {
        TransformBlendAxes(target, current, [system, "data"], anchor, spacing, p);
      }
    }
  }

  /** A `PointAxes`: the axes itself and the transforms its decorated calls built. */
  class PointAxes {
    const ax: Axes
    var savedTransforms: seq<Affine>

    constructor(ax: Axes)
      ensures this.ax == ax && savedTransforms == []
    {
      this.ax := ax;
      savedTransforms := [];
    }

    /** The wrapper around `text` and `plot`: the transform of `system` for this axes
        (default `'axes'`) is saved, then passed as `transform=`; a `transform` given
        by the caller as well is a duplicate keyword, after the transform was saved. */
    method Decorated(kwargs: Kwargs, system: PatchTransforms.Systems, anchor: string, spacing: real,
                     current: Figure) returns (r: Result<Kwargs>)
      requires ax.Valid() && current.Valid()
      modifies this
      ensures var t := Transform(Some(AxesObj(ax)), current, system, anchor, spacing);
        (t.Err? ==> r == Err(t.error) && savedTransforms == old(savedTransforms)) &&
        (t.Ok? ==> savedTransforms == old(savedTransforms) + [t.value] &&
                   (r.Ok? <==> "transform" !in kwargs) &&
                   (r.Err? ==> r.error == DuplicateKeyword) &&
                   (r.Ok? ==> r.value == kwargs["transform" := Trans(t.value)]))
    {
      var t := GetTransform(Some(AxesObj(ax)), current, system, anchor, spacing);
      if t.Err? {
        return Err(t.error);
      }
      savedTransforms := savedTransforms + [t.value];
      if "transform" in kwargs {
        return Err(DuplicateKeyword);
      }
      r := Ok(kwargs["transform" := Trans(t.value)]);
    }
  }

  // ---------------------------------------------------------------------------
  // `PointFigure`

  /** The dot grid's data and keywords: the default style merged with the caller's
      keywords, the transform of `system` for the figure, and the grid of dots of
      `interval` units; `transform` or `figure` among the caller's keywords is a
      duplicate keyword of the `Line2D` call. */
  function DotgridArtist(fig: Figure, current: Figure, system: PatchTransforms.Systems, interval: real,
                         kwargs: Kwargs): (r: Result<(seq<real>, seq<real>, Kwargs)>)
    requires fig.Valid() && current.Valid()
    ensures r.Ok? ==> "transform" !in kwargs && "figure" !in kwargs && interval != 0.0
    ensures r.Ok? ==> |r.value.0| == |r.value.1| && r.value.2.Keys == kwargs.Keys + {"c", "lw", "marker", "ms", "zorder", "transform"}
    ensures r.Ok? ==> forall k :: k in kwargs ==> r.value.2[k] == kwargs[k]
    ensures r.Err? ==> r.error in {NoSystems, ZeroDivision, BadAnchor, Degenerate, UnknownSystem, NoAttribute, Singular, ZeroStep, DuplicateKeyword}
  {
    var style := DotgridStyle(kwargs);
    var t :- Transform(Some(FigureObj(fig)), current, system, "bl", 12.0);
    var grid :- DotGrid(t, fig, interval);
    if "transform" in style || "figure" in style then Err(DuplicateKeyword)
    else Ok((grid.0, grid.1, style["transform" := Trans(t)]))
  }

  /** In inches (the default system) the dots sit at every multiple of the interval
      inside the figure, one row after another. */
  lemma InchDotgrid(fig: Figure, current: Figure, interval: real, kwargs: Kwargs)
    requires fig.Valid() && current.Valid() && interval > 0.0
    requires "transform" !in kwargs && "figure" !in kwargs
    ensures var r := DotgridArtist(fig, current, PatchTransforms.Name("inch"), interval, kwargs);
      var (xs, ys) := GridValues(Affine(fig.dpi, 0.0, fig.dpi, 0.0), fig, interval);
      r.Ok? && RowMajor(r.value.0, r.value.1, xs, ys) &&
      InsideMultiples(xs, interval, fig.width / fig.dpi) && InsideMultiples(ys, interval, fig.height / fig.dpi)
  {
    InchTransform(fig, current);
    ScaledDotgrid(fig, current, PatchTransforms.Name("inch"), interval, kwargs, fig.dpi);
  }

  /** The inch system of a figure: `dpi` pixels per inch from its lower-left corner. */
  lemma InchTransform(fig: Figure, current: Figure)
    requires fig.Valid() && current.Valid()
    ensures Transform(Some(FigureObj(fig)), current, PatchTransforms.Name("inch"), "bl", 12.0) ==
      Ok(Affine(fig.dpi, 0.0, fig.dpi, 0.0))
  {
    var ob := FigureObj(fig);
    assert Transform(Some(ob), current, PatchTransforms.Name("inch"), "bl", 12.0) ==
           SystemTransform(ob, fig, "inch", "bl", 12.0);
    NamedSpacingTransform(ob, fig, "inch", "bl", 12.0);
    assert fig.dpi * 72.0 / 72.0 == fig.dpi;
    assert PatchTransforms.AnchorPoint("bl", fig.Bbox()) == Ok(Point(0.0, 0.0));
  }

  /** In a system of `s` pixels per unit from the figure's lower-left corner the dots
      sit at every multiple of the interval inside the figure, row after row. */
  lemma ScaledDotgrid(fig: Figure, current: Figure, system: PatchTransforms.Systems, interval: real,
                      kwargs: Kwargs, s: real)
    requires fig.Valid() && current.Valid() && interval > 0.0 && s > 0.0
    requires "transform" !in kwargs && "figure" !in kwargs
    requires Transform(Some(FigureObj(fig)), current, system, "bl", 12.0) == Ok(Affine(s, 0.0, s, 0.0))
    ensures var r := DotgridArtist(fig, current, system, interval, kwargs);
      var (xs, ys) := GridValues(Affine(s, 0.0, s, 0.0), fig, interval);
      r.Ok? && RowMajor(r.value.0, r.value.1, xs, ys) &&
      InsideMultiples(xs, interval, fig.width / s) && InsideMultiples(ys, interval, fig.height / s)
  {
    var t := Affine(s, 0.0, s, 0.0);
    DotGridPoints(t, fig, interval);
    GridOfUnits(s, fig, interval);
  }

  /** A `PointFigure`: the figure, the transforms its decorated calls built, its
      lines, and the dot grid once drawn (always one of its lines). */
  class PointFigure {
    const fig: Figure
    var savedTransforms: seq<Affine>
    var lines: seq<Line2D>
    var dotgrid: Line2D?

    predicate Valid()
      reads this
    {
      fig.Valid() && (dotgrid != null ==> dotgrid in lines)
    }

    constructor(fig: Figure)
      requires fig.Valid()
      ensures Valid() && this.fig == fig && savedTransforms == [] && lines == [] && dotgrid == null
    {
      this.fig := fig;
      savedTransforms := [];
      lines := [];
      dotgrid := null;
    }

    /** The wrapper around `text`: the transform of `system` for this figure (default
        `'figure'`) is saved, then passed as `transform=`; a `transform` given by the
        caller as well is a duplicate keyword, after the transform was saved. */
    method Decorated(kwargs: Kwargs, system: PatchTransforms.Systems, anchor: string, spacing: real,
                     current: Figure) returns (r: Result<Kwargs>)
      requires Valid() && current.Valid()
      modifies this
      ensures Valid() && lines == old(lines) && dotgrid == old(dotgrid)
      ensures var t := Transform(Some(FigureObj(fig)), current, system, anchor, spacing);
        (t.Err? ==> r == Err(t.error) && savedTransforms == old(savedTransforms)) &&
        (t.Ok? ==> savedTransforms == old(savedTransforms) + [t.value] &&
                   (r.Ok? <==> "transform" !in kwargs) &&
                   (r.Err? ==> r.error == DuplicateKeyword) &&
                   (r.Ok? ==> r.value == kwargs["transform" := Trans(t.value)]))
    {
      var t := GetTransform(Some(FigureObj(fig)), current, system, anchor, spacing);
      if t.Err? {
        return Err(t.error);
      }
      savedTransforms := savedTransforms + [t.value];
      if "transform" in kwargs {
        return Err(DuplicateKeyword);
      }
      r := Ok(kwargs["transform" := Trans(t.value)]);
    }

    /** `line`: a new line in the transform of `system` (default `'pica'`), appended
        to the figure's lines. */
    method Line(xs: seq<real>, ys: seq<real>, kwargs: Kwargs, system: PatchTransforms.Systems,
                anchor: string, spacing: real, current: Figure) returns (r: Result<Line2D>)
      requires Valid() && current.Valid()
      modifies this
      ensures Valid() && savedTransforms == old(savedTransforms) && dotgrid == old(dotgrid)
      ensures var t := Transform(Some(FigureObj(fig)), current, system, anchor, spacing);
        (r.Ok? <==> t.Ok? && "transform" !in kwargs) &&
        (r.Err? ==> r.error == (if t.Err? then t.error else DuplicateKeyword) && lines == old(lines)) &&
        (r.Ok? ==> fresh(r.value) && lines == old(lines) + [r.value] && r.value.visible &&
                   r.value.xs == xs && r.value.ys == ys && r.value.style == kwargs["transform" := Trans(t.value)])
    {
      var t := GetTransform(Some(FigureObj(fig)), current, system, anchor, spacing);
      if t.Err? {
        return Err(t.error);
      }
      if "transform" in kwargs {
        return Err(DuplicateKeyword);
      }
      var line := new Line2D(xs, ys, kwargs["transform" := Trans(t.value)]);
      lines := lines + [line];
      r := Ok(line);
    }

    /** `draw_dotgrid`: a new, hidden line of dots becomes the dot grid and is appended
        to the lines (a grid drawn before stays among the lines). */
    method DrawDotgrid(system: PatchTransforms.Systems, interval: real, kwargs: Kwargs, current: Figure)
      returns (r: Result<()>)
      requires Valid() && current.Valid()
      modifies this
      ensures Valid() && savedTransforms == old(savedTransforms)
      ensures var d := DotgridArtist(fig, current, system, interval, kwargs);
        (r.Ok? <==> d.Ok?) &&
        (r.Err? ==> r.error == d.error && lines == old(lines) && dotgrid == old(dotgrid)) &&
        (r.Ok? ==> fresh(dotgrid) && lines == old(lines) + [dotgrid] && !dotgrid.visible &&
                   dotgrid.xs == d.value.0 && dotgrid.ys == d.value.1 && dotgrid.style == d.value.2)
    {
      var d := DotgridArtist(fig, current, system, interval, kwargs);
      if d.Err? {
        return Err(d.error);
      }
      AddDotgrid(d.value.0, d.value.1, d.value.2);
      r := Ok(());
    }

    /** The new dot grid becomes the figure's grid, is appended to its lines and hidden. */
    method AddDotgrid(xs: seq<real>, ys: seq<real>, style: Kwargs)
      requires Valid()
      modifies this
      ensures Valid() && savedTransforms == old(savedTransforms)
      ensures fresh(dotgrid) && lines == old(lines) + [dotgrid] && !dotgrid.visible
      ensures dotgrid.xs == xs && dotgrid.ys == ys && dotgrid.style == style
    {
      var line := new Line2D(xs, ys, style);
      dotgrid := line;
      lines := lines + [line];
      var hidden := HideDotgrid();
    }

    /** `show_dotgrid`: draws the grid first if there is none, then makes it visible. */
    method ShowDotgrid(system: PatchTransforms.Systems, interval: real, kwargs: Kwargs, current: Figure)
      returns (r: Result<()>)
      requires Valid() && current.Valid()
      modifies this, dotgrid
      ensures Valid() && savedTransforms == old(savedTransforms)
      ensures old(dotgrid) != null ==> r.Ok? && dotgrid == old(dotgrid) && lines == old(lines) && dotgrid.visible
      ensures old(dotgrid) == null ==>
        var d := DotgridArtist(fig, current, system, interval, kwargs);
        (r.Ok? <==> d.Ok?) &&
        (r.Err? ==> r.error == d.error && lines == old(lines) && dotgrid == null) &&
        (r.Ok? ==> fresh(dotgrid) && lines == old(lines) + [dotgrid] && dotgrid.visible &&
                   dotgrid.xs == d.value.0 && dotgrid.ys == d.value.1 && dotgrid.style == d.value.2)
    {
      if dotgrid == null {
        r := DrawDotgrid(system, interval, kwargs, current);
        if r.Err? {
          return;
        }
      }
      dotgrid.SetVisible(true);
      r := Ok(());
    }

    /** `hide_dotgrid`: hides the grid; before any grid was drawn there is nothing to hide. */
    method HideDotgrid() returns (r: Result<()>)
      requires Valid()
      modifies dotgrid
      ensures (r.Ok? <==> dotgrid != null) && (r.Err? ==> r.error == NoDotgrid)
      ensures dotgrid != null ==> !dotgrid.visible
    {
      if dotgrid == null {
        return Err(NoDotgrid);
      }
      dotgrid.SetVisible(false);
      r := Ok(());
    }
  }
}
