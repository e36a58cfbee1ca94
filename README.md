# mpltypo / matplotpatch in Dafny

The repository has two generations of one idea, `mpltypo` and its successor `matplotpatch`. Both add typographic coordinate systems to a matplotlib figure: points, picas, inches, millimetres and centimetres, measured from a chosen corner of the figure or of an axes. On top of these systems they build:

- line-spaced multi-line text whose baselines are a fixed line height apart;
- a multi-colour text written in a bracket markup (`"a [word:1] b"`);
- margins, tick-label pads and axes rectangles given in units;
- a dot grid over the figure.

This project models that core over real numbers. Every matplotlib transform the core uses maps x and y separately, so transforms are modelled as axis-separable affine maps (`Geometry.Affine`). Glyph metrics are a function the caller supplies (`TextLayout.Metrics`). The current figure, `plt.gcf()`, is a parameter (`current`).

Modules:

| module | file | models |
|---|---|---|
| `Base` | base.dfy | `Result`/`Option`, the error kinds, `str.split`/`join` |
| `Geometry` | geometry.dfy | points, boxes, axis-separable affine maps, `BboxTransformTo/From`, `inverted`, `blended_transform_factory` |
| `Canvas` | canvas.dfy | figures, axes and their `transFigure`/`transAxes`/`transData`, the `object=` argument, rectangles to figure fractions |
| `PatchTransforms` | patch_transforms.dfy | `matplotpatch/transforms.py`: unit parsing, `PointTransform`, `transform_factory`, `decorator_custom_transform` |
| `Typo` | typo.dfy | `mpltypo/mpltypo.py`: spacing-based `PointTransform`, `GetTransform`, `PointAxes`, `PointFigure` |
| `TextLayout` | text_layout.dfy | `_get_layout`, which both text modules share |
| `TypoText` | typo_text.dfy | `mpltypo/text.py`: `SpacedText` |
| `PatchText` | patch_text.dfy | `matplotpatch/text.py`: `TextPlus` and `TextMuliColor` (drawing, increments, extents) |
| `Markup` | markup.dfy | `TextMuliColor._generate_lines`, the bracket-markup splitter |
| `Grid` | grid.dfy | `np.arange`, `np.tile`, `np.repeat`, the dot grid and `Line2D` |
| `PatchAxes` | patch_axes.dfy | `matplotpatch/axes.py`: `AxesPlus` rectangle, `set_margin`, tick-label pads, `decorator_axes` |
| `PatchFigure` | patch_figure.dfy | `matplotpatch/figure.py`: `FigurePlus` line and dot grid |

Each operation that raises in the source returns `Err(e)` in the model. The `Base.Error` constructor names what went wrong.

Where the source changes state, it is modelled as a class:

- `SpacedText`/`TextPlus` with its layout cache;
- `TextMultiColor` with the parent's artist list;
- `AxesPlus` with its limits and pads;
- `PointAxes`, `PointFigure` and `FigurePlus` with their saved transforms, lines and dot grid.

Each loop of the source is a method whose loop is proved against a recursive specification function:

- the system loops of `transform_factory` and `GetTransform`;
- the line loop of `_get_layout`;
- both loops of `_generate_lines`;
- the running maxima of `_get_line_max_extent`;
- the stacking loop of `draw`.

## Model

| member | source | states |
|---|---|---|
| Base.Split | mpltypo/text.py:77 | `str.split` on one character is never empty, and no piece holds the separator |
| Base.JoinSplit | matplotpatch/text.py:313 | joining the pieces of a split with the separator gives back the string |
| Base.SplitCount | matplotpatch/text.py:313-320 | a split has one piece more than the string has separators |
| Base.SplitJoin | matplotpatch/text.py:313 | splitting the join of separator-free pieces gives back the pieces |
| Geometry.ThenApply | matplotpatch/transforms.py:36 | the composite transform applies the first map, then the second |
| Geometry.BboxTransformToCorners | matplotpatch/transforms.py:36 | `BboxTransformTo(r)` takes the unit square's corners to the corners of `r` |
| Geometry.BboxTransformFromCorners | matplotpatch/transforms.py:36 | `BboxTransformFrom(r)` takes the corners of `r` to the unit square's |
| Geometry.Inverse | matplotpatch/figure.py:70 | `inverted()` exists exactly for a non-singular map; a singular one fails with `Singular` |
| Geometry.InverseApply | matplotpatch/text.py:382 | the inverse undoes the map, and the map undoes the inverse |
| Geometry.BlendApply | matplotpatch/transforms.py:132-133 | a blended transform takes x from the first map and y from the second |
| Geometry.InUnits | matplotpatch/transforms.py:60-61 | `(fig_pos - anchor) / scale` is a proper box when the figure box is |
| Geometry.AnchoredAxis | matplotpatch/transforms.py:36-61 | on one axis, the unit interval of the box `(f - a)/s` is proper, and mapping it onto `f` scales by `s` and moves the origin to `a` |
| Geometry.AnchoredUnitSystem | matplotpatch/transforms.py:36 | `BboxTransformFrom((f - a) / s)` followed by `BboxTransformTo(f)` is `u ↦ a + s·u`, for every box `f`, anchor `a` and scale `s ≠ 0` |
| Canvas.FigureCorners | matplotpatch/transforms.py:115-116 | `transFigure` takes figure fractions (0,0) and (1,1) to the figure's pixel corners |
| Canvas.AxesCorners | matplotpatch/transforms.py:117-118 | `transAxes` takes axes fractions (0,0) and (1,1) to the corners of the axes box |
| Canvas.DataCorners | matplotpatch/transforms.py:119-120 | `transData` takes the corners of the view limits to the corners of the axes box |
| Canvas.Resolve | matplotpatch/transforms.py:95-105 | `None` means the current figure; a figure is its own figure; an axes or other artist gives its `figure`; anything else fails with `NoFigure` |
| Canvas.FractionOfFigure | matplotpatch/axes.py:33-36 | a rectangle of four entries gives four figure fractions; every other length fails with `BadShape` |
| Canvas.FractionOfScaledFigure | matplotpatch/axes.py:33-36 | through `u ↦ s·u` the rectangle `[l,b,w,h]` becomes `s·l/W, s·b/H, s·w/W, s·h/H` |
| PatchTransforms.MatchUnit | matplotpatch/transforms.py:69 | a match's number group is a non-empty run of digits and dots |
| PatchTransforms.MatchUnitSound | matplotpatch/transforms.py:69 | a match is a non-empty number of digits and dots, followed by a non-empty unit of word characters, which is maximal, at the start of the string |
| PatchTransforms.MatchUnitComplete | matplotpatch/transforms.py:69 | a string that starts with digits or dots, followed by a word character, always matches |
| PatchTransforms.DigitsOfNat | matplotpatch/transforms.py:72 | the decimal digits of `n` read back as `n` |
| PatchTransforms.ParseFloat | matplotpatch/transforms.py:72 | `float()` on digits and dots fails with `BadNumber` exactly on a second dot or on no digit at all; without a dot it reads the decimal value of the digits (with one dot, see `ParseDecimal`) |
| PatchTransforms.ParseNatDigits | matplotpatch/transforms.py:72 | `float(str(n)) == n` |
| PatchTransforms.DigitsConcat | matplotpatch/transforms.py:72 | the digits of `x + y` are worth those of `x` shifted left by `|y|` places, plus those of `y` |
| PatchTransforms.FractionDigits | matplotpatch/transforms.py:72 | the fraction `0.b` is the digits of `b` over `10^|b|` |
| PatchTransforms.ParseDecimal | matplotpatch/transforms.py:72 | `float(a + "." + b)`, for digit strings not both empty, is the digits of `a + b` over `10^|b|`; a missing whole part or fraction reads as zero |
| PatchTransforms.PerInch | matplotpatch/transforms.py:74-83 | every known unit has a positive number per inch |
| PatchTransforms.UnitScale | matplotpatch/transforms.py:74-85 | the scale exists exactly for the five unit families, where it is `dpi·n/PerInch(unit)`; any other unit fails with `BadUnit` |
| PatchTransforms.GetScale | matplotpatch/transforms.py:64-87 | the only failures are `UnitNoMatch`, `BadNumber` and `BadUnit`; `UnitNoMatch` exactly when nothing matches; after a match, the scale exists exactly when the number parses and the unit is known |
| PatchTransforms.GetScaleCases | matplotpatch/transforms.py:64-87 | no match gives `UnitNoMatch` (the unbound `val`), and only no match does; the only failures are `UnitNoMatch`, `BadNumber` and `BadUnit`; a match whose number parses is scaled by its unit |
| PatchTransforms.MatchQuantity | matplotpatch/transforms.py:69-71 | digits and dots followed by lower-case letters match as exactly those two groups |
| PatchTransforms.ParseDigits | matplotpatch/transforms.py:72 | a string of digits reads as its decimal value |
| PatchTransforms.ScaleOfDigits | matplotpatch/transforms.py:69-83 | a number of digits followed by a lower-case unit is scaled as that unit with the digits' value |
| PatchTransforms.KnownUnitScale | matplotpatch/transforms.py:74-83 | for a known unit the scale is `dpi·n/PerInch(unit)` |
| PatchTransforms.ScaleOfQuantity | matplotpatch/transforms.py:64-87 | `"<digits><unit>"` is `dpi·v/PerInch(unit)` pixels per unit |
| PatchTransforms.ScaleOfDecimal | matplotpatch/transforms.py:64-87 | a decimal `a.b` followed by a lower-case unit is scaled as that unit with the decimal's value |
| PatchTransforms.ScaleOfDecimalQuantity | matplotpatch/transforms.py:64-87 | `"<a>.<b><unit>"` is `dpi·v/PerInch(unit)` pixels per unit, `v` the decimal's value |
| PatchTransforms.HalfMillimetres | matplotpatch/transforms.py:80-81 | `"2.5mm"` is `dpi·2.5/25.4` pixels per unit |
| PatchTransforms.LeadingPoint | matplotpatch/transforms.py:78-79 | `".5in"` is `dpi·0.5` pixels per unit |
| PatchTransforms.TrailingPoint | matplotpatch/transforms.py:74-75 | `"5.pt"` is `dpi·5/72` pixels per unit |
| PatchTransforms.ScaleOfMatch | matplotpatch/transforms.py:69-83 | the scale depends on the string only through the match and the number read |
| PatchTransforms.ScaleLinear | matplotpatch/transforms.py:74-83 | the scale is linear in the magnitude and in the resolution |
| PatchTransforms.AnchorPoint | matplotpatch/transforms.py:51-56 | `bl`, `tl`, `tr` and `br` select (x0,y0), (x0,y1), (x1,y1) and (x1,y0); any other key fails with `BadAnchor` |
| PatchTransforms.OwnFigure | matplotpatch/transforms.py:20-25 | a figure is its own figure and an axes or artist has its `figure`; an object without one fails with `NoFigure` |
| PatchTransforms.ObjectPosition | matplotpatch/transforms.py:38-47 | an axes is measured by its position mapped through `transFigure`; anything else by the figure box |
| PatchTransforms.PointTransform.GetBbox | matplotpatch/transforms.py:49-62 | the box `(fig_pos - anchor)/scale` is proper whenever the figure box is |
| PatchTransforms.NewPointTransform | matplotpatch/transforms.py:18-36 | construction fails exactly when the object has no figure; it records the figure, the figure box and the object's box |
| PatchTransforms.PointTransformIsAnchoredScale | matplotpatch/transforms.py:18-62 | the transform exists exactly when there is a figure, a non-zero scale and a known anchor; it is then `u ↦ anchor + scale·u`, so the origin goes to the anchor corner |
| PatchTransforms.AnchoredTransform | matplotpatch/transforms.py:36 | with scale `s` and anchor `a` the transform is `Affine(s, a.x, s, a.y)` |
| PatchTransforms.ZeroScaleDegenerate | matplotpatch/transforms.py:60 | zero units (`"0pt"`) have no transform |
| PatchTransforms.DegenerateTransform | matplotpatch/transforms.py:60 | a zero scale with a known anchor fails with `Degenerate` |
| PatchTransforms.Systems.List | matplotpatch/transforms.py:107-108 | a single name is a one-element list |
| PatchTransforms.SystemTransform | matplotpatch/transforms.py:115-128 | `figure` always has a transform; `NoAttribute` only for `ax`/`axes`/`axis`/`data` on an object that is not an axes; `NoFigure` only for an object without a figure; the other failures are those of the unit string and the anchor |
| PatchTransforms.FixedSystemTransforms | matplotpatch/transforms.py:115-120 | `figure` is `transFigure`; `ax`/`axes`/`axis` is `transAxes` and `data` is `transData`; those two exist exactly for an axes |
| PatchTransforms.NamedUnitSystem | matplotpatch/transforms.py:121-126 | a bare unit name is one of that unit, `dpi/PerInch` pixels from the anchor corner; it fails only on an unknown anchor |
| PatchTransforms.UnitNameSystem | matplotpatch/transforms.py:121-126 | a bare unit name goes to `PointTransform` with its rewritten unit string |
| PatchTransforms.UnitNameNotReserved | matplotpatch/transforms.py:115-126 | no unit alias is one of the reserved system names |
| PatchTransforms.UnitNameScale | matplotpatch/transforms.py:121-126 | `"12pt"`, `"1in"` and `"1pt"` are one pica, one inch and one point, and the scale is non-zero exactly when the dpi is |
| PatchTransforms.UnitNameFacts | matplotpatch/transforms.py:121-126 | the aliases are rewritten to `"12pt"`, `"1in"` and `"1pt"`, and their units per inch are 6, 1 and 72 |
| PatchTransforms.PicaScale | matplotpatch/transforms.py:122 | `"12pt"` is `dpi/6` pixels per unit |
| PatchTransforms.OneUnitScale | matplotpatch/transforms.py:124-126 | `"1in"` and `"1pt"` are `dpi` and `dpi/72` pixels per unit |
| PatchTransforms.Factory | matplotpatch/transforms.py:89-137 | `NoFigure` exactly for an object without a figure; `NoSystems` exactly for an empty list of names on a valid object; every other failure is one of a system name |
| PatchTransforms.TransformFactory | matplotpatch/transforms.py:89-137 | the loop over at most two names, with the blend or the single transform, equals `Factory` |
| PatchTransforms.CollectTransforms | matplotpatch/transforms.py:111-130 | the loop appends the transform of each of the first `n` names in order, and stops at the first failure |
| PatchTransforms.NextTransform | matplotpatch/transforms.py:112-130 | one more name extends the run by its transform, or ends it with its failure |
| PatchTransforms.FailurePersists | matplotpatch/transforms.py:111-130 | after a failing name the later names are never reached |
| PatchTransforms.FirstTransformsLength | matplotpatch/transforms.py:111-130 | a run over `n` names that succeeds has `n` transforms |
| PatchTransforms.FactoryOfFirst | matplotpatch/transforms.py:107-137 | `Factory` combines the run over the first `min(2, n)` names |
| PatchTransforms.FirstOfOne | matplotpatch/transforms.py:112-130 | the run over one name is that name's transform |
| PatchTransforms.FactoryBlendsFirstTwo | matplotpatch/transforms.py:109-133 | names after the second are ignored, and the blend exists exactly when both of the first two exist |
| PatchTransforms.FactoryBlendAxes | matplotpatch/transforms.py:132-133 | the blended result takes x from the first system and y from the second |
| PatchTransforms.FactorySingleName | matplotpatch/transforms.py:107-135 | a name and the list of just that name give the same transform, namely that system's |
| PatchTransforms.DecorateCustomTransform | matplotpatch/transforms.py:139-151 | without `system` the keywords pass unchanged; with it, the call fails exactly when the factory does, `transform` is set to the factory's transform and the other keywords are kept |
| Typo.SpacingScale | mpltypo/mpltypo.py:89 | `dpi / (72 / spacing)` fails exactly on a zero spacing |
| Typo.SpacingScaleValue | mpltypo/mpltypo.py:89 | the scale is `dpi·spacing/72` |
| Typo.PointTransform.GetBbox | mpltypo/mpltypo.py:80-92 | the box `(fig_pos - anchor)/scale` is proper whenever the figure box is |
| Typo.NewPointTransform | mpltypo/mpltypo.py:49-67 | construction fails exactly when the object has no figure; it records the figure and both boxes |
| Typo.PointTransformExists | mpltypo/mpltypo.py:49-92 | the transform exists exactly when there is a figure, the spacing is non-zero and the anchor is one of the four |
| Typo.PointTransformIsAnchoredScale | mpltypo/mpltypo.py:82-91 | the transform is `u ↦ anchor + s·u` with `s = dpi·spacing/72` |
| Typo.AnchoredTransform | mpltypo/mpltypo.py:67 | with scale `s` and anchor `a` the transform is `Affine(s, a.x, s, a.y)` |
| Typo.ZeroSpacingFirst | mpltypo/mpltypo.py:89-90 | a zero spacing fails on the division even when the anchor is unknown too |
| Typo.SystemSpacing | mpltypo/mpltypo.py:129-136 | exactly `pica`, `inch`, `point` and `unit` have a spacing |
| Typo.SystemTransform | mpltypo/mpltypo.py:123-138 | `UnknownSystem` exactly for a name outside the seven; `NoAttribute` exactly for `axes` or `data` on an object that is not an axes; `figure` always has a transform; `NoFigure` only without a figure |
| Typo.FixedSystemTransforms | mpltypo/mpltypo.py:123-128 | `figure`, `axes` (only that spelling) and `data` are the object's own transforms, the last two only for an axes |
| Typo.SpacingNameNotReserved | mpltypo/mpltypo.py:123-136 | the spacing names are none of the coordinate-system names |
| Typo.NamedSpacingTransform | mpltypo/mpltypo.py:129-136 | the four spacing names are anchored unit systems of `dpi·points/72` pixels per unit |
| Typo.UnknownSystemName | mpltypo/mpltypo.py:137-138 | a name outside the seven known ones fails with `UnknownSystem` |
| Typo.SpacingsAgreeWithUnits | mpltypo/mpltypo.py:129-134 | the spacings agree with the unit table of `matplotpatch`: 12 points are a pica, 72 an inch and 1 a point |
| Typo.Transform | mpltypo/mpltypo.py:97-147 | `NoFigure` exactly for an object without a figure; `NoSystems` exactly for an empty list of names on a valid object; every other failure is one of a system name |
| Typo.GetTransform | mpltypo/mpltypo.py:97-147 | the loop over at most two names, with the blend or the single transform, equals `Transform` |
| Typo.CollectTransforms | mpltypo/mpltypo.py:119-140 | the loop appends the transform of each of the first `n` names in order, and stops at the first failure |
| Typo.NextTransform | mpltypo/mpltypo.py:120-140 | one more name extends the run by its transform, or ends it with its failure |
| Typo.FailurePersists | mpltypo/mpltypo.py:119-140 | after a failing name the later names are never reached |
| Typo.FirstTransformsLength | mpltypo/mpltypo.py:119-140 | a run over `n` names that succeeds has `n` transforms |
| Typo.TransformOfFirst | mpltypo/mpltypo.py:115-147 | `Transform` combines the run over the first `min(2, n)` names |
| Typo.FirstOfOne | mpltypo/mpltypo.py:120-140 | the run over one name is that name's transform |
| Typo.TransformBlendsFirstTwo | mpltypo/mpltypo.py:117-143 | names after the second are ignored, and the blend exists exactly when both of the first two exist |
| Typo.TransformBlendAxes | mpltypo/mpltypo.py:142-143 | the blended result takes x from the first system and y from the second |
| Typo.TransformSingleName | mpltypo/mpltypo.py:115-145 | a name and the list of just that name give the same transform, namely that system's |
| Typo.AxesRect | mpltypo/mpltypo.py:160-175 | without `margin` the rectangle is kept; with it a result has four entries and comes from four; the only failures are `ZeroDivision` and `BadShape` |
| Typo.MarginRectFractions | mpltypo/mpltypo.py:160-175 | with `margin`, `[l,b,w,h]` in units of `spacing` points becomes `k·l/W, k·b/H, k·w/W, k·h/H` with `k = dpi·spacing/72`; a zero spacing and any length other than four fail |
| Typo.TickLabelTransform | mpltypo/mpltypo.py:202-212 | `NoAxis` exactly for an axis other than `x` and `y`; the other failures are those of the chosen system on an axes |
| Typo.TickLabelAxes | mpltypo/mpltypo.py:202-212 | `'x'` pairs `('data', system)` and `'y'` pairs `(system, 'data')`; the result fails exactly when the system does; any other axis is refused |
| Typo.PointAxes.constructor | mpltypo/mpltypo.py:160-179 | a new `PointAxes` has no saved transforms |
| Typo.PointAxes.Decorated | mpltypo/mpltypo.py:181-191 | the transform of the system is saved, then passed as `transform=`; a caller's own `transform` is a duplicate keyword |
| Typo.DotgridArtist | mpltypo/mpltypo.py:259-285 | a result needs no `transform` or `figure` among the caller's keywords and a non-zero interval; it has as many x as y values, the caller's keywords unchanged, plus the default style keys and `transform` |
| Typo.InchTransform | mpltypo/mpltypo.py:131-270 | the inch system of a figure is `u ↦ dpi·u` from its lower-left corner |
| Typo.InchDotgrid | mpltypo/mpltypo.py:259-285 | in inches the dots are exactly the multiples of the interval inside the figure: each value is the next multiple, below the figure's size, and the multiple after the last value is not; row after row |
| Typo.ScaledDotgrid | mpltypo/mpltypo.py:270-285 | in a system `u ↦ s·u` the dots are exactly the multiples of the interval inside the figure, none missing, row after row |
| Typo.PointFigure.constructor | mpltypo/mpltypo.py:230-236 | a new figure has no saved transforms, no lines and no dot grid |
| Typo.PointFigure.Decorated | mpltypo/mpltypo.py:238-248 | the transform of the system is saved and passed as `transform=`; the lines stay as they were |
| Typo.PointFigure.Line | mpltypo/mpltypo.py:298-305 | a new line in the transform of the system is appended to the lines; a failing system appends nothing |
| Typo.PointFigure.DrawDotgrid | mpltypo/mpltypo.py:259-287 | a new, hidden line of the grid's dots becomes the dot grid and is appended; a failure changes nothing |
| Typo.PointFigure.AddDotgrid | mpltypo/mpltypo.py:285-287 | the new grid is appended to the lines, becomes the dot grid and is hidden |
| Typo.PointFigure.ShowDotgrid | mpltypo/mpltypo.py:289-293 | an existing grid is reused and made visible; otherwise a grid is drawn first |
| Typo.PointFigure.HideDotgrid | mpltypo/mpltypo.py:295-296 | hides the grid; with no grid it fails with `NoDotgrid` |
| TextLayout.ParseVAlign | mpltypo/text.py:29-31 | exactly the six names are accepted |
| TextLayout.VAlignNames | mpltypo/text.py:29-31 | accepted names and alignments correspond one to one |
| TextLayout.UnrotatedIsNoRotation | mpltypo/text.py:142 | a rotation that moves no point is the rotation by zero |
| TextLayout.MaxOf | mpltypo/text.py:133 | `max(ws)` is at least every width and is one of them |
| TextLayout.LineExtent | mpltypo/text.py:96-106 | an empty line measures nothing; height and descent are floored at those of `"lp"` and are either that floor or the line's own |
| TextLayout.Extents | mpltypo/text.py:94-106 | one extent per line, each that line's |
| TextLayout.AdvanceIsProduct | mpltypo/text.py:122 | `n` line heights one after the other are `n·lh` |
| TextLayout.BaselineSpacing | mpltypo/text.py:112-127 | the first baseline is `-(h0 - d0)`; each later one is `lh + d_{i-1} - d_i` below the one before, so exactly `lh` for equal descents; the last descent closes the block |
| TextLayout.Measured | mpltypo/text.py:94-130 | one width, height and baseline per line |
| TextLayout.BaselineStep | mpltypo/text.py:112-127 | one pass of the loop yields the baseline of the line, the `baseline` variable, and where the next line starts |
| TextLayout.MeasureLines | mpltypo/text.py:76-130 | the loop over the lines computes `Measured` |
| TextLayout.UnrotatedBox | mpltypo/text.py:156-167 | without rotation the box keeps its bounds `[0, width] × [ymin, 0]` |
| TextLayout.RotatedBox | mpltypo/text.py:155-167 | the box holds the four rotated corners of the block, and each of its bounds is one corner's coordinate, so it is the smallest such box |
| TextLayout.BoxOffset | mpltypo/text.py:175-196 | outside anchor mode the offset lies within the box horizontally, and vertically for `center`, `top` and `bottom` |
| TextLayout.AnchorOffset | mpltypo/text.py:197-219 | in anchor mode, without rotation, the offset lies within the block horizontally, and vertically except for the baseline alignments |
| TextLayout.Arrange | mpltypo/text.py:133-229 | the layout fails, with `ZeroDivision`, exactly when the block has no height; otherwise the lines keep their texts, widths and heights, the last descent is kept and the box has non-negative size |
| TextLayout.ComputeLayout | mpltypo/text.py:76-229 | `_get_layout` without its cache computes `LayoutOf` |
| TextLayout.LayoutOf | mpltypo/text.py:76-229 | fails only with `ZeroDivision`; a layout has one line per newline-separated piece of the text, that piece, with no newline, and a box of non-negative size |
| TextLayout.LayoutFails | mpltypo/text.py:137-139 | the layout fails, with `ZeroDivision`, exactly when the block has no height |
| TextLayout.ArrangedLines | mpltypo/text.py:229 | the laid-out lines keep their texts, widths and heights, in order |
| TextLayout.RotationLinear | mpltypo/text.py:219-227 | the rotation is linear |
| TextLayout.ArrangedLine | mpltypo/text.py:145-227 | each laid-out line is its line, aligned, rotated and taken relative to the offset point |
| TextLayout.ArrangedBounds | mpltypo/text.py:156-224 | the box is the rotated block, relative to the offset point |
| TextLayout.BoxAlignment | mpltypo/text.py:175-196 | outside anchor mode: left, centre and right put the position at the box's left edge, centre and right edge; top, centre and bottom at its top, centre and bottom |
| TextLayout.AlignedAt | mpltypo/text.py:145-153 | an aligned line has its aligned point at the same place of the block, whatever its width |
| TextLayout.PlacedAlong | mpltypo/text.py:145-227 | the aligned point of a placed line is the block's aligned point on its baseline, rotated |
| TextLayout.MultiAligned | mpltypo/text.py:145-227 | the aligned points of lines `i` and `j` are apart by their baselines' distance, rotated |
| TextLayout.MultiAlignment | mpltypo/text.py:145-153 | the aligned points of any two lines are apart by their baselines' distance, rotated; without rotation that is a shared left edge, centre or right edge |
| TextLayout.MeasuredBlock | mpltypo/text.py:133-139 | with non-negative sizes the block lies below the first line's top, and the widths are non-negative |
| TextLayout.BlockBottom | mpltypo/text.py:137 | a non-empty block with non-negative height ends below its top |
| TextLayout.UnrotatedOffset | mpltypo/text.py:175-196 | without rotation the offset point is read off the box `[0, width] × [ymin, 0]` |
| TextLayout.BaselineAlignment | mpltypo/text.py:189-192 | without rotation, `baseline` puts the position on the last line's baseline and `first_baseline` on the first line's |
| TextLayout.BaselineArranged | mpltypo/text.py:189-227 | without rotation, outside anchor mode, `baseline` puts the last line at height 0 and `first_baseline` the first |
| TextLayout.BaselineOffset | mpltypo/text.py:189-192 | the offset is `ymin + descent` for `baseline` and `ymin + yprop·height` for `first_baseline` |
| TextLayout.UnrotatedPlace | mpltypo/text.py:227 | without rotation a line keeps its baseline, less the offset |
| TextLayout.AnchorFirstBaselineIsBottom | mpltypo/text.py:208-217 | in anchor mode `first_baseline` lays out like `bottom` |
| TextLayout.SameOffsetSameArrangement | mpltypo/text.py:208-217 | in anchor mode the `first_baseline` and `bottom` styles arrange alike |
| TypoText.PositionWrapWidthIsOffset | mpltypo/text.py:41-43 | the fixed width is `sx·linewidth` plus the display x of the origin; it is a width exactly when the origin's x is zero |
| TypoText.PositionWrapWidthCounterexample | mpltypo/text.py:41-43 | with x-axis `u ↦ u + 100`, 10 units are 10 pixels long but the width is taken as 110 |
| TypoText.DistanceWrapWidth | mpltypo/text.py:57-62 | left and right alignment take the distance on their side; centred text takes twice the shorter one |
| TypoText.SpacedText.constructor | mpltypo/text.py:14-19 | a truthy `linewidth` turns wrapping on; the text's own cache, which the model keeps per text, starts empty |
| TypoText.SpacedText.SetVerticalAlignment | mpltypo/text.py:21-33 | the six names set the alignment and mark the text stale; any other name fails and changes nothing |
| TypoText.SpacedText.WrapLineWidth | mpltypo/text.py:35-64 | a fixed width is measured as a position and leaves `stale` alone; otherwise the rotation mode becomes anchor, which marks the text stale, and the distances decide |
| TypoText.SpacedText.GetLayout | mpltypo/text.py:66-231 | the result is the layout of the current properties; a cached layout is returned unchanged, a new one is cached, and every layout in the text's own cache is its key's |
| PatchText.WrapWidthIsLength | matplotpatch/text.py:49-52 | the fixed width is `sx·linewidth`, the same under any x translation, and equal to mpltypo's value when there is none |
| PatchText.WrapWidthOnShiftedAxis | matplotpatch/text.py:49-52 | on mpltypo's counterexample the width is 10 |
| PatchText.TextPlus.constructor | matplotpatch/text.py:22-27 | a truthy `linewidth` turns wrapping on; the text's own cache, which the model keeps per text, starts empty |
| PatchText.TextPlus.SetVerticalAlignment | matplotpatch/text.py:29-41 | the six names set the alignment and mark the text stale; any other name fails and changes nothing |
| PatchText.TextPlus.WrapLineWidth | matplotpatch/text.py:43-73 | a fixed width is measured as a length and leaves `stale` alone; otherwise the rotation mode becomes anchor, which marks the text stale, and the distances decide |
| PatchText.TextPlus.GetLayout | matplotpatch/text.py:75-240 | the result is the layout of the current properties; a cached layout is returned unchanged, a new one is cached, and every layout in the text's own cache is its key's |
| PatchText.ArtistList.constructor | matplotpatch/text.py:385 | a parent starts with no artists |
| PatchText.ArtistList.AddArtist | matplotpatch/text.py:385 | `add_artist` appends one artist |
| PatchText.Prepare | matplotpatch/text.py:246-275 | the parent must be an Axes or a Figure (`BadParent`) and the flag three characters (`BadFlag`), in that order; the transform and the lines are those of the factory and the markup |
| PatchText.FlattenMembers | matplotpatch/text.py:388 | the children are exactly the pieces of the lines |
| PatchText.MaxExtentBounds | matplotpatch/text.py:350-362 | each maximum is at least 0 and at least every row's, and is 0 or one row's value |
| PatchText.Placements | matplotpatch/text.py:381-386 | one placed box per line drawn |
| PatchText.PlacementsAt | matplotpatch/text.py:381-386 | box `k` is line `n-1-k` at `start` raised by `k` increments, mapped back through the inverse |
| PatchText.DrawnStack | matplotpatch/text.py:381-386 | the last line sits at the start; each earlier line is one increment higher, at the same x |
| PatchText.YIncrementIsLineHeight | matplotpatch/text.py:341-348 | the line increment is the line height of the layout: `fontsize·linespacing·dpi/72` |
| PatchText.YIncrement | matplotpatch/text.py:341-348 | positive for a positive font size, line spacing and dpi; at 72 dpi it is `fontsize·linespacing` pixels |
| PatchText.TextMultiColor.constructor | matplotpatch/text.py:246-275 | records the arguments and the lines, with no children yet |
| PatchText.TextMultiColor.Create | matplotpatch/text.py:246-328 | fails exactly when `Prepare` does, with the same error; otherwise the fields are the arguments, the factory's transform and the markup's lines |
| PatchText.TextMultiColor.LineMaxExtent | matplotpatch/text.py:350-362 | the loop computes the running maxima `MaxExtent` over the rows |
| PatchText.TextMultiColor.Draw | matplotpatch/text.py:364-390 | stored coordinates fill in the missing ones; none gives `NoPosition`, one gives `PartialPosition`, a singular transform `Singular`; otherwise the stacked lines are appended bottom first and the children are all pieces |
| Markup.CloseFrom | matplotpatch/text.py:298 | `.*?[clo]` stops at the first closing character, unless a newline comes first |
| Markup.FindSegment | matplotpatch/text.py:298-299 | the leftmost `[opn].*?[clo]` match opens on `opn`, closes on the first `clo` and holds no newline |
| Markup.SplitSegments | matplotpatch/text.py:299 | `re.split` with a group alternates text and segments, so there is an odd number of parts |
| Markup.SplitSegmentsConcat | matplotpatch/text.py:299 | the parts concatenate to the string |
| Markup.SegmentBracketed | matplotpatch/text.py:298 | the text from `opn` to the first `clo` is a bracketed segment |
| Markup.SegmentsBracketed | matplotpatch/text.py:299 | the parts at odd positions are bracketed segments |
| Markup.MatchFrom | matplotpatch/text.py:301-307 | the non-greedy groups: the shortest first group followed by a separator and a reachable `clo` |
| Markup.MatchStyled | matplotpatch/text.py:301-309 | a match starts with `opn`, and its groups are the text between it and a separator and the text between that separator and a closing character |
| Markup.UnseparatedLiteral | matplotpatch/text.py:307-311 | a segment without the separator does not match and shows as it stands |
| Markup.SegmentParts | matplotpatch/text.py:307-309 | a bracketed segment that matches is exactly `opn + text + sep + key + clo` |
| Markup.Strip | matplotpatch/text.py:310 | no longer than the string, with no blank at either end, and empty only when the string is all blanks |
| Markup.ParseInt | matplotpatch/text.py:310 | `int()` fails only with `BadInt` |
| Markup.IntStringRoundTrip | matplotpatch/text.py:310 | `int(str(k)) == k` |
| Markup.PartStyle | matplotpatch/text.py:305-311 | a part that is not a matching segment has the base options; the only failures are `BadInt` and `MissingStyle` |
| Markup.RowStep | matplotpatch/text.py:314-320 | the lines never become empty |
| Markup.AddRows | matplotpatch/text.py:313-320 | the lines never become empty |
| Markup.LinesOf | matplotpatch/text.py:302-320 | there is at least one line, and the only failures are `BadInt` and `MissingStyle` |
| Markup.FailureStays | matplotpatch/text.py:304-311 | once a part fails, every longer run of parts fails the same way |
| Markup.LinesStep | matplotpatch/text.py:304-320 | one more part adds its rows to the lines so far, or fails on its key |
| Markup.AppendRows | matplotpatch/text.py:313-320 | the inner loop with counter `n` computes `AddRows`, and `n` stays the last line's index |
| Markup.StylePart | matplotpatch/text.py:305-311 | the shown text and options of a part, failing exactly when `PartStyle` does |
| Markup.GenerateLines | matplotpatch/text.py:292-320 | the loop over the parts computes `MarkupLines` |
| Markup.MarkupLines | matplotpatch/text.py:292-320 | there is at least one line, and the only failures are `BadInt` and `MissingStyle` |
| Markup.LineTexts | matplotpatch/text.py:319-320 | one text per line, the line's pieces joined |
| Markup.RowStepFirst | matplotpatch/text.py:319-320 | the first row of a part extends the last line's text |
| Markup.RowStepNew | matplotpatch/text.py:315-320 | a later row of a part is a new line of its own |
| Markup.AddRowsText | matplotpatch/text.py:313-320 | the rows of a part continue the text of the lines, each further row after a newline |
| Markup.LinesShowText | matplotpatch/text.py:299-320 | the lines' texts joined with newlines are the parts' shown texts, one after the other |
| Markup.LinesSingleRow | matplotpatch/text.py:313-320 | no piece holds a newline |
| Markup.MarkupRoundTrip | matplotpatch/text.py:292-320 | joining each line's pieces, and the lines with newlines, gives the string with every matching `[t:k]` replaced by `t`; there is one line more than that text has newlines |
| Markup.PlainMarkup | matplotpatch/text.py:299-320 | a string without the open character gives one line per row, each a single piece in the base style |
| Grid.Ceil | matplotpatch/figure.py:76 | the least integer not below `x` |
| Grid.Arange | matplotpatch/figure.py:76-77 | `np.arange` fails with `ZeroStep` exactly on a zero step |
| Grid.ArangeBounds | matplotpatch/figure.py:76-77 | with a positive step the values stay in `[start, stop)` and one more step would reach `stop` |
| Grid.TileLength | matplotpatch/figure.py:79 | `tile(xs, k)` has `k·|xs|` values |
| Grid.TileIndex | matplotpatch/figure.py:79 | value `i` of `tile(xs, k)` is `xs[i mod |xs|]` |
| Grid.TileAt | matplotpatch/figure.py:79 | `tile(xs, k)` has `|xs|·k` values, value `i` being `xs[i mod |xs|]` |
| Grid.RepeatLength | matplotpatch/figure.py:80 | `repeat(ys, k)` has `k·|ys|` values |
| Grid.RepeatIndex | matplotpatch/figure.py:80 | value `i` of `repeat(ys, k)` is `ys[i div k]` |
| Grid.RepeatAt | matplotpatch/figure.py:80 | `repeat(ys, k)` has `|ys|·k` values, value `i` being `ys[i div k]` |
| Grid.DotgridStyle | matplotpatch/figure.py:58-65 | the default style without any caller keyword, and the caller's keywords taking precedence over it |
| Grid.GridAxis | matplotpatch/figure.py:76-77 | fails with `ZeroStep` exactly on a zero interval |
| Grid.DotGrid | matplotpatch/figure.py:67-80 | the grid exists exactly for an invertible transform and a non-zero interval; a singular transform fails with `Singular`, otherwise a zero interval with `ZeroStep`; there are as many x as y values |
| Grid.TiledRepeated | matplotpatch/figure.py:79-80 | tile and repeat enumerate the pairs row after row |
| Grid.DotGridPoints | matplotpatch/figure.py:76-80 | the grid has `|xs|·|ys|` dots, dot `i` being `(xs[i mod |xs|], ys[i div |xs|])` |
| Grid.GridAxisValues | matplotpatch/figure.py:76-77 | with a positive interval the values are `lo + k·interval`, `k ≥ 1`, below `hi`, and `lo + (n+1)·interval ≥ hi` for `n` values, so no multiple below `hi` is missing |
| Grid.GridOfUnits | matplotpatch/figure.py:67-77 | in a system `u ↦ s·u` the values on each axis are exactly the multiples of the interval strictly inside the figure |
| Grid.MultiplesComplete | matplotpatch/figure.py:76-77 | a list of multiples in that form misses none: every `m·interval` with `m ≥ 1` below the bound is its entry `m - 1` |
| Grid.Line2D.constructor | matplotpatch/figure.py:82 | a new line holds its data and style and is visible |
| Grid.Line2D.SetVisible | matplotpatch/figure.py:90-93 | sets whether the line is drawn |
| PatchAxes.UnitAxesRect | matplotpatch/axes.py:25-36 | a rectangle in a bare unit becomes `s·l/W, s·b/H, s·w/W, s·h/H` with `s` pixels per unit; other lengths fail on the shape |
| PatchAxes.AxesRect | matplotpatch/axes.py:23-38 | without a system the rectangle is kept; with one a result has four entries and comes from four; the failures are `BadShape` and those of the system |
| PatchAxes.UnitFigureTransform | matplotpatch/axes.py:31 | a bare unit for a figure is `u ↦ s·u` from its lower-left corner |
| PatchAxes.RectSides | matplotpatch/axes.py:97-108 | lists of four and two give the four sides, duplicating two into right and top; other lists and non-lists fail with `BadRect`; no list keeps the keywords |
| PatchAxes.SizePx | matplotpatch/axes.py:123-124 | the axes size in pixels is the figure size times the extent of the position |
| PatchAxes.SizePxNonZero | matplotpatch/axes.py:123-124 | the axes size in pixels is the figure size times the position's extent, and it is non-zero |
| PatchAxes.FromOrigin | matplotpatch/axes.py:125 | a point measured from the image of the origin is only scaled |
| PatchAxes.MarginPx | matplotpatch/axes.py:117-125 | the margins in pixels are the transform's scale applied to the sides, 0 where unspecified, whatever its translation |
| PatchAxes.MarginPxScaled | matplotpatch/axes.py:117-125 | the margin pixels are the scale applied to the sides (0 where unspecified), whatever the translation |
| PatchAxes.PerScaled | matplotpatch/axes.py:126 | scaling by a size and taking the proportion of it cancel |
| PatchAxes.NewLimits | matplotpatch/axes.py:109-136 | the limits fail, as non-finite, exactly when a side is given and the axis has no data or `mLow + mHigh = 1`; with no side given the old limits stay; an unspecified side keeps its old limit |
| PatchAxes.NewLimitsFill | matplotpatch/axes.py:129-135 | the data fills exactly `1 - mLow - mHigh` of the new span, with `mLow` of it below and `mHigh` above |
| PatchAxes.MarginLimits | matplotpatch/axes.py:92-136 | `BadRect` exactly when the `rect` argument is refused; the other failures are those of the system; each axis's limits fail only as non-finite, and always when a side of an axis without data is given; with no side given both limits stay |
| PatchAxes.FreshAxesMargin | matplotpatch/axes.py:109-136 | on an axes with no x data a left margin makes the x limits fail, while the y limits stay |
| PatchAxes.NoSidesNoMargin | matplotpatch/axes.py:117-126 | with no side given the margin proportions are zero in any system |
| PatchAxes.TransAxesScale | matplotpatch/axes.py:122-124 | `transAxes` scales by the axes size in pixels |
| PatchAxes.PropOfSize | matplotpatch/axes.py:125-126 | a transform that scales by the axes size leaves the sides as proportions |
| PatchAxes.AxesMarginProp | matplotpatch/axes.py:122-126 | in the `'axes'` system margins are already fractions of the axes |
| PatchAxes.AxesSystem | matplotpatch/axes.py:122 | the `'axes'` system of an axes is its `transAxes` |
| PatchAxes.AxesMargins | matplotpatch/axes.py:92-140 | on an axes with data on both axes, with four sides in axes units the data fills the given middle fraction of each range, with the given fractions of the new limits on either side |
| PatchAxes.UnitAxesTransform | matplotpatch/axes.py:56-74 | a bare unit for an axes is `s` pixels per unit from the axes' lower-left corner |
| PatchAxes.TickLength | matplotpatch/axes.py:50-54 | an inward tick adds nothing; any other direction adds the tick's size |
| PatchAxes.YTicklabelPad | matplotpatch/axes.py:48-61 | the pad exists exactly when the factory's transform does, failing with its error; it is the horizontal pad in points less the tick length |
| PatchAxes.XTicklabelPad | matplotpatch/axes.py:66-79 | the pad exists exactly when the factory's transform does, failing with its error; it is the vertical pad in points less the tick length |
| PatchAxes.YPadPoints | matplotpatch/axes.py:57-58 | `(T(0,0) - T(pad,0))·72/dpi` is `-(sx·pad)·72/dpi`: only the horizontal scale counts |
| PatchAxes.XPadPoints | matplotpatch/axes.py:75-76 | `(T(0,0) - T(0,pad))·72/dpi` is `-(sy·pad)·72/dpi`: only the vertical scale counts |
| PatchAxes.UnitPads | matplotpatch/axes.py:48-79 | in a bare unit both pads are `pad` of that unit, negated, in points, less the tick length |
| PatchAxes.PointPads | matplotpatch/axes.py:48-79 | in points the pad is `-pad - ticklength` |
| PatchAxes.PadsOf | matplotpatch/axes.py:56-78 | the pads are the points between `T(0,0)` and `T(pad,0)` (or `T(0,pad)`) less the tick length |
| PatchAxes.PadPoints | matplotpatch/axes.py:57-76 | at `dpi/u` pixels per unit the pad is `-pad·72/u` points |
| PatchAxes.WithDefaultProjection | matplotpatch/axes.py:158-162 | `projection='axesplus'` is added only when no projection was passed |
| PatchAxes.DefaultProjectionKeeps | matplotpatch/axes.py:158-162 | a projection is always set afterwards, the caller's keywords are kept, and applying the decorator twice is applying it once |
| PatchAxes.AxesPlus.constructor | matplotpatch/axes.py:23-38 | a new `AxesPlus` holds its axes, and neither pad has been set through it yet |
| PatchAxes.AxesPlus.SetYticklabelPad | matplotpatch/axes.py:48-64 | the y pad becomes `YTicklabelPad`; a failing system changes nothing |
| PatchAxes.AxesPlus.SetXticklabelPad | matplotpatch/axes.py:66-82 | the x pad becomes `XTicklabelPad`; a failing system changes nothing |
| PatchAxes.AxesPlus.SetXlim | matplotpatch/axes.py:139 | sets the x limits and nothing else |
| PatchAxes.AxesPlus.SetYlim | matplotpatch/axes.py:140 | sets the y limits and nothing else |
| PatchAxes.AxesPlus.SetMargin | matplotpatch/axes.py:92-140 | the x limits are set, then the y limits; a failure before either changes nothing, and a failure of the y limits keeps the new x limits |
| PatchFigure.InchTransform | matplotpatch/figure.py:56-67 | the inch system of a figure is `u ↦ dpi·u` |
| PatchFigure.DotgridArtist | matplotpatch/figure.py:56-82 | a result needs no `transform` or `figure` among the caller's keywords and a non-zero interval; it has as many x as y values, the caller's keywords unchanged, plus the default style keys and `transform` |
| PatchFigure.InchDotgrid | matplotpatch/figure.py:56-82 | in inches the dots are exactly the multiples of the interval inside the figure, none missing, row after row, in the caller's style over the default one |
| PatchFigure.ScaledDotgrid | matplotpatch/figure.py:58-82 | in a system `u ↦ s·u` the dots are exactly the multiples of the interval inside the figure, none missing, and the caller's keywords are kept |
| PatchFigure.ArtistOf | matplotpatch/figure.py:58-82 | the artist is the grid in the default style, updated by the caller's keywords and the transform |
| PatchFigure.FigurePlus.constructor | matplotpatch/figure.py:22-25 | a new figure has no lines and no dot grid |
| PatchFigure.FigurePlus.Line | matplotpatch/figure.py:39-45 | a new line with the decorated keywords is appended to the lines; a failing system appends nothing |
| PatchFigure.FigurePlus.DrawDotgrid | matplotpatch/figure.py:56-84 | a new, hidden line of the grid's dots becomes the dot grid and is appended; a failure changes nothing |
| PatchFigure.FigurePlus.AddDotgrid | matplotpatch/figure.py:82-84 | the new grid is appended to the lines, becomes the dot grid and is hidden |
| PatchFigure.FigurePlus.ShowDotgrid | matplotpatch/figure.py:86-90 | an existing grid is reused and made visible; otherwise a grid is drawn first |
| PatchFigure.FigurePlus.HideDotgrid | matplotpatch/figure.py:92-93 | hides the grid; with no grid it fails with `NoDotgrid` |

## Left out

- Floating point: all arithmetic is on exact reals. A zero scale (`"0pt"`) would give non-finite values in the source; here it is the error `Degenerate`.
- Rotation is modelled as an abstract `(cos, sin)` pair, without trigonometry. The properties about alignment offsets are proved for the unrotated case.
- Glyph metrics (`get_text_width_height_descent`) are a parameter, as are the default font size of `TextMuliColor` and the renderer.
- `_preprocess_math` is taken as the identity: mathtext and TeX are not part of this model.
- TypoText.SpacedText.GetLayout and PatchText.TextPlus.GetLayout: the layout cache is kept per text here. In the source neither constructor creates `self._cached`, so it is the host library's class attribute, one dictionary of at most 50 entries shared by every text. A new text therefore need not start with an empty cache, entries can be evicted, and a text created before the patching can have stored the host library's own layout under the same key, which a patched text would then return. That every cached layout is its key's is an invariant of the model only.
- The layout cache key is the modelled text properties plus a renderer index. `get_prop_tup` itself is not modelled. The model's key also holds `malign`, which `get_prop_tup` does not, so two texts that differ only in their multi-line alignment share a key in the source but not here.
- `_get_dist_to_box` is not part of this model. The distances to the figure edge are parameters of `WrapLineWidth`.
- `plt.gcf()` is the parameter `current`.
- Import-time patching of `matplotlib.text.Text`, module reloading and projection registration are global side effects on the host library.
- `TextArea`, `HPacker`, `AnchoredOffsetbox` and `add_artist` are modelled only as records of the pieces and the anchor point appended to a list. Packing is not modelled.
- `TextMuliColor` children are flattened into one list of pieces, instead of the nested lists of the source.
- `tick_params` and the tick-label updates are left out. The pads are recorded in the `xpad`/`ypad` fields of `AxesPlus`.
- `align_ticklabels`: the tick-label strings `str(round(loc, 2))` and `set_ticklabels` are left out. Only the transform is modelled.
- `print` of the dot-grid extent, `savefig` and `Line2D` drawing are left out.
- `text_multicolor` on axes and figures is glue (construct, then draw). It is covered by `TextMultiColor.Create` and `TextMultiColor.Draw`.
- `AxesPlus.plot`, `AxesPlus.text` and `FigurePlus.text` are modelled by `DecorateCustomTransform`, the keywords they pass on.
- `FigurePlus.add_axes` and `add_subplot` are modelled by `WithDefaultProjection`.
- `inset_yticklabels` and `inset_xticklabels` are `UnitPads`/`PointPads` at pad 0. The `ha`/`va` label updates are left out.
- Canvas.Obj: every artist that is not a figure or an axes has a figure here. In the source an artist whose `figure` is `None` passes the `hasattr(object, 'figure')` test of `transform_factory` and then fails on `fig.transFigure` or inside `PointTransform`; that failure is not modelled.
- PatchAxes.AxesPlus: `xpad` and `ypad` are the pads set through `set_xticklabel_pad`/`set_yticklabel_pad`, `None` before; the axes' initial pad from the host library's settings is not modelled.
- `SetMargin`: matplotlib's expansion of equal limits inside `set_xlim` is left out, so equal new limits are kept as they are.
- `SetMargin`: an explicit NaN side is treated like `None`. Only `None` is distinguished.
- `RectSides`: a falsy rect (`None`, `[]`) keeps the keyword sides. Other falsy non-list values (`0`, `""`) fall in the same case.
- `ParseInt`: only ASCII digits are read; the blanks stripped are those of `str.isspace`, Unicode spaces included. Unicode digits and the `_` separators of `int()` are not modelled.
- `MatchUnit`: `\w` is modelled as ASCII letters, digits and `_`.
- Markup.CloseFrom: the flag characters are read literally. The source puts each one into a character class as `[\c]`, which is the literal `c` only for punctuation; for a letter or digit it is an escape instead (`d` any digit, `n` a newline, `1` chr(1), `q` an `re.error`), and that reading is not modelled.
- Markup.FindSegment: the flag characters are read literally. The source puts each one into a character class as `[\c]`, which is the literal `c` only for punctuation; for a letter or digit it is an escape instead (`d` any digit, `n` a newline, `1` chr(1), `q` an `re.error`), and that reading is not modelled.
- Markup.SplitSegments: the flag characters are read literally. The source puts each one into a character class as `[\c]`, which is the literal `c` only for punctuation; for a letter or digit it is an escape instead (`d` any digit, `n` a newline, `1` chr(1), `q` an `re.error`), and that reading is not modelled.
- Markup.MatchFrom: the flag characters are read literally. The source puts each one into a character class as `[\c]`, which is the literal `c` only for punctuation; for a letter or digit it is an escape instead (`d` any digit, `n` a newline, `1` chr(1), `q` an `re.error`), and that reading is not modelled.
- Markup.MatchStyled: the flag characters are read literally. The source puts each one into a character class as `[\c]`, which is the literal `c` only for punctuation; for a letter or digit it is an escape instead (`d` any digit, `n` a newline, `1` chr(1), `q` an `re.error`), and that reading is not modelled.
- Markup.MarkupLines: the flag characters are read literally. The source puts each one into a character class as `[\c]`, which is the literal `c` only for punctuation; for a letter or digit it is an escape instead (`d` any digit, `n` a newline, `1` chr(1), `q` an `re.error`), and that reading is not modelled.
- PatchText.Prepare: a flag of three letters or digits is accepted and then read literally by the markup, where the source would read it as regular-expression escapes or fail.
- `ParseFloat`: exponents, `inf`/`nan` and signs cannot occur after the `[0-9.]+` match, and are not modelled.
- `AxesRect` (both packages) succeeds only for four entries. numpy broadcasting of other lengths is reported as `BadShape`.
- `GetScale`: the unbound `val` when the regex does not match (`UnboundLocalError`) is the error `UnitNoMatch`.
- `Typo.Transform` and `PatchTransforms.Factory`: an empty system list leaves `transform` unbound in the source. It is the error `NoSystems`.
- `TextMultiColor.Draw`: with only one of x and y known, the source fails later inside matplotlib. Here it is the error `PartialPosition`.
- Figures with non-positive size or dpi, and axes with zero extent or equal view limits, are excluded by `Valid()` predicates, which are invariants of the host library.

## Findings

| source | as written | input that shows it | evidently intended | confidence | as-written member | corrected member |
|---|---|---|---|---|---|---|
| mpltypo/text.py:41-43 | the fixed wrap width is `T(linewidth, 0).x`, a display position | a text in data coordinates whose x axis starts 100 pixels into the display (`T = Affine(1, 100, 1, 0)`), `linewidth = 10`: the width is taken as 110 pixels instead of 10 | the pixel length of `linewidth` units, `T(linewidth, 0).x - T(0, 0).x`, as matplotpatch/text.py:49-52 computes it | not executed | TypoText.PositionWrapWidthCounterexample | PatchText.WrapWidthIsLength |

`TypoText.SpacedText.WrapLineWidth` keeps the width as written, because it models the `mpltypo` package itself. The corrected width is what `matplotpatch` computes, and `PatchText.TextPlus.WrapLineWidth` uses it.
