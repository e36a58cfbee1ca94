/** The text artists of matplotpatch: `TextPlus`, the line-spaced text with a fixed
    wrap width measured as a distance, and `TextMuliColor`, a multi-colour text made
    of marked-up lines, drawn bottom-up one line height apart. */
module PatchText {
  import opened Base
  import opened Geometry
  import opened Canvas
  import opened PatchTransforms
  import opened TextLayout
  import opened TypoText
  import opened Markup

  /** The fixed wrap width as matplotpatch computes it: the display distance between
      the points `(linewidth, 0)` and `(0, 0)`. */
  function WrapWidth(t: Affine, linewidth: real): real
  {
    t.Apply(Point(linewidth, 0.0)).x - t.Apply(Point(0.0, 0.0)).x
  }

  /** It is the pixel length of `linewidth` units, wherever the transform puts the
      origin; where that is the left edge of the display it agrees with the position
      mpltypo takes. */
  lemma WrapWidthIsLength(t: Affine, linewidth: real, shift: real)
    ensures WrapWidth(t, linewidth) == t.sx * linewidth
    ensures WrapWidth(t.(tx := shift), linewidth) == WrapWidth(t, linewidth)
    ensures t.tx == 0.0 ==> WrapWidth(t, linewidth) == PositionWrapWidth(t, linewidth)
  {
    PositionWrapWidthIsOffset(t, linewidth);
  }

  /** The text of mpltypo's counterexample: 10 units are 10 pixels wide. */
  lemma WrapWidthOnShiftedAxis()
    ensures WrapWidth(Affine(1.0, 100.0, 1.0, 0.0), 10.0) == 10.0
  {
    WrapWidthIsLength(Affine(1.0, 100.0, 1.0, 0.0), 10.0, 0.0);
  }

  class TextPlus {
    /** The properties the layout depends on. */
    var style: TextStyle
    /** The fixed wrap width, in the units of the text's transform. */
    const linewidth: Option<real>
    /** `self._transform`. */
    const transform: Affine
    /** The glyph metrics each renderer reports for the text's font. */
    const renderers: nat -> Metrics
    var wrap: bool
    var stale: bool
    /** `self._cached`: layouts by the properties and the renderer they were computed for.
        The model gives each text a cache of its own; the host library's is one bounded
        dictionary shared by every text. */
    var cache: map<(TextStyle, nat), Layout>

    /** Every layout in this text's own cache is the layout of its key. This holds of
        the per-text cache of the model, not of the shared one of the host library. */
    ghost predicate Valid()
      reads this
    {
      forall k :: k in cache ==> LayoutOf(k.0, renderers(k.1)) == Ok(cache[k])
    }

    /** A truthy `linewidth` turns wrapping on; otherwise the `wrap` argument decides. */
    constructor(style: TextStyle, wrap: bool, linewidth: Option<real>, transform: Affine, renderers: nat -> Metrics)
      ensures this.style == style && this.linewidth == linewidth && this.transform == transform
      ensures this.renderers == renderers && this.wrap == (wrap || Truthy(linewidth))
      ensures cache == map[] && stale && Valid()
    {
      this.style := style;
      this.linewidth := linewidth;
      this.transform := transform;
      this.renderers := renderers;
      this.wrap := wrap || Truthy(linewidth);
      stale := true;
      cache := map[];
    }

    /** Accepts the six alignment names and marks the text for redrawing; any other
        name fails and changes nothing. */
    method SetVerticalAlignment(align: string) returns (r: Result<()>)
      modifies this
      ensures ParseVAlign(align).None? ==> r == Err(BadAlignment) && style == old(style) && stale == old(stale)
      ensures ParseVAlign(align).Some? ==> r == Ok(()) && style == old(style).(valign := ParseVAlign(align).value) && stale
      ensures wrap == old(wrap) && cache == old(cache)
    {
      var v := ParseVAlign(align);
      if v.None? {
        return Err(BadAlignment);
      }
      style := style.(valign := v.value);
      stale := true;
      r := Ok(());
    }

    /** `_get_wrap_line_width`: with a fixed width, its length in pixels; otherwise
        the rotation mode becomes `'anchor'` and the distances to the figure edge
        decide. */
    method WrapLineWidth(left: real, right: real) returns (w: real)
      modifies this
      ensures linewidth.Some? ==> w == transform.sx * linewidth.value && style == old(style)
      ensures linewidth.None? ==> w == DistanceWrapWidth(old(style).halign, left, right) &&
                                  style == old(style).(anchorMode := true) && stale
      ensures linewidth.Some? ==> stale == old(stale)
      ensures wrap == old(wrap) && cache == old(cache)
    {
      if linewidth.Some? {
        var p0 := transform.Apply(Point(linewidth.value, 0.0));
        var p1 := transform.Apply(Point(0.0, 0.0));
        WrapWidthIsLength(transform, linewidth.value, 0.0);
        return p0.x - p1.x;
      }
      var alignment := style.halign;
      style := style.(anchorMode := true);
      stale := true;
      if alignment == Left {
        w := left;
      } else if alignment == Right {
        w := right;
      } else {
        w := 2.0 * Min(left, right);
      }
    }

    /** `_get_layout`: the cached layout for the current properties and renderer,
        or a new layout, which is cached. A failing layout caches nothing. */
    method GetLayout(renderer: nat) returns (r: Result<Layout>)
      requires Valid()
      modifies this
      ensures Valid()
      ensures r == LayoutOf(style, renderers(renderer))
      ensures (style, renderer) in old(cache) ==> r == Ok(old(cache)[(style, renderer)]) && cache == old(cache)
      ensures (style, renderer) !in old(cache) ==>
        cache == (if r.Ok? then old(cache)[(style, renderer) := r.value] else old(cache))
      ensures style == old(style) && wrap == old(wrap) && stale == old(stale)
    {
      var key := (style, renderer);
      if key in cache {
        return Ok(cache[key]);
      }
      r := ComputeLayout(style, renderers(renderer));
      if r.Ok? {
        cache := cache[key := r.value];
      }
    }
  }

  // ---------------------------------------------------------------------------
  // Multi-colour text

  /** An `AnchoredOffsetbox` in the parent: a packed line whose lower-left corner is
      at `at`, in the coordinates of `transform`. */
  datatype AnchoredLine = AnchoredLine(line: seq<Piece>, at: Point, transform: Affine)

  /** The artists of the parent, which drawing adds to. */
  class ArtistList {
    var artists: seq<AnchoredLine>

    constructor()
      ensures artists == []
    {
      artists := [];
    }

    method AddArtist(a: AnchoredLine)
      modifies this
      ensures artists == old(artists) + [a]
    {
      artists := artists + [a];
    }
  }

  /** The constructor's checks and computations, in the order the source makes them:
      the parent must be an Axes or a Figure, the flag three characters, the
      transform is `transform_factory(parent, system, anchor)`, and the lines are the
      marked-up string's. */
  function Prepare(parent: Option<Obj>, flag: string, text: string, base: Kwargs, highlight: Highlight,
                   system: Systems, anchor: string, current: Figure): (r: Result<(Figure, Affine, seq<seq<Piece>>)>)
    requires current.Valid() && (parent.Some? ==> parent.value.Valid())
    ensures parent.None? || !(parent.value.AxesObj? || parent.value.FigureObj?) ==> r == Err(BadParent)
    ensures parent.Some? && (parent.value.AxesObj? || parent.value.FigureObj?) && |flag| != 3 ==> r == Err(BadFlag)
    ensures r.Ok? ==> |flag| == 3 && parent.Some?
    ensures r.Ok? ==> Factory(parent, current, system, anchor) == Ok(r.value.1)
    ensures r.Ok? ==> MarkupLines(text, Flag(flag[0], flag[1], flag[2]), base, highlight) == Ok(r.value.2)
    ensures r.Ok? ==> r.value.0 == (if parent.value.AxesObj? then parent.value.ax.figure else parent.value.fig)
  {
    if parent.None? || !(parent.value.AxesObj? || parent.value.FigureObj?) then Err(BadParent)
    else if |flag| != 3 then Err(BadFlag)
    else
      var fig := if parent.value.AxesObj? then parent.value.ax.figure else parent.value.fig;
      var t :- Factory(parent, current, system, anchor);
      var lines :- MarkupLines(text, Flag(flag[0], flag[1], flag[2]), base, highlight);
      Ok((fig, t, lines))
  }

  /** The pieces of every line, one after the other. */
  function Flatten(lines: seq<seq<Piece>>): seq<Piece>
  {
    if lines == [] then [] else Flatten(lines[..|lines| - 1]) + lines[|lines| - 1]
  }

  /** The children are exactly the pieces of the lines. */
  lemma {:induction false} FlattenMembers(lines: seq<seq<Piece>>, p: Piece)
    ensures p in Flatten(lines) <==> exists i :: 0 <= i < |lines| && p in lines[i]
    decreases |lines|
  {
    if lines != [] {
      var init := lines[..|lines| - 1];
      FlattenMembers(init, p);
      if p in Flatten(lines) && p !in lines[|lines| - 1] {
        var i :| 0 <= i < |init| && p in init[i];
        assert lines[i] == init[i];
      }
      if !(p in Flatten(init)) && p !in lines[|lines| - 1] {
        forall i | 0 <= i < |lines|
          ensures p !in lines[i]
        {
          if i < |init| {
            assert lines[i] == init[i];
          }
        }
      }
    }
  }

  /** The running maximum of each measurement over the rows of a string, from 0. */
  function MaxExtent(metrics: Metrics, rows: seq<string>): Extent
  {
    if rows == [] then Extent(0.0, 0.0, 0.0)
    else
      var e := MaxExtent(metrics, rows[..|rows| - 1]);
      var m := metrics(rows[|rows| - 1]);
      Extent(Max(e.w, m.w), Max(e.h, m.h), Max(e.d, m.d))
  }

  /** Each measurement is at least 0 and at least that of every row, and it is 0 or
      the measurement of one of the rows. */
  lemma {:induction false} MaxExtentBounds(metrics: Metrics, rows: seq<string>)
    ensures var e := MaxExtent(metrics, rows);
      e.w >= 0.0 && e.h >= 0.0 && e.d >= 0.0 &&
      (forall i :: 0 <= i < |rows| ==> metrics(rows[i]).w <= e.w && metrics(rows[i]).h <= e.h && metrics(rows[i]).d <= e.d) &&
      (e.w == 0.0 || exists i :: 0 <= i < |rows| && e.w == metrics(rows[i]).w) &&
      (e.h == 0.0 || exists i :: 0 <= i < |rows| && e.h == metrics(rows[i]).h) &&
      (e.d == 0.0 || exists i :: 0 <= i < |rows| && e.d == metrics(rows[i]).d)
    decreases |rows|
  {
    if rows != [] {
      var init := rows[..|rows| - 1];
      MaxExtentBounds(metrics, init);
      var e := MaxExtent(metrics, init);
      var last := |rows| - 1;
      forall i | 0 <= i < last
        ensures rows[i] == init[i]
      {
      }
      if e.w != 0.0 && e.w >= metrics(rows[last]).w {
        var i :| 0 <= i < |init| && e.w == metrics(init[i]).w;
        assert rows[i] == init[i];
      }
      if e.h != 0.0 && e.h >= metrics(rows[last]).h {
        var i :| 0 <= i < |init| && e.h == metrics(init[i]).h;
        assert rows[i] == init[i];
      }
      if e.d != 0.0 && e.d >= metrics(rows[last]).d {
        var i :| 0 <= i < |init| && e.d == metrics(init[i]).d;
        assert rows[i] == init[i];
      }
    }
  }

  /** The boxes placed by drawing, bottom line first: the line `n - 1 - j` goes at the
      point whose display coordinates are `start` raised by `j` increments. */
  function Placements(lines: seq<seq<Piece>>, t: Affine, start: Point, incr: real, j: nat): (r: seq<AnchoredLine>)
    requires t.Invertible() && j <= |lines|
    ensures |r| == j
  {
    if j == 0 then []
    else
      var at := Inverse(t).value.Apply(Point(start.x, start.y + Advance(j - 1, incr)));
      Placements(lines, t, start, incr, j - 1) + [AnchoredLine(lines[|lines| - j], at, t)]
  }

  lemma {:induction false} PlacementsAt(lines: seq<seq<Piece>>, t: Affine, start: Point, incr: real, j: nat, k: nat)
    requires t.Invertible() && j <= |lines| && k < j
    ensures Placements(lines, t, start, incr, j)[k] ==
      AnchoredLine(lines[|lines| - 1 - k], Inverse(t).value.Apply(Point(start.x, start.y + Advance(k, incr))), t)
    decreases j
  {
    if k < j - 1 {
      PlacementsAt(lines, t, start, incr, j - 1, k);
    }
  }

  /** Drawing stacks the lines from the bottom: in display coordinates the last line is
      at `start`, and every line is one increment below the line before it, all at the
      same x. */
  lemma DrawnStack(lines: seq<seq<Piece>>, t: Affine, start: Point, incr: real, k: nat)
    requires t.Invertible() && k < |lines|
    ensures var placed := Placements(lines, t, start, incr, |lines|);
      placed[k].line == lines[|lines| - 1 - k] &&
      t.Apply(placed[k].at) == Point(start.x, start.y + k as real * incr)
    ensures var placed := Placements(lines, t, start, incr, |lines|);
      k >= 1 ==> t.Apply(placed[k].at).y - t.Apply(placed[k - 1].at).y == incr &&
                 t.Apply(placed[k].at).x == t.Apply(placed[k - 1].at).x
  {
    PlacementsAt(lines, t, start, incr, |lines|, k);
    InverseApply(t, Point(start.x, start.y + Advance(k, incr)));
    AdvanceIsProduct(k, incr);
    if k >= 1 {
      PlacementsAt(lines, t, start, incr, |lines|, k - 1);
      InverseApply(t, Point(start.x, start.y + Advance(k - 1, incr)));
    }
  }

  /** `_get_y_increment`: the line spacing of the default font in pixels. */
  function YIncrement(fontsize: real, linespacing: real, dpi: real): (y: real)
    ensures fontsize > 0.0 && linespacing > 0.0 && dpi > 0.0 ==> y > 0.0
    ensures dpi == 72.0 ==> y == fontsize * linespacing
  {
    (fontsize * linespacing) * (dpi / 72.0)
  }

  /** It is the line height `SpacedText` lays its lines out with. */
  lemma YIncrementIsLineHeight(st: TextStyle)
    ensures YIncrement(st.fontsize, st.linespacing, st.dpi) == LineHeight(st)
  {
    assert (1.0 / 72.0 * st.dpi * st.fontsize) == st.fontsize * (st.dpi / 72.0);
  }

  class TextMultiColor {
    const parent: Obj
    const figure: Figure
    const text: string
    const flag: Flag
    const x: Option<real>
    const y: Option<real>
    const linespacing: real
    const base: Kwargs
    const highlight: Highlight
    const transform: Affine
    /** The size of the default font, the one `base` gives. */
    const fontsize: real
    /** The renderer's glyph metrics for the default font. */
    const metrics: Metrics
    /** The artists of the parent. */
    const artists: ArtistList
    /** `self.boxes`: one packed line per line of the markup. */
    var boxes: seq<seq<Piece>>
    /** `self.children`, set by drawing. */
    var children: Option<seq<Piece>>

    constructor(parent: Obj, figure: Figure, text: string, flag: Flag, x: Option<real>, y: Option<real>,
                linespacing: real, base: Kwargs, highlight: Highlight, transform: Affine,
                fontsize: real, metrics: Metrics, artists: ArtistList, boxes: seq<seq<Piece>>)
      ensures this.parent == parent && this.figure == figure && this.text == text && this.flag == flag
      ensures this.x == x && this.y == y && this.linespacing == linespacing && this.base == base
      ensures this.highlight == highlight && this.transform == transform && this.fontsize == fontsize
      ensures this.metrics == metrics && this.artists == artists && this.boxes == boxes && children.None?
    {
      this.parent := parent;
      this.figure := figure;
      this.text := text;
      this.flag := flag;
      this.x := x;
      this.y := y;
      this.linespacing := linespacing;
      this.base := base;
      this.highlight := highlight;
      this.transform := transform;
      this.fontsize := fontsize;
      this.metrics := metrics;
      this.artists := artists;
      this.boxes := boxes;
      children := None;
    }

    /** `TextMuliColor(...)`: the checks of `Prepare`, then the transform and the lines
        of the markup; the renderer's metrics and the default font size are given. */
    static method Create(x: Option<real>, y: Option<real>, text: string, flag: string, highlight: Highlight,
                         linespacing: real, parent: Option<Obj>, system: Systems, anchor: string, base: Kwargs,
                         current: Figure, fontsize: real, metrics: Metrics, artists: ArtistList)
      returns (r: Result<TextMultiColor>)
      requires current.Valid() && (parent.Some? ==> parent.value.Valid())
      ensures r.Err? <==> Prepare(parent, flag, text, base, highlight, system, anchor, current).Err?
      ensures r.Err? ==> r.error == Prepare(parent, flag, text, base, highlight, system, anchor, current).error
      ensures r.Ok? ==> fresh(r.value)
      ensures r.Ok? ==>
        (var (fig, t, lines) := Prepare(parent, flag, text, base, highlight, system, anchor, current).value;
         r.value.parent == parent.value && r.value.figure == fig && r.value.transform == t &&
         r.value.boxes == lines && r.value.flag == Flag(flag[0], flag[1], flag[2]) &&
         r.value.text == text && r.value.x == x && r.value.y == y && r.value.base == base &&
         r.value.highlight == highlight && r.value.linespacing == linespacing &&
         r.value.fontsize == fontsize && r.value.metrics == metrics &&
         r.value.artists == artists && r.value.children.None?)
    {
      if parent.None? || !(parent.value.AxesObj? || parent.value.FigureObj?) {
        return Err(BadParent);
      }
      var fig := if parent.value.AxesObj? then parent.value.ax.figure else parent.value.fig;
      if |flag| != 3 {
        return Err(BadFlag);
      }
      var f := Flag(flag[0], flag[1], flag[2]);
      var t := TransformFactory(parent, current, system, anchor);
      if t.Err? {
        return Err(t.error);
      }
      var lines := GenerateLines(text, f, base, highlight);
      if lines.Err? {
        return Err(lines.error);
      }
      assert Prepare(parent, flag, text, base, highlight, system, anchor, current) == Ok((fig, t.value, lines.value));
      var m := new TextMultiColor(parent.value, fig, text, f, x, y, linespacing, base, highlight,
                                  t.value, fontsize, metrics, artists, lines.value);
      r := Ok(m);
    }

    /** `_get_line_max_extent`: the running maximum of the default font's measurements
        over the rows of the string. */
    method LineMaxExtent() returns (e: Extent)
      ensures e == MaxExtent(metrics, Split(text, '\n'))
    {
      var rows := Split(text, '\n');
      var width, height, descent := 0.0, 0.0, 0.0;
      var i := 0;
      while i < |rows|
        invariant 0 <= i <= |rows|
        invariant Extent(width, height, descent) == MaxExtent(metrics, rows[..i])
      {
        assert rows[..i + 1][..i] == rows[..i];
        var m := metrics(rows[i]);
        width := Max(width, m.w);
        height := Max(height, m.h);
        descent := Max(descent, m.d);
        i := i + 1;
      }
      assert rows[..|rows|] == rows;
      e := Extent(width, height, descent);
    }

    /** `_get_xy_px`: the display position of `(x, y)`, lowered by the descent of `"lp"`. */
    function StartPx(px: real, py: real): Point
      reads this
    {
      Sub(transform.Apply(Point(px, py)), Point(0.0, metrics("lp").d))
    }

    /** The boxes one call of `draw` adds to the parent. */
    function Drawn(px: real, py: real): seq<AnchoredLine>
      reads this
      requires transform.Invertible()
    {
      Placements(boxes, transform, StartPx(px, py), YIncrement(fontsize, linespacing, figure.dpi), |boxes|)
    }

    /** `draw`: the missing coordinates default to the stored ones; with none at all,
        or only one, it fails, and so does a transform without an inverse. Otherwise
        every line is added to the parent, bottom line first, one increment higher each
        time, and the children are the pieces of all lines. */
    method Draw(xArg: Option<real>, yArg: Option<real>) returns (r: Result<seq<Piece>>)
      modifies this, artists
      ensures var px := if xArg.Some? then xArg else x;
        var py := if yArg.Some? then yArg else y;
        (px.None? && py.None? ==> r == Err(NoPosition)) &&
        (px.Some? != py.Some? ==> r == Err(PartialPosition)) &&
        (px.Some? && py.Some? && !transform.Invertible() ==> r == Err(Singular)) &&
        (r.Err? ==> artists.artists == old(artists.artists) && children == old(children)) &&
        (r.Ok? ==> px.Some? && py.Some? && transform.Invertible() &&
                   artists.artists == old(artists.artists) + Drawn(px.value, py.value) &&
                   children == Some(Flatten(boxes)) && r.value == Flatten(boxes))
      ensures boxes == old(boxes)
    {
      var px := if xArg.Some? then xArg else x;
      var py := if yArg.Some? then yArg else y;
      if px.None? && py.None? {
        return Err(NoPosition);
      }
      if px.None? || py.None? {
        return Err(PartialPosition);
      }
      if !transform.Invertible() {
        return Err(Singular);
      }
      var inv := Inverse(transform).value;
      var start := StartPx(px.value, py.value);
      var incr := YIncrement(fontsize, linespacing, figure.dpi);
      var xy := start;
      ghost var before := artists.artists;
      var j := 0;
      while j < |boxes|
        modifies artists
        invariant 0 <= j <= |boxes|
        invariant xy == Point(start.x, start.y + Advance(j, incr))
        invariant artists.artists == before + Placements(boxes, transform, start, incr, j)
      {
        var at := inv.Apply(xy);
        artists.AddArtist(AnchoredLine(boxes[|boxes| - 1 - j], at, transform));
        xy := Point(xy.x, xy.y + incr);
        j := j + 1;
      }
      children := Some(Flatten(boxes));
      r := Ok(Flatten(boxes));
    }
  }
}
