/** `SpacedText`, the text artist of mpltypo: a matplotlib text whose lines are a
    fixed line height apart, with a `first_baseline` vertical alignment, an
    optional fixed wrap width, and a cache of its layouts. */
module TypoText {
  import opened Base
  import opened Geometry
  import opened TextLayout

  /** Python truthiness of the `linewidth` argument: given and not zero. */
  predicate Truthy(linewidth: Option<real>)
  {
    linewidth.Some? && linewidth.value != 0.0
  }

  /** The fixed wrap width as mpltypo computes it: the display x-coordinate of the
      point `(linewidth, 0)`. */
  function PositionWrapWidth(t: Affine, linewidth: real): real
  {
    t.Apply(Point(linewidth, 0.0)).x
  }

  /** That coordinate is the width in pixels of `linewidth` units plus the display
      x-coordinate of the origin, so it measures a width only when the transform
      puts the origin at the left edge of the display. */
  lemma PositionWrapWidthIsOffset(t: Affine, linewidth: real)
    ensures PositionWrapWidth(t, linewidth) == t.sx * linewidth + t.Apply(Point(0.0, 0.0)).x
    ensures PositionWrapWidth(t, linewidth) == t.sx * linewidth <==> t.tx == 0.0
  {
  }

  /** A text in data coordinates whose x-axis starts 100 pixels into the display:
      a wrap width of 10 units, 10 pixels long, comes out as 110 pixels. */
  lemma PositionWrapWidthCounterexample()
    ensures PositionWrapWidth(Affine(1.0, 100.0, 1.0, 0.0), 10.0) == 110.0
    ensures Affine(1.0, 100.0, 1.0, 0.0).sx * 10.0 == 10.0
  {
  }

  /** The width available for wrapping without a fixed width: the distance to the
      figure edge on the side the text extends to, or twice the shorter one for a
      centred text. The distances are a parameter. */
  function DistanceWrapWidth(halign: HAlign, left: real, right: real): (w: real)
    ensures halign == Left ==> w == left
    ensures halign == Right ==> w == right
    ensures halign == Center ==> w == 2.0 * left || w == 2.0 * right
    ensures halign == Center ==> w <= 2.0 * left && w <= 2.0 * right
  {
    match halign
    case Left => left
    case Right => right
    case Center => 2.0 * Min(left, right)
  }

  class SpacedText {
    /** The properties the layout depends on. */
    var style: TextStyle
    /** The fixed wrap width, in the units of the text's transform. */
    const linewidth: Option<real>
    /** `self._transform`. */
    const transform: Affine
    /** The glyph metrics each renderer reports for the text's font. */
    const renderers: nat -> Metrics
    var wrap: bool
    var stale: bool
    /** `self._cached`: layouts by the properties and the renderer they were computed for.
        The model gives each text a cache of its own; the host library's is one bounded
        dictionary shared by every text. */
    var cache: map<(TextStyle, nat), Layout>

    /** Every layout in this text's own cache is the layout of its key. This holds of
        the per-text cache of the model, not of the shared one of the host library. */
    ghost predicate Valid()
      reads this
    {
      forall k :: k in cache ==> LayoutOf(k.0, renderers(k.1)) == Ok(cache[k])
    }

    /** A truthy `linewidth` turns wrapping on; otherwise the `wrap` argument decides. */
    constructor(style: TextStyle, wrap: bool, linewidth: Option<real>, transform: Affine, renderers: nat -> Metrics)
      ensures this.style == style && this.linewidth == linewidth && this.transform == transform
      ensures this.renderers == renderers && this.wrap == (wrap || Truthy(linewidth))
      ensures cache == map[] && stale && Valid()
    {
      this.style := style;
      this.linewidth := linewidth;
      this.transform := transform;
      this.renderers := renderers;
      this.wrap := wrap || Truthy(linewidth);
      stale := true;
      cache := map[];
    }

    /** Accepts the six alignment names and marks the text for redrawing; any other
        name fails and changes nothing. */
    method SetVerticalAlignment(align: string) returns (r: Result<()>)
      modifies this
      ensures ParseVAlign(align).None? ==> r == Err(BadAlignment) && style == old(style) && stale == old(stale)
      ensures ParseVAlign(align).Some? ==> r == Ok(()) && style == old(style).(valign := ParseVAlign(align).value) && stale
      ensures wrap == old(wrap) && cache == old(cache)
    {
      var v := ParseVAlign(align);
      if v.None? {
        return Err(BadAlignment);
      }
      style := style.(valign := v.value);
      stale := true;
      r := Ok(());
    }

    /** `_get_wrap_line_width`: with a fixed width, the display x-coordinate of
        `(linewidth, 0)`; otherwise the rotation mode becomes `'anchor'` and the
        distances to the figure edge decide. */
    method WrapLineWidth(left: real, right: real) returns (w: real)
      modifies this
      ensures linewidth.Some? ==> w == PositionWrapWidth(transform, linewidth.value) && style == old(style)
      ensures linewidth.None? ==> w == DistanceWrapWidth(old(style).halign, left, right) &&
                                  style == old(style).(anchorMode := true) && stale
      ensures linewidth.Some? ==> stale == old(stale)
      ensures wrap == old(wrap) && cache == old(cache)
    {
      if linewidth.Some? {
        return transform.Apply(Point(linewidth.value, 0.0)).x;
      }
      var alignment := style.halign;
      style := style.(anchorMode := true);
      stale := true;
      if alignment == Left {
        w := left;
      } else if alignment == Right {
        w := right;
      } else {
        w := 2.0 * Min(left, right);
      }
    }

    /** `_get_layout`: the cached layout for the current properties and renderer,
        or a new layout, which is cached. A failing layout caches nothing. */
    method GetLayout(renderer: nat) returns (r: Result<Layout>)
      requires Valid()
      modifies this
      ensures Valid()
      ensures r == LayoutOf(style, renderers(renderer))
      ensures (style, renderer) in old(cache) ==> r == Ok(old(cache)[(style, renderer)]) && cache == old(cache)
      ensures (style, renderer) !in old(cache) ==>
        cache == (if r.Ok? then old(cache)[(style, renderer) := r.value] else old(cache))
      ensures style == old(style) && wrap == old(wrap) && stale == old(stale)
    {
      var key := (style, renderer);
      if key in cache {
        return Ok(cache[key]);
      }
      r := ComputeLayout(style, renderers(renderer));
      if r.Ok? {
        cache := cache[key := r.value];
      }
    }
  }
}
