/** The text layout both packages' text classes compute (`_get_layout`): the
    lines of a text are stacked with baselines a fixed line height apart, the
    block is aligned line by line, rotated, and moved so that the requested point
    of the block sits at the text's position. The renderer's glyph metrics are a
    parameter. */
module TextLayout {
  import opened Base
  import opened Geometry

  /** Width, height and descent of a rendered string, in pixels. */
  datatype Extent = Extent(w: real, h: real, d: real)

  /** What `renderer.get_text_width_height_descent` reports for each string in the
      text's font. */
  type Metrics = string -> Extent

  datatype HAlign = Left | Center | Right

  datatype VAlign = Top | Bottom | Middle | Baseline | CenterBaseline | FirstBaseline

  /** The names `set_verticalalignment` accepts; `'center'` is `Middle`. */
  function VAlignName(v: VAlign): string
  {
    match v
    case Top => "top"
    case Bottom => "bottom"
    case Middle => "center"
    case Baseline => "baseline"
    case CenterBaseline => "center_baseline"
    case FirstBaseline => "first_baseline"
  }

  /** The check of `set_verticalalignment`: one of six names, or nothing. */
  function ParseVAlign(s: string): (r: Option<VAlign>)
    ensures r.Some? <==> s in ["top", "bottom", "center", "baseline", "center_baseline", "first_baseline"]
  {
    if s == "top" then Some(Top)
    else if s == "bottom" then Some(Bottom)
    else if s == "center" then Some(Middle)
    else if s == "baseline" then Some(Baseline)
    else if s == "center_baseline" then Some(CenterBaseline)
    else if s == "first_baseline" then Some(FirstBaseline)
    else None
  }

  /** The accepted names and the alignments correspond one to one. */
  lemma VAlignNames(v: VAlign, s: string)
    ensures ParseVAlign(VAlignName(v)) == Some(v)
    ensures ParseVAlign(s).Some? ==> VAlignName(ParseVAlign(s).value) == s
  {
  }

  /** `Affine2D().rotate_deg(angle)` with `c`, `s` the cosine and sine of the angle. */
  datatype Rotation = Rotation(c: real, s: real) {
    function Apply(p: Point): Point { Point(c * p.x - s * p.y, s * p.x + c * p.y) }
  }

  const NoRotation := Rotation(1.0, 0.0)

  /** A rotation by a zero angle: every point stays where it is. */
  ghost predicate Unrotated(r: Rotation)
  {
    forall p: Point {:trigger r.Apply(p)} :: r.Apply(p) == p
  }

  lemma UnrotatedIsNoRotation(r: Rotation)
    ensures Unrotated(r) <==> r == NoRotation
  {
    if Unrotated(r) {
      assert r.Apply(Point(1.0, 0.0)) == Point(1.0, 0.0);
    }
  }

  /** The properties of a text that its layout depends on: `malign` is the
      multi-line alignment (`multialignment`, or the horizontal alignment when that
      is unset) and `anchorMode` is rotation mode `'anchor'`. The model keys its
      layout cache on this whole style, so its key also holds `malign`, which
      matplotlib's `get_prop_tup` leaves out. */
  datatype TextStyle = TextStyle(text: string, fontsize: real, linespacing: real, dpi: real,
                                 rotation: Rotation, halign: HAlign, malign: HAlign,
                                 valign: VAlign, anchorMode: bool)

  /** `Bbox.from_bounds(x0, y0, width, height)`. */
  datatype Bounds = Bounds(x0: real, y0: real, width: real, height: real)

  /** One line of the layout: its text, size, and position relative to the text's position. */
  datatype LineLayout = LineLayout(text: string, w: real, h: real, x: real, y: real)

  /** What `_get_layout` returns: the bounding box, the lines, and the last line's descent. */
  datatype Layout = Layout(bbox: Bounds, lines: seq<LineLayout>, descent: real)

  function Max(a: real, b: real): real { if a >= b then a else b }
  function Min(a: real, b: real): real { if a <= b then a else b }

  /** Python's `max` of a non-empty list. */
  function MaxOf(s: seq<real>): (m: real)
    requires |s| >= 1
    ensures forall i :: 0 <= i < |s| ==> s[i] <= m
    ensures exists i :: 0 <= i < |s| && s[i] == m
  {
    if |s| == 1 then s[0]
    else
      var rest := MaxOf(s[1..]);
      assert forall i :: 1 <= i < |s| ==> s[i] == s[1..][i - 1];
      Max(s[0], rest)
  }

  // ---------------------------------------------------------------------------
  // The lines

  /** The metrics of one line: an empty line measures nothing, and height and
      descent are never less than those of `"lp"`, the full height of the font. */
  function LineExtent(metrics: Metrics, line: string): (e: Extent)
    ensures e.w == (if line == [] then 0.0 else metrics(line).w)
    ensures e.h >= metrics("lp").h && e.d >= metrics("lp").d
    ensures line != [] ==> e.h >= metrics(line).h && e.d >= metrics(line).d
    ensures e.h == metrics("lp").h || e.h == (if line == [] then 0.0 else metrics(line).h)
    ensures e.d == metrics("lp").d || e.d == (if line == [] then 0.0 else metrics(line).d)
  {
    var m := if line == [] then Extent(0.0, 0.0, 0.0) else metrics(line);
    var lp := metrics("lp");
    Extent(m.w, Max(m.h, lp.h), Max(m.d, lp.d))
  }

  function Extents(metrics: Metrics, lines: seq<string>): (es: seq<Extent>)
    ensures |es| == |lines|
    ensures forall i :: 0 <= i < |lines| ==> es[i] == LineExtent(metrics, lines[i])
  {
    seq(|lines|, i requires 0 <= i < |lines| => LineExtent(metrics, lines[i]))
  }

  /** The distance of consecutive baselines: the font size in pixels times the line spacing. */
  function LineHeight(st: TextStyle): real
  {
    (1.0 / 72.0 * st.dpi * st.fontsize) * st.linespacing
  }

  /** `n` line heights, one after the other (that is, `n * lh`: `AdvanceIsProduct`). */
  function Advance(n: nat, lh: real): real
  {
    if n == 0 then 0.0 else Advance(n - 1, lh) + lh
  }

  lemma {:induction false} AdvanceIsProduct(n: nat, lh: real)
    ensures Advance(n, lh) == n as real * lh
    ensures lh >= 0.0 ==> Advance(n, lh) >= 0.0
  {
    if n > 0 {
      AdvanceIsProduct(n - 1, lh);
      assert n as real * lh == (n - 1) as real * lh + lh;
    }
  }

  /** The baseline of line `i`, measured from the top of the block: the first line's
      ascent `h - d` down, then one line height per line, corrected by how far
      this line's descent exceeds the first's. */
  function BaselineY(es: seq<Extent>, i: nat, lh: real): real
    requires i < |es|
  {
    es[i].d - es[0].h - Advance(i, lh)
  }

  /** The `baseline` variable after line `i`: the line's ascent above the point where
      the previous line ended. */
  function BaselineAfter(es: seq<Extent>, i: nat, lh: real): real
    requires i < |es|
  {
    if i == 0 then es[0].h - es[0].d
    else (es[i].h - es[i].d) + es[0].h + Advance(i - 1, lh)
  }

  /** The height of a block of lines: the first line's full height and one line
      height for each further line. */
  function BlockHeight(es: seq<Extent>, lh: real): real
    requires |es| >= 1
  {
    es[0].h + Advance(|es| - 1, lh)
  }

  /** The first baseline sits one ascent below the top, each later baseline sits
      one line height plus the change in descent below the one before (with equal
      descents, exactly the line height), and the last descent ends the block. */
  lemma BaselineSpacing(es: seq<Extent>, i: nat, lh: real)
    requires 0 < i < |es|
    ensures BaselineY(es, 0, lh) == -(es[0].h - es[0].d)
    ensures BaselineY(es, i - 1, lh) - BaselineY(es, i, lh) == lh + es[i - 1].d - es[i].d
    ensures es[i - 1].d == es[i].d ==> BaselineY(es, i - 1, lh) - BaselineY(es, i, lh) == lh
    ensures BaselineY(es, |es| - 1, lh) - es[|es| - 1].d == -BlockHeight(es, lh)
  {
  }

  /** The lines as the loop of `_get_layout` leaves them: widths, heights, baselines,
      the last line's descent, and the `baseline` variable. */
  datatype Measure = Measure(ws: seq<real>, hs: seq<real>, ys: seq<real>, descent: real, baseline: real)

  function Measured(metrics: Metrics, lines: seq<string>, lh: real): (m: Measure)
    requires |lines| >= 1
    ensures |m.ws| == |lines| && |m.hs| == |lines| && |m.ys| == |lines|
  {
    var es := Extents(metrics, lines);
    var n := |lines|;
    Measure(seq(n, i requires 0 <= i < n => es[i].w), seq(n, i requires 0 <= i < n => es[i].h),
            seq(n, i requires 0 <= i < n => BaselineY(es, i, lh)), es[n - 1].d, BaselineAfter(es, n - 1, lh))
  }

  /** Where the loop's `thisy` stands before line `i`: at the top before the first
      line, then the previous line's descent below its baseline. */
  function LineStart(es: seq<Extent>, i: nat, lh: real): real
    requires i <= |es|
  {
    if i == 0 then 0.0 else -es[0].h - Advance(i - 1, lh)
  }

  /** One pass of the loop: the baseline of line `i`, the `baseline` variable after
      it, and where the next line starts. */
  lemma BaselineStep(es: seq<Extent>, i: nat, lh: real)
    requires i < |es|
    ensures var thisy := LineStart(es, i, lh);
      var y := if i == 0 then -(es[i].h - es[i].d) else thisy - (lh - es[i].d);
      y == BaselineY(es, i, lh) && (es[i].h - es[i].d) - thisy == BaselineAfter(es, i, lh) &&
      y - es[i].d == LineStart(es, i + 1, lh)
  {
  }

  /** The loop of `_get_layout` over the lines. */
  method MeasureLines(metrics: Metrics, lines: seq<string>, lh: real) returns (m: Measure)
    requires |lines| >= 1
    ensures m == Measured(metrics, lines, lh)
  {
    ghost var es := Extents(metrics, lines);
    ghost var spec := Measured(metrics, lines, lh);
    var thisy := 0.0;
    var d := 0.0;
    var ws, hs, ys, baseline := [], [], [], 0.0;
    var i := 0;
    while i < |lines|
      invariant 0 <= i <= |lines|
      invariant ws == spec.ws[..i] && hs == spec.hs[..i] && ys == spec.ys[..i]
      invariant thisy == LineStart(es, i, lh)
      invariant i > 0 ==> d == es[i - 1].d && baseline == BaselineAfter(es, i - 1, lh)
    {
      var e := LineExtent(metrics, lines[i]);
      assert e == es[i];
      BaselineStep(es, i, lh);
      var h := e.h;
      d := e.d;
      ws := ws + [e.w];
      hs := hs + [h];
      baseline := (h - d) - thisy;
      if i == 0 {
        thisy := -(h - d);
      } else {
        thisy := thisy - (lh - d);
      }
      ys := ys + [thisy];
      thisy := thisy - d;
      assert spec.ws[..i + 1] == spec.ws[..i] + [spec.ws[i]];
      assert spec.hs[..i + 1] == spec.hs[..i] + [spec.hs[i]];
      assert spec.ys[..i + 1] == spec.ys[..i] + [spec.ys[i]];
      i := i + 1;
    }
    m := Measure(ws, hs, ys, d, baseline);
    assert spec.ws[..i] == spec.ws && spec.hs[..i] == spec.hs && spec.ys[..i] == spec.ys;
  }

  // ---------------------------------------------------------------------------
  // The block

  /** The x offset of a line of width `w` in a block of width `width`. */
  function AlignedX(malign: HAlign, width: real, w: real): real
  {
    match malign
    case Left => 0.0
    case Center => 0.0 + width / 2.0 - w / 2.0
    case Right => 0.0 + width - w
  }

  /** The bounds of a rotated box. */
  datatype Box = Box(xmin: real, xmax: real, ymin: real, ymax: real)

  function Min4(a: real, b: real, c: real, d: real): (m: real)
    ensures m <= a && m <= b && m <= c && m <= d && m in {a, b, c, d}
  {
    Min(Min(a, b), Min(c, d))
  }

  function Max4(a: real, b: real, c: real, d: real): (m: real)
    ensures m >= a && m >= b && m >= c && m >= d && m in {a, b, c, d}
  {
    Max(Max(a, b), Max(c, d))
  }

  /** The bounds of the block `[0, width] x [ymin, 0]` after rotation: the smallest
      box that holds its four rotated corners. */
  function RotatedBox(rot: Rotation, width: real, ymin: real): (b: Box)
    ensures b.xmin <= b.xmax && b.ymin <= b.ymax
    ensures var c0, c1, c2, c3 := rot.Apply(Point(0.0, ymin)), rot.Apply(Point(0.0, 0.0)),
                                  rot.Apply(Point(width, 0.0)), rot.Apply(Point(width, ymin));
      (b.xmin <= c0.x <= b.xmax && b.ymin <= c0.y <= b.ymax) &&
      (b.xmin <= c1.x <= b.xmax && b.ymin <= c1.y <= b.ymax) &&
      (b.xmin <= c2.x <= b.xmax && b.ymin <= c2.y <= b.ymax) &&
      (b.xmin <= c3.x <= b.xmax && b.ymin <= c3.y <= b.ymax) &&
      b.xmin in {c0.x, c1.x, c2.x, c3.x} && b.xmax in {c0.x, c1.x, c2.x, c3.x} &&
      b.ymin in {c0.y, c1.y, c2.y, c3.y} && b.ymax in {c0.y, c1.y, c2.y, c3.y}
  {
    var c0, c1, c2, c3 := rot.Apply(Point(0.0, ymin)), rot.Apply(Point(0.0, 0.0)),
                          rot.Apply(Point(width, 0.0)), rot.Apply(Point(width, ymin));
    Box(Min4(c0.x, c1.x, c2.x, c3.x), Max4(c0.x, c1.x, c2.x, c3.x),
        Min4(c0.y, c1.y, c2.y, c3.y), Max4(c0.y, c1.y, c2.y, c3.y))
  }

  /** Without rotation the block keeps its bounds. */
  lemma UnrotatedBox(rot: Rotation, width: real, ymin: real)
    requires Unrotated(rot) && width >= 0.0 && ymin <= 0.0
    ensures RotatedBox(rot, width, ymin) == Box(0.0, width, ymin, 0.0)
  {
    assert rot.Apply(Point(0.0, ymin)) == Point(0.0, ymin);
    assert rot.Apply(Point(0.0, 0.0)) == Point(0.0, 0.0);
    assert rot.Apply(Point(width, 0.0)) == Point(width, 0.0);
    assert rot.Apply(Point(width, ymin)) == Point(width, ymin);
    assert Min4(0.0, 0.0, width, width) == 0.0;
    assert Max4(0.0, 0.0, width, width) == width;
    assert Min4(ymin, 0.0, 0.0, ymin) == ymin;
    assert Max4(ymin, 0.0, 0.0, ymin) == 0.0;
  }

  /** The point of the block that is put at the text's position, in the default
      rotation mode: read off the rotated bounds. */
  function BoxOffset(st: TextStyle, b: Box, descent: real, yprop: real, baseline: real): (p: Point)
    ensures b.xmin <= b.xmax ==> b.xmin <= p.x <= b.xmax
    ensures b.ymin <= b.ymax && st.valign in {Middle, Top, Bottom} ==> b.ymin <= p.y <= b.ymax
  {
    var height := b.ymax - b.ymin;
    var x := match st.halign
      case Center => (b.xmin + b.xmax) / 2.0
      case Right => b.xmax
      case Left => b.xmin;
    var y := match st.valign
      case Middle => (b.ymin + b.ymax) / 2.0
      case Top => b.ymax
      case Baseline => b.ymin + descent
      case FirstBaseline => b.ymin + yprop * height
      case CenterBaseline => b.ymin + height - baseline / 2.0
      case Bottom => b.ymin;
    Point(x, y)
  }

  /** The point of the block that is put at the text's position in rotation mode
      `'anchor'`: read off the unrotated block, then rotated. There is no
      first-baseline case in this mode. */
  function AnchorOffset(st: TextStyle, width: real, ymin: real, baseline: real): (p: Point)
    ensures st.rotation == NoRotation && 0.0 <= width && ymin <= 0.0 ==>
      0.0 <= p.x <= width && (st.valign !in {Baseline, CenterBaseline} ==> ymin <= p.y <= 0.0)
  {
    var x := match st.halign
      case Center => (0.0 + width) / 2.0
      case Right => width
      case Left => 0.0;
    var y := match st.valign
      case Middle => (ymin + 0.0) / 2.0
      case Top => 0.0
      case Baseline => 0.0 - baseline
      case CenterBaseline => 0.0 - baseline / 2.0
      case Bottom => ymin
      case FirstBaseline => ymin;
    FixedByNoRotation(st.rotation, Point(x, y));
    st.rotation.Apply(Point(x, y))
  }

  lemma FixedByNoRotation(r: Rotation, q: Point)
    ensures r == NoRotation ==> r.Apply(q) == q
  {
  }

  /** The point of the block that is put at the text's position. */
  function Offset(st: TextStyle, width: real, ymin: real, descent: real, baseline: real, yprop: real): Point
  {
    if !st.anchorMode then BoxOffset(st, RotatedBox(st.rotation, width, ymin), descent, yprop, baseline)
    else AnchorOffset(st, width, ymin, baseline)
  }

  /** A line of width `w` on the baseline `y`, aligned in the block, rotated, and
      placed relative to the offset point. */
  function Place(st: TextStyle, width: real, off: Point, line: string, w: real, h: real, y: real): LineLayout
  {
    var p := Sub(st.rotation.Apply(Point(AlignedX(st.malign, width, w), y)), off);
    LineLayout(line, w, h, p.x, p.y)
  }

  function BoundsAt(b: Box, off: Point): Bounds
  {
    Bounds(b.xmin - off.x, b.ymin - off.y, b.xmax - b.xmin, b.ymax - b.ymin)
  }

  /** Everything `_get_layout` does after measuring the lines. The block's height is
      a divisor (of the first baseline's share of it), so a block without height fails. */
  function Arrange(st: TextStyle, lines: seq<string>, m: Measure): (r: Result<Layout>)
    requires |lines| >= 1 && |m.ws| == |lines| && |m.hs| == |lines| && |m.ys| == |lines|
    ensures r.Err? <==> m.ys[|lines| - 1] - m.descent == 0.0
    ensures r.Err? ==> r.error == ZeroDivision
    ensures r.Ok? ==> |r.value.lines| == |lines| && r.value.descent == m.descent &&
                      r.value.bbox.width >= 0.0 && r.value.bbox.height >= 0.0
    ensures r.Ok? ==> forall i :: 0 <= i < |lines| ==>
      r.value.lines[i].text == lines[i] && r.value.lines[i].w == m.ws[i] && r.value.lines[i].h == m.hs[i]
  {
    var n := |lines|;
    var width := MaxOf(m.ws);
    var ymin := m.ys[n - 1] - m.descent;
    var height := 0.0 - ymin;
    if height == 0.0 then Err(ZeroDivision)
    else
      var off := Offset(st, width, ymin, m.descent, m.baseline, (m.ys[0] - ymin) / height);
      Ok(Layout(BoundsAt(RotatedBox(st.rotation, width, ymin), off),
                seq(n, i requires 0 <= i < n => Place(st, width, off, lines[i], m.ws[i], m.hs[i], m.ys[i])),
                m.descent))
  }

  /** The layout of the given lines of a text. */
  function LayoutOfLines(st: TextStyle, lines: seq<string>, metrics: Metrics): Result<Layout>
    requires |lines| >= 1
  {
    Arrange(st, lines, Measured(metrics, lines, LineHeight(st)))
  }

  /** The layout of a text: `text.split("\n")` measured line by line, then arranged. */
  function LayoutOf(st: TextStyle, metrics: Metrics): (r: Result<Layout>)
    ensures r.Err? ==> r.error == ZeroDivision
    ensures r.Ok? ==> |r.value.lines| == |Split(st.text, '\n')| &&
                      r.value.bbox.width >= 0.0 && r.value.bbox.height >= 0.0
    ensures r.Ok? ==> forall i :: 0 <= i < |r.value.lines| ==>
      r.value.lines[i].text == Split(st.text, '\n')[i] && '\n' !in r.value.lines[i].text
  {
    LayoutOfLines(st, Split(st.text, '\n'), metrics)
  }

  /** `_get_layout` without its cache. */
  method ComputeLayout(st: TextStyle, metrics: Metrics) returns (r: Result<Layout>)
    ensures r == LayoutOf(st, metrics)
  {
    var lines := Split(st.text, '\n');
    var m := MeasureLines(metrics, lines, LineHeight(st));
    r := Arrange(st, lines, m);
  }

  // ---------------------------------------------------------------------------
  // What the layout promises

  /** The layout fails exactly when the block of lines has no height, on the division. */
  lemma LayoutFails(st: TextStyle, lines: seq<string>, metrics: Metrics)
    requires |lines| >= 1
    ensures LayoutOfLines(st, lines, metrics).Err? <==> BlockHeight(Extents(metrics, lines), LineHeight(st)) == 0.0
    ensures LayoutOfLines(st, lines, metrics).Err? ==> LayoutOfLines(st, lines, metrics).error == ZeroDivision
  {
    var es := Extents(metrics, lines);
    var n := |lines|;
    var lh := LineHeight(st);
    var m := Measured(metrics, lines, lh);
    assert m.ys[n - 1] - m.descent == BaselineY(es, n - 1, lh) - es[n - 1].d;
    if n > 1 {
      BaselineSpacing(es, n - 1, lh);
    }
  }

  /** The arranged lines keep their texts, widths and heights, in order. */
  lemma ArrangedLines(st: TextStyle, lines: seq<string>, m: Measure)
    requires |lines| >= 1 && |m.ws| == |lines| && |m.hs| == |lines| && |m.ys| == |lines|
    requires Arrange(st, lines, m).Ok?
    ensures var l := Arrange(st, lines, m).value;
      |l.lines| == |lines| && l.descent == m.descent &&
      forall i :: 0 <= i < |lines| ==> l.lines[i].text == lines[i] && l.lines[i].w == m.ws[i] && l.lines[i].h == m.hs[i]
  {
  }

  /** A rotation is linear. */
  lemma RotationLinear(r: Rotation, p: Point, q: Point)
    ensures Sub(r.Apply(p), r.Apply(q)) == r.Apply(Sub(p, q))
    ensures Add(r.Apply(p), r.Apply(q)) == r.Apply(Add(p, q))
  {
    assert r.c * p.x - r.s * p.y - (r.c * q.x - r.s * q.y) == r.c * (p.x - q.x) - r.s * (p.y - q.y);
    assert r.s * p.x + r.c * p.y - (r.s * q.x + r.c * q.y) == r.s * (p.x - q.x) + r.c * (p.y - q.y);
    assert r.c * p.x - r.s * p.y + (r.c * q.x - r.s * q.y) == r.c * (p.x + q.x) - r.s * (p.y + q.y);
    assert r.s * p.x + r.c * p.y + (r.s * q.x + r.c * q.y) == r.s * (p.x + q.x) + r.c * (p.y + q.y);
  }

  /** The block's width, its lower edge, and the offset point of an arrangement. */
  predicate ArrangedBy(st: TextStyle, lines: seq<string>, m: Measure, width: real, ymin: real, off: Point)
    requires |lines| >= 1 && |m.ws| == |lines| && |m.hs| == |lines| && |m.ys| == |lines|
  {
    width == MaxOf(m.ws) && ymin == m.ys[|lines| - 1] - m.descent && ymin != 0.0 &&
    off == Offset(st, width, ymin, m.descent, m.baseline, (m.ys[0] - ymin) / (0.0 - ymin))
  }

  /** Each arranged line is its own line, aligned, rotated and placed relative to
      the offset point. */
  lemma ArrangedLine(st: TextStyle, lines: seq<string>, m: Measure, width: real, ymin: real, off: Point, i: nat)
    requires |lines| >= 1 && |m.ws| == |lines| && |m.hs| == |lines| && |m.ys| == |lines|
    requires ArrangedBy(st, lines, m, width, ymin, off) && i < |lines|
    ensures Arrange(st, lines, m).Ok? && i < |Arrange(st, lines, m).value.lines|
    ensures Arrange(st, lines, m).value.lines[i] == Place(st, width, off, lines[i], m.ws[i], m.hs[i], m.ys[i])
  {
  }

  /** The arranged box is the rotated block, relative to the offset point. */
  lemma ArrangedBounds(st: TextStyle, lines: seq<string>, m: Measure, width: real, ymin: real, off: Point)
    requires |lines| >= 1 && |m.ws| == |lines| && |m.hs| == |lines| && |m.ys| == |lines|
    requires ArrangedBy(st, lines, m, width, ymin, off)
    ensures Arrange(st, lines, m).Ok?
    ensures Arrange(st, lines, m).value.bbox == BoundsAt(RotatedBox(st.rotation, width, ymin), off)
  {
  }

  /** Where the text's position falls on the rotated box in the default rotation
      mode: horizontally at its left edge, centre or right edge, vertically at its
      top, centre or bottom. */
  lemma BoxAlignment(st: TextStyle, lines: seq<string>, metrics: Metrics)
    requires |lines| >= 1 && !st.anchorMode
    requires BlockHeight(Extents(metrics, lines), LineHeight(st)) != 0.0
    ensures LayoutOfLines(st, lines, metrics).Ok?
    ensures var b := LayoutOfLines(st, lines, metrics).value.bbox;
      (st.halign == Left ==> b.x0 == 0.0) &&
      (st.halign == Center ==> b.x0 + b.width / 2.0 == 0.0) &&
      (st.halign == Right ==> b.x0 + b.width == 0.0) &&
      (st.valign == Top ==> b.y0 + b.height == 0.0) &&
      (st.valign == Middle ==> b.y0 + b.height / 2.0 == 0.0) &&
      (st.valign == Bottom ==> b.y0 == 0.0)
  {
    LayoutFails(st, lines, metrics);
    var m := Measured(metrics, lines, LineHeight(st));
    var width, ymin := MaxOf(m.ws), m.ys[|lines| - 1] - m.descent;
    var yprop := (m.ys[0] - ymin) / (0.0 - ymin);
    var off := Offset(st, width, ymin, m.descent, m.baseline, yprop);
    ArrangedBounds(st, lines, m, width, ymin, off);
    assert off == BoxOffset(st, RotatedBox(st.rotation, width, ymin), m.descent, yprop, m.baseline);
  }

  /** How far along its width a line is aligned: its left end, centre or right end. */
  function AlignedShare(malign: HAlign): real
  {
    match malign
    case Left => 0.0
    case Center => 0.5
    case Right => 1.0
  }

  /** The point of a laid-out line at the given share of its width, along the rotated
      baseline. */
  function PointAlong(l: LineLayout, r: Rotation, share: real): Point
  {
    Add(Point(l.x, l.y), r.Apply(Point(share * l.w, 0.0)))
  }

  /** Aligning a line puts its aligned point at the same place of the block, whatever its width. */
  lemma AlignedAt(malign: HAlign, width: real, w: real)
    ensures AlignedX(malign, width, w) + AlignedShare(malign) * w == AlignedShare(malign) * width
  {
  }

  /** The aligned point of a placed line: the block's aligned point on the line's
      baseline, rotated, relative to the offset point. */
  lemma PlacedAlong(st: TextStyle, width: real, off: Point, line: string, w: real, h: real, y: real)
    ensures PointAlong(Place(st, width, off, line, w, h, y), st.rotation, AlignedShare(st.malign)) ==
            Sub(st.rotation.Apply(Point(AlignedShare(st.malign) * width, y)), off)
  {
    var r, a := st.rotation, AlignedShare(st.malign);
    var p := Point(AlignedX(st.malign, width, w), y);
    var q := Point(a * w, 0.0);
    RotationLinear(r, p, q);
    AlignedAt(st.malign, width, w);
    assert Add(p, q) == Point(a * width, y);
  }

  /** `multialignment`: the aligned points of the lines (left ends, centres or right
      ends) all lie on one line across the baselines, so any two of them are apart
      by the distance of their baselines, rotated. Without rotation that is a shared
      left edge, centre or right edge. */
  lemma MultiAlignment(st: TextStyle, lines: seq<string>, metrics: Metrics, i: nat, j: nat)
    requires |lines| >= 1 && i < |lines| && j < |lines|
    requires BlockHeight(Extents(metrics, lines), LineHeight(st)) != 0.0
    ensures LayoutOfLines(st, lines, metrics).Ok?
    ensures var l := LayoutOfLines(st, lines, metrics).value.lines;
      var es, lh := Extents(metrics, lines), LineHeight(st);
      |l| == |lines| &&
      Sub(PointAlong(l[i], st.rotation, AlignedShare(st.malign)), PointAlong(l[j], st.rotation, AlignedShare(st.malign))) ==
      st.rotation.Apply(Point(0.0, BaselineY(es, i, lh) - BaselineY(es, j, lh)))
  {
    LayoutFails(st, lines, metrics);
    var m := Measured(metrics, lines, LineHeight(st));
    MultiAligned(st, lines, m, i, j);
  }

  lemma MultiAligned(st: TextStyle, lines: seq<string>, m: Measure, i: nat, j: nat)
    requires |lines| >= 1 && |m.ws| == |lines| && |m.hs| == |lines| && |m.ys| == |lines|
    requires i < |lines| && j < |lines| && m.ys[|lines| - 1] - m.descent != 0.0
    ensures Arrange(st, lines, m).Ok?
    ensures var l := Arrange(st, lines, m).value.lines;
      |l| == |lines| &&
      Sub(PointAlong(l[i], st.rotation, AlignedShare(st.malign)), PointAlong(l[j], st.rotation, AlignedShare(st.malign))) ==
      st.rotation.Apply(Point(0.0, m.ys[i] - m.ys[j]))
  {
    var width, ymin := MaxOf(m.ws), m.ys[|lines| - 1] - m.descent;
    var off := Offset(st, width, ymin, m.descent, m.baseline, (m.ys[0] - ymin) / (0.0 - ymin));
    ArrangedLine(st, lines, m, width, ymin, off, i);
    ArrangedLine(st, lines, m, width, ymin, off, j);
    PlacedAlong(st, width, off, lines[i], m.ws[i], m.hs[i], m.ys[i]);
    PlacedAlong(st, width, off, lines[j], m.ws[j], m.hs[j], m.ys[j]);
    var a := AlignedShare(st.malign) * width;
    var p, q := Point(a, m.ys[i]), Point(a, m.ys[j]);
    RotationLinear(st.rotation, p, q);
    var pa, qa := st.rotation.Apply(p), st.rotation.Apply(q);
    assert Sub(Sub(pa, off), Sub(qa, off)) == Sub(pa, qa);
    assert Sub(p, q) == Point(0.0, m.ys[i] - m.ys[j]);
  }

  /** Non-negative widths, line height and font height, as a renderer and a font give. */
  ghost predicate NonNegative(st: TextStyle, metrics: Metrics)
  {
    LineHeight(st) >= 0.0 && metrics("lp").h >= 0.0 &&
    forall s :: metrics(s).w >= 0.0
  }

  /** With non-negative sizes, a block with height lies below the first line's top and
      its lines have non-negative widths. */
  lemma MeasuredBlock(st: TextStyle, lines: seq<string>, metrics: Metrics)
    requires |lines| >= 1 && NonNegative(st, metrics)
    requires BlockHeight(Extents(metrics, lines), LineHeight(st)) != 0.0
    ensures var m := Measured(metrics, lines, LineHeight(st));
      MaxOf(m.ws) >= 0.0 && m.ys[|lines| - 1] - m.descent < 0.0
  {
    var es := Extents(metrics, lines);
    var n := |lines|;
    var lh := LineHeight(st);
    var m := Measured(metrics, lines, lh);
    assert m.ws[0] == es[0].w >= 0.0;
    assert es[0].h >= metrics("lp").h >= 0.0;
    assert m.ys[n - 1] - m.descent == BaselineY(es, n - 1, lh) - es[n - 1].d;
    BlockBottom(es, lh);
  }

  /** A block of non-negative height that is not empty ends below its top. */
  lemma BlockBottom(es: seq<Extent>, lh: real)
    requires |es| >= 1 && es[0].h >= 0.0 && lh >= 0.0 && BlockHeight(es, lh) != 0.0
    ensures BaselineY(es, |es| - 1, lh) - es[|es| - 1].d < 0.0
  {
    var n := |es|;
    AdvanceIsProduct(n - 1, lh);
    if n > 1 {
      BaselineSpacing(es, n - 1, lh);
    }
  }

  /** Without rotation the offset point is read off the box `[0, width] x [ymin, 0]`. */
  lemma UnrotatedOffset(st: TextStyle, width: real, ymin: real, descent: real, baseline: real, yprop: real)
    requires Unrotated(st.rotation) && !st.anchorMode && width >= 0.0 && ymin <= 0.0
    ensures Offset(st, width, ymin, descent, baseline, yprop) == BoxOffset(st, Box(0.0, width, ymin, 0.0), descent, yprop, baseline)
  {
    UnrotatedBox(st.rotation, width, ymin);
  }

  /** Without rotation and in the default rotation mode, the baseline alignments put
      the text's position on the last line's baseline or on the first line's. */
  lemma BaselineAlignment(st: TextStyle, lines: seq<string>, metrics: Metrics)
    requires |lines| >= 1 && Unrotated(st.rotation) && !st.anchorMode && NonNegative(st, metrics)
    requires BlockHeight(Extents(metrics, lines), LineHeight(st)) != 0.0
    ensures LayoutOfLines(st, lines, metrics).Ok?
    ensures var l := LayoutOfLines(st, lines, metrics).value.lines;
      |l| == |lines| &&
      (st.valign == Baseline ==> l[|lines| - 1].y == 0.0) &&
      (st.valign == FirstBaseline ==> l[0].y == 0.0)
  {
    MeasuredBlock(st, lines, metrics);
    BaselineArranged(st, lines, Measured(metrics, lines, LineHeight(st)));
  }

  lemma BaselineArranged(st: TextStyle, lines: seq<string>, m: Measure)
    requires |lines| >= 1 && |m.ws| == |lines| && |m.hs| == |lines| && |m.ys| == |lines|
    requires Unrotated(st.rotation) && !st.anchorMode
    requires MaxOf(m.ws) >= 0.0 && m.ys[|lines| - 1] - m.descent < 0.0
    ensures Arrange(st, lines, m).Ok?
    ensures var l := Arrange(st, lines, m).value.lines;
      |l| == |lines| &&
      (st.valign == Baseline ==> l[|lines| - 1].y == 0.0) &&
      (st.valign == FirstBaseline ==> l[0].y == 0.0)
  {
    var n := |lines|;
    var width, ymin := MaxOf(m.ws), m.ys[n - 1] - m.descent;
    var yprop := (m.ys[0] - ymin) / (0.0 - ymin);
    var off := Offset(st, width, ymin, m.descent, m.baseline, yprop);
    ArrangedLine(st, lines, m, width, ymin, off, 0);
    ArrangedLine(st, lines, m, width, ymin, off, n - 1);
    var l := Arrange(st, lines, m).value.lines;
    assert l[0].y == m.ys[0] - off.y by {
      UnrotatedPlace(st, width, off, lines[0], m.ws[0], m.hs[0], m.ys[0]);
    }
    assert l[n - 1].y == m.ys[n - 1] - off.y by {
      UnrotatedPlace(st, width, off, lines[n - 1], m.ws[n - 1], m.hs[n - 1], m.ys[n - 1]);
    }
    BaselineOffset(st, width, ymin, m.descent, m.baseline, yprop);
    if st.valign == FirstBaseline {
      ShareOfHeight(m.ys[0] - ymin, 0.0 - ymin);
    }
  }

  lemma BaselineOffset(st: TextStyle, width: real, ymin: real, descent: real, baseline: real, yprop: real)
    requires Unrotated(st.rotation) && !st.anchorMode && width >= 0.0 && ymin <= 0.0
    ensures st.valign == Baseline ==> Offset(st, width, ymin, descent, baseline, yprop).y == ymin + descent
    ensures st.valign == FirstBaseline ==> Offset(st, width, ymin, descent, baseline, yprop).y == ymin + yprop * (0.0 - ymin)
  {
    UnrotatedOffset(st, width, ymin, descent, baseline, yprop);
  }

  lemma UnrotatedPlace(st: TextStyle, width: real, off: Point, line: string, w: real, h: real, y: real)
    requires Unrotated(st.rotation)
    ensures Place(st, width, off, line, w, h, y).y == y - off.y
  {
    assert st.rotation.Apply(Point(AlignedX(st.malign, width, w), y)) == Point(AlignedX(st.malign, width, w), y);
  }

  lemma ShareOfHeight(a: real, h: real)
    requires h != 0.0
    ensures a / h * h == a
  {
  }

  /** In rotation mode `'anchor'` the first-baseline alignment is the bottom alignment. */
  lemma AnchorFirstBaselineIsBottom(st: TextStyle, lines: seq<string>, metrics: Metrics)
    requires |lines| >= 1 && st.anchorMode && st.valign == FirstBaseline
    ensures LayoutOfLines(st, lines, metrics) == LayoutOfLines(st.(valign := Bottom), lines, metrics)
  {
    var bottom := st.(valign := Bottom);
    assert LineHeight(bottom) == LineHeight(st);
    var m := Measured(metrics, lines, LineHeight(st));
    SameOffsetSameArrangement(st, bottom, lines, m);
  }

  /** Two styles that differ only in how the offset point is chosen, and agree on it,
      arrange the lines alike. */
  lemma SameOffsetSameArrangement(st: TextStyle, other: TextStyle, lines: seq<string>, m: Measure)
    requires |lines| >= 1 && |m.ws| == |lines| && |m.hs| == |lines| && |m.ys| == |lines|
    requires other == st.(valign := other.valign) && st.anchorMode
    requires st.valign == FirstBaseline && other.valign == Bottom
    ensures Arrange(st, lines, m) == Arrange(other, lines, m)
  {
    var n := |lines|;
    var width, ymin := MaxOf(m.ws), m.ys[n - 1] - m.descent;
    if ymin != 0.0 {
      var yprop := (m.ys[0] - ymin) / (0.0 - ymin);
      var off := Offset(st, width, ymin, m.descent, m.baseline, yprop);
      assert off == Offset(other, width, ymin, m.descent, m.baseline, yprop);
      var a, b := Arrange(st, lines, m).value, Arrange(other, lines, m).value;
      assert |a.lines| == |b.lines|;
      forall i | 0 <= i < n
        ensures a.lines[i] == b.lines[i]
      {
        ArrangedLine(st, lines, m, width, ymin, off, i);
        ArrangedLine(other, lines, m, width, ymin, off, i);
      }
      assert a.lines == b.lines;
    }
  }
}
