/** The dot grid both figure classes draw: the numpy sequences it is built from
    (`arange`, `tile`, `repeat`), the line artist that holds it, and the
    computation of its points from a transform and the figure box. */
module Grid {
  import opened Base
  import opened Geometry
  import opened Canvas

  /** The smallest integer not below `x`. */
  function Ceil(x: real): (n: int)
    ensures x <= n as real < x + 1.0
  {
    -((-x).Floor)
  }

  /** `np.arange(start, stop, step)`: `ceil((stop - start) / step)` values (none when
      that is not positive) `start, start + step, ...`; a zero step fails. */
  function Arange(start: real, stop: real, step: real): (r: Result<seq<real>>)
    ensures r.Err? <==> step == 0.0
    ensures r.Err? ==> r.error == ZeroStep
  {
    if step == 0.0 then Err(ZeroStep)
    else
      var n := Ceil((stop - start) / step);
      Ok(seq(if n < 0 then 0 else n, i => start + i as real * step))
  }

  /** With a positive step the values are `start + i * step`, they stay inside
      `[start, stop)`, and one more step would reach `stop`. */
  lemma {:induction false} ArangeBounds(start: real, stop: real, step: real)
    requires step > 0.0
    ensures var xs := Arange(start, stop, step).value;
      (forall i :: 0 <= i < |xs| ==> xs[i] == start + i as real * step && start <= xs[i] < stop) &&
      start + |xs| as real * step >= stop
  {
    var xs := Arange(start, stop, step).value;
    var q := (stop - start) / step;
    assert q * step == stop - start;
    forall i | 0 <= i < |xs|
      ensures start <= xs[i] < stop
    {
      assert xs[i] == start + i as real * step;
      assert i as real < q;
      BelowQuotient(i as real, q, step);
    }
    assert |xs| as real >= q;
    AboveQuotient(|xs| as real, q, step);
  }

  lemma BelowQuotient(k: real, q: real, step: real)
    requires step > 0.0 && 0.0 <= k < q
    ensures 0.0 <= k * step < q * step
  {
  }

  lemma AboveQuotient(k: real, q: real, step: real)
    requires step > 0.0 && k >= q
    ensures k * step >= q * step
  {
  }

  /** `np.tile(xs, k)`: `k` copies of `xs` one after the other. */
  function Tile(xs: seq<real>, k: nat): seq<real>
  {
    if k == 0 then [] else xs + Tile(xs, k - 1)
  }

  /** `np.repeat(ys, k)`: each value of `ys` `k` times in a row. */
  function Repeat(ys: seq<real>, k: nat): seq<real>
  {
    if ys == [] then [] else seq(k, _ => ys[0]) + Repeat(ys[1..], k)
  }

  lemma {:induction false} TileLength(xs: seq<real>, k: nat)
    ensures |Tile(xs, k)| == |xs| * k
  {
    if k > 0 {
      TileLength(xs, k - 1);
      assert |xs| * k == |xs| + |xs| * (k - 1);
    }
  }

  lemma {:induction false} TileIndex(xs: seq<real>, k: nat, i: nat)
    requires i < |xs| * k
    ensures i < |Tile(xs, k)| && Tile(xs, k)[i] == xs[i % |xs|]
  {
    TileLength(xs, k);
    assert |xs| * k == |xs| + |xs| * (k - 1);
    TileLength(xs, k - 1);
    if i < |xs| {
      DivModUnique(i, |xs|, 0, i);
    } else {
      TileIndex(xs, k - 1, i - |xs|);
      ModShift(i, |xs|);
    }
  }

  lemma TileAt(xs: seq<real>, k: nat)
    ensures |Tile(xs, k)| == |xs| * k
    ensures forall i :: 0 <= i < |xs| * k ==> Tile(xs, k)[i] == xs[i % |xs|]
  {
    TileLength(xs, k);
    forall i | 0 <= i < |xs| * k
      ensures Tile(xs, k)[i] == xs[i % |xs|]
    {
      TileIndex(xs, k, i);
    }
  }

  /** Euclidean division is determined by quotient and remainder. */
  lemma DivModUnique(x: int, n: int, a: int, b: int)
    requires n > 0 && 0 <= b < n && x == a * n + b
    ensures x / n == a && x % n == b
  {
    var q, r := x / n, x % n;
    assert x == q * n + r;
    var d := a - q;
    assert d * n == r - b;
    if d > 0 {
      assert false;
    } else if d < 0 {
      assert false;
    }
  }

  lemma ModShift(i: int, n: int)
    requires 0 < n <= i
    ensures (i - n) % n == i % n && (i - n) / n == i / n - 1
  {
    assert i == (i / n) * n + i % n;
    assert i - n == (i / n - 1) * n + i % n;
    DivModUnique(i - n, n, i / n - 1, i % n);
  }

  lemma {:induction false} RepeatLength(ys: seq<real>, k: nat)
    ensures |Repeat(ys, k)| == |ys| * k
  {
    if ys != [] {
      RepeatLength(ys[1..], k);
      assert |ys| * k == k + |ys[1..]| * k;
    }
  }

  lemma {:induction false} RepeatIndex(ys: seq<real>, k: nat, i: nat)
    requires i < |ys| * k
    ensures i < |Repeat(ys, k)| && i / k < |ys| && Repeat(ys, k)[i] == ys[i / k]
    decreases |ys|, 1
  {
    RepeatLength(ys, k);
    if i < k {
      RepeatHead(ys, k, i);
    } else {
      RepeatTail(ys, k, i);
    }
  }

  lemma RepeatHead(ys: seq<real>, k: nat, i: nat)
    requires i < k && ys != []
    ensures i < |Repeat(ys, k)| && Repeat(ys, k)[i] == ys[0] && i / k == 0
  {
    assert Repeat(ys, k) == seq(k, _ => ys[0]) + Repeat(ys[1..], k);
    DivModUnique(i, k, 0, i);
  }

  lemma {:induction false} RepeatTail(ys: seq<real>, k: nat, i: nat)
    requires k <= i < |ys| * k
    ensures i < |Repeat(ys, k)| && i / k < |ys| && Repeat(ys, k)[i] == ys[i / k]
    decreases |ys|, 0
  {
    var n := |ys| - 1;
    MulStep(|ys|, k);
    var rest := Repeat(ys[1..], k);
    assert Repeat(ys, k) == seq(k, _ => ys[0]) + rest;
    RepeatLength(ys[1..], k);
    RepeatIndex(ys[1..], k, i - k);
    ModShift(i, k);
  }

  lemma MulStep(m: nat, k: nat)
    requires m > 0
    ensures m * k == k + (m - 1) * k
  {
  }

  lemma RepeatAt(ys: seq<real>, k: nat)
    ensures |Repeat(ys, k)| == |ys| * k
    ensures forall i :: 0 <= i < |ys| * k ==> Repeat(ys, k)[i] == ys[i / k]
  {
    RepeatLength(ys, k);
    forall i | 0 <= i < |ys| * k
      ensures Repeat(ys, k)[i] == ys[i / k]
    {
      RepeatIndex(ys, k, i);
    }
  }

  /** The default style of the dot grid: light grey dots without lines, behind
      everything else; the caller's keywords take precedence. */
  function DotgridStyle(kwargs: Kwargs): (style: Kwargs)
    ensures style.Keys == kwargs.Keys + {"c", "lw", "marker", "ms", "zorder"}
    ensures forall k :: k in kwargs ==> style[k] == kwargs[k]
    ensures forall k :: k in style && k !in kwargs ==>
      style[k] == map["c" := Rgb(0.8, 0.8, 0.8), "lw" := Num(0.0), "marker" := Str("."),
                      "ms" := Num(1.0), "zorder" := Num(-1.0)][k]
  {
    map["c" := Rgb(0.8, 0.8, 0.8), "lw" := Num(0.0), "marker" := Str("."),
        "ms" := Num(1.0), "zorder" := Num(-1.0)] + kwargs
  }

  /** The grid lines along one axis: `np.arange(lo, hi, interval)[1:]`, so the
      value at the lower edge itself is dropped. */
  function GridAxis(lo: real, hi: real, interval: real): (r: Result<seq<real>>)
    ensures r.Err? <==> interval == 0.0
    ensures r.Err? ==> r.error == ZeroStep
  {
    var xs :- Arange(lo, hi, interval);
    Ok(if xs == [] then [] else xs[1..])
  }

  /** The grid values along each axis: the figure box mapped back through the
      transform gives the extent in the transform's units. */
  function GridValues(t: Affine, fig: Figure, interval: real): (seq<real>, seq<real>)
    requires t.Invertible() && interval != 0.0
  {
    var inv := Inverse(t).value;
    var lo := inv.Apply(Point(0.0, 0.0));
    var hi := inv.Apply(Point(fig.width, fig.height));
    (GridAxis(lo.x, hi.x, interval).value, GridAxis(lo.y, hi.y, interval).value)
  }

  /** The dots of the grid, `(tile(xs, |ys|), repeat(ys, |xs|))`; the inversion fails
      first on a singular transform, then `arange` on a zero interval. */
  function DotGrid(t: Affine, fig: Figure, interval: real): (r: Result<(seq<real>, seq<real>)>)
    ensures r.Ok? <==> t.Invertible() && interval != 0.0
    ensures r.Err? ==> r.error == (if t.Invertible() then ZeroStep else Singular)
    ensures r.Ok? ==> |r.value.0| == |r.value.1|
  {
    if !t.Invertible() then Err(Singular)
    else if interval == 0.0 then Err(ZeroStep)
    else
      var (xs, ys) := GridValues(t, fig, interval);
      TileLength(xs, |ys|);
      RepeatLength(ys, |xs|);
      Ok((Tile(xs, |ys|), Repeat(ys, |xs|)))
  }

  /** `lx, ly` hold one dot per pair of values of `xs` and `ys`, row after row:
      dot `i` is `(xs[i mod |xs|], ys[i div |xs|])`. */
  predicate RowMajor(lx: seq<real>, ly: seq<real>, xs: seq<real>, ys: seq<real>)
  {
    |lx| == |xs| * |ys| && |ly| == |ys| * |xs| &&
    (forall i :: 0 <= i < |xs| * |ys| ==> lx[i] == xs[i % |xs|]) &&
    (forall i :: 0 <= i < |ys| * |xs| ==> ly[i] == ys[i / |xs|])
  }

  lemma TiledRepeated(xs: seq<real>, ys: seq<real>)
    ensures RowMajor(Tile(xs, |ys|), Repeat(ys, |xs|), xs, ys)
  {
    TileAt(xs, |ys|);
    RepeatAt(ys, |xs|);
  }

  /** The dots of the grid enumerate the pairs of grid values row after row. */
  lemma DotGridPoints(t: Affine, fig: Figure, interval: real)
    requires t.Invertible() && interval != 0.0
    ensures RowMajor(DotGrid(t, fig, interval).value.0, DotGrid(t, fig, interval).value.1,
                     GridValues(t, fig, interval).0, GridValues(t, fig, interval).1)
  {
    TiledRepeated(GridValues(t, fig, interval).0, GridValues(t, fig, interval).1);
  }

  /** With a positive interval the grid values along an axis are `lo + k * interval`
      for `k = 1, 2, ...` while they stay below `hi`, and none is missing: the
      next multiple after the last one reaches `hi`. */
  lemma GridAxisValues(lo: real, hi: real, interval: real)
    requires interval > 0.0
    ensures var xs := GridAxis(lo, hi, interval).value;
      (forall k :: 0 <= k < |xs| ==> xs[k] == lo + (k + 1) as real * interval && lo < xs[k] < hi) &&
      lo + (|xs| + 1) as real * interval >= hi
  {
    var all := Arange(lo, hi, interval).value;
    ArangeBounds(lo, hi, interval);
    var xs := GridAxis(lo, hi, interval).value;
    forall k | 0 <= k < |xs|
      ensures xs[k] == lo + (k + 1) as real * interval && lo < xs[k] < hi
    {
      assert xs[k] == all[k + 1];
      assert (k + 1) as real * interval > 0.0;
    }
    if all == [] {
      assert lo + (|xs| + 1) as real * interval >= lo + 0 as real * interval;
    }
  }

  /** `xs` lists the multiples `k * interval`, `k = 1, 2, ...`, in order, each below
      `bound`, and the next multiple after its last one is not below `bound`. */
  predicate InsideMultiples(xs: seq<real>, interval: real, bound: real)
  {
    (forall k :: 0 <= k < |xs| ==> xs[k] == (k + 1) as real * interval && 0.0 < xs[k] < bound) &&
    (|xs| + 1) as real * interval >= bound
  }

  /** Such a list misses no multiple: every `m * interval` with `m >= 1` below
      `bound` is its entry `m - 1`. */
  lemma MultiplesComplete(xs: seq<real>, interval: real, bound: real, m: nat)
    requires interval > 0.0 && InsideMultiples(xs, interval, bound)
    requires m >= 1 && m as real * interval < bound
    ensures m - 1 < |xs| && xs[m - 1] == m as real * interval
  {
    if m > |xs| {
      AboveQuotient(m as real, (|xs| + 1) as real, interval);
      assert false;
    }
  }

  /** In a unit system anchored at the figure's lower-left corner (`u |-> s*u`) with a
      positive interval, the grid values are the multiples `k * interval`, `k >= 1`,
      that fall inside the figure: each value is one, and the next multiple after
      the last value is outside. */
  lemma GridOfUnits(s: real, fig: Figure, interval: real)
    requires s > 0.0 && interval > 0.0
    ensures var (xs, ys) := GridValues(Affine(s, 0.0, s, 0.0), fig, interval);
      InsideMultiples(xs, interval, fig.width / s) && InsideMultiples(ys, interval, fig.height / s)
  {
    var t := Affine(s, 0.0, s, 0.0);
    var inv := Inverse(t).value;
    assert inv.Apply(Point(0.0, 0.0)) == Point(0.0, 0.0);
    assert inv.Apply(Point(fig.width, fig.height)) == Point(fig.width / s, fig.height / s);
    GridAxisValues(0.0, fig.width / s, interval);
    GridAxisValues(0.0, fig.height / s, interval);
  }

  /** A `Line2D` artist: its data, its style keywords (the transform among them),
      and whether it is drawn. */
  class Line2D {
    const xs: seq<real>
    const ys: seq<real>
    const style: Kwargs
    var visible: bool

    constructor(xs: seq<real>, ys: seq<real>, style: Kwargs)
      ensures this.xs == xs && this.ys == ys && this.style == style && visible
    {
      this.xs := xs;
      this.ys := ys;
      this.style := style;
      visible := true;
    }

    method SetVisible(b: bool)
      modifies this
      ensures visible == b
    {
      visible := b;
    }
  }
}
