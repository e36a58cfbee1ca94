/** The anchored unit coordinate systems of `matplotpatch/transforms.py`.

    A unit string such as `"12pt"` or `"0.5in"` names a length; `PointTransform`
    builds the coordinate system in which one unit is that length and the origin
    sits on a corner (the anchor) of a figure or an axes. `transform_factory`
    turns one or two system names into a transform, blending an x system with a
    y system when it is given two. */
module PatchTransforms {
  import opened Base
  import opened Geometry
  import opened Canvas

  // ---------------------------------------------------------------------------
  // The unit string: `re.match("([0-9.]+)(\w+)", string)` and `float()`

  predicate IsDigit(c: char) { '0' <= c <= '9' }

  /** The class `[0-9.]`. */
  predicate IsNumChar(c: char) { IsDigit(c) || c == '.' }

  /** The class `\w`, restricted to ASCII. */
  predicate IsWordChar(c: char) { IsDigit(c) || 'a' <= c <= 'z' || 'A' <= c <= 'Z' || c == '_' }

  /** The first `i` characters of `s` are all in `[0-9.]`. */
  predicate NumPrefix(s: string, i: nat)
  {
    i <= |s| && forall k :: 0 <= k < i ==> IsNumChar(s[k])
  }

  /** The characters `s[i..j]` are all in `\w`. */
  predicate WordSpan(s: string, i: nat, j: nat)
  {
    i <= j <= |s| && forall k :: i <= k < j ==> IsWordChar(s[k])
  }

  /** The first group of the pattern can end at `i`: a non-empty `[0-9.]` prefix
      followed by a `\w` character. */
  predicate GroupEnd(s: string, i: nat)
  {
    1 <= i < |s| && NumPrefix(s, i) && IsWordChar(s[i])
  }

  /** The length of the run of `[0-9.]` characters that starts at `i`. */
  function NumRun(s: string, i: nat): (n: nat)
    requires i <= |s|
    ensures i + n <= |s|
    ensures forall k :: i <= k < i + n ==> IsNumChar(s[k])
    ensures i + n < |s| ==> !IsNumChar(s[i + n])
    decreases |s| - i
  {
    if i < |s| && IsNumChar(s[i]) then 1 + NumRun(s, i + 1) else 0
  }

  /** The length of the run of `\w` characters that starts at `i`. */
  function WordRun(s: string, i: nat): (n: nat)
    requires i <= |s|
    ensures WordSpan(s, i, i + n)
    ensures i + n < |s| ==> !IsWordChar(s[i + n])
    decreases |s| - i
  {
    if i < |s| && IsWordChar(s[i]) then 1 + WordRun(s, i + 1) else 0
  }

  /** The last position in `[1, hi)` that holds a digit. */
  function LastDigit(s: string, hi: nat): (r: Option<nat>)
    requires hi <= |s|
    ensures r.Some? ==> 1 <= r.value < hi && IsDigit(s[r.value])
                        && forall j :: r.value < j < hi ==> !IsDigit(s[j])
    ensures r.None? ==> forall j :: 1 <= j < hi ==> !IsDigit(s[j])
  {
    if hi <= 1 then None
    else if IsDigit(s[hi - 1]) then Some(hi - 1)
    else LastDigit(s, hi - 1)
  }

  /** The two groups of a successful match. */
  datatype UnitMatch = UnitMatch(number: string, unit: string)

  /** `re.match("([0-9.]+)(\w+)", s)` with the engine's backtracking: the first group
      is the longest `[0-9.]` prefix that a `\w` character follows, and the second
      group is then the longest `\w` run. When the whole `[0-9.]` run is followed by
      something else, the first group gives back characters until a digit is left over
      for the second group (so `"12"` matches as `"1"`, `"2"`). */
  function MatchUnit(s: string): (m: Option<UnitMatch>)
    ensures m.Some? ==> |m.value.number| >= 1 && NumPrefix(m.value.number, |m.value.number|)
  {
    var n := NumRun(s, 0);
    if n == 0 then None
    else if n < |s| && IsWordChar(s[n]) then
      Some(UnitMatch(s[..n], s[n..n + WordRun(s, n)]))
    else
      match LastDigit(s, n)
      case None => None
      case Some(k) => Some(UnitMatch(s[..k], s[k..k + 1]))
  }

  /** A successful match is the one the engine picks: the first group ends at the
      last place it can end, and the second group runs to the end of the `\w` run. */
  lemma MatchUnitSound(s: string)
    requires MatchUnit(s).Some?
    ensures var m := MatchUnit(s).value;
      var i, j := |m.number|, |m.number| + |m.unit|;
      GroupEnd(s, i) && (forall i': nat :: i < i' ==> !GroupEnd(s, i')) &&
      WordSpan(s, i, j) && (j < |s| ==> !IsWordChar(s[j])) &&
      m.number == s[..i] && m.unit == s[i..j]
  {
    var n := NumRun(s, 0);
    if !(n < |s| && IsWordChar(s[n])) {
      var k := LastDigit(s, n).value;
      assert k + 1 < |s| ==> !IsWordChar(s[k + 1]) by {
        if k + 1 < n { assert IsNumChar(s[k + 1]); }
      }
    }
  }

  /** The match fails only when no `[0-9.]+\w` prefix exists. */
  lemma MatchUnitComplete(s: string)
    ensures MatchUnit(s).None? <==> forall i: nat :: !GroupEnd(s, i)
  {
    if MatchUnit(s).None? {
      var n := NumRun(s, 0);
      assert n > 0 && (n == |s| || !IsWordChar(s[n])) ==> LastDigit(s, n).None?;
      forall i: nat | GroupEnd(s, i)
        ensures false
      {
      }
    } else {
      MatchUnitSound(s);
    }
  }

  function DigitValue(c: char): nat
    requires IsDigit(c)
  {
    (c as int - '0' as int) as nat
  }

  function Digit(d: nat): (c: char)
    requires d < 10
    ensures IsDigit(c) && DigitValue(c) == d
  {
    ('0' as int + d) as char
  }

  /** The value of a string of decimal digits. */
  function DigitsValue(s: string): nat
    requires forall k :: 0 <= k < |s| ==> IsDigit(s[k])
  {
    if s == [] then 0 else 10 * DigitsValue(s[..|s| - 1]) + DigitValue(s[|s| - 1])
  }

  /** The decimal digits of `n`, as `str(n)` writes them. */
  function NatDigits(n: nat): (s: string)
    ensures |s| >= 1 && forall k :: 0 <= k < |s| ==> IsDigit(s[k])
  {
    if n < 10 then [Digit(n)] else NatDigits(n / 10) + [Digit(n % 10)]
  }

  lemma {:induction false} DigitsOfNat(n: nat)
    ensures DigitsValue(NatDigits(n)) == n
  {
    if n >= 10 {
      DigitsOfNat(n / 10);
      var s := NatDigits(n);
      assert s[..|s| - 1] == NatDigits(n / 10);
    }
  }

  /** The value of the digits after a decimal point: `0.d0 d1 d2 ...`. */
  function FractionValue(s: string): (v: real)
    requires forall k :: 0 <= k < |s| ==> IsDigit(s[k])
    ensures 0.0 <= v <= 1.0
  {
    if s == [] then 0.0 else (DigitValue(s[0]) as real + FractionValue(s[1..])) / 10.0
  }

  predicate HasDigit(s: string)
  {
    exists k :: 0 <= k < |s| && IsDigit(s[k])
  }

  /** The position of the first `c` in `s`, or `|s|`. */
  function IndexOf(s: string, c: char): (k: nat)
    ensures k <= |s| && (k < |s| ==> s[k] == c) && c !in s[..k]
  {
    if s == [] then 0
    else if s[0] == c then 0
    else
      var k := 1 + IndexOf(s[1..], c);
      assert s[..k] == [s[0]] + s[1..][..k - 1];
      k
  }

  /** `float()` of a string of digits and dots: at most one dot and at least one digit. */
  function ParseFloat(s: string): (r: Result<real>)
    requires NumPrefix(s, |s|)
    ensures r.Ok? <==> Count(s, '.') <= 1 && HasDigit(s)
    ensures r.Err? ==> r.error == BadNumber
    ensures r.Ok? && '.' !in s ==> r.value == DigitsValue(s) as real
  {
    if Count(s, '.') > 1 || !HasDigit(s) then Err(BadNumber)
    else
      var k := IndexOf(s, '.');
      var whole := s[..k];
      var frac := if k < |s| then s[k + 1..] else [];
      assert forall j :: 0 <= j < |whole| ==> IsDigit(whole[j]) by {
        forall j | 0 <= j < |whole| ensures IsDigit(whole[j]) {
          assert whole[j] in s[..k];
        }
      }
      assert forall j :: 0 <= j < |frac| ==> IsDigit(frac[j]) by {
        if k < |s| {
          assert s == s[..k] + [s[k]] + s[k + 1..];
          CountAppend(s[..k] + [s[k]], s[k + 1..], '.');
          CountAppend(s[..k], [s[k]], '.');
          CountAbsent(s[..k], '.');
          if '.' in frac {
            CountPresent(frac, '.');
          }
        }
      }
      if k == |s| then
        assert whole == s;
        Ok(DigitsValue(whole) as real)
      else
        Ok(DigitsValue(whole) as real + FractionValue(frac))
  }

  /** `float(str(n)) == n`. */
  lemma ParseNatDigits(n: nat)
    ensures ParseFloat(NatDigits(n)) == Ok(n as real)
  {
    ParseDigits(NatDigits(n));
    DigitsOfNat(n);
  }

  /** `10^n`. */
  function Pow10(n: nat): (p: nat)
    ensures p >= 1
  {
    if n == 0 then 1 else 10 * Pow10(n - 1)
  }

  /** The digits of `x + y` are worth those of `x`, shifted left by `|y|` places, plus
      those of `y`. */
  lemma {:induction false} DigitsConcat(x: string, y: string)
    requires AllDigits(x) && AllDigits(y)
    ensures AllDigits(x + y)
    ensures DigitsValue(x + y) == DigitsValue(x) * Pow10(|y|) + DigitsValue(y)
    decreases |y|
  {
    if y == [] {
      assert x + y == x;
    } else {
      var y' := y[..|y| - 1];
      assert (x + y)[..|x + y| - 1] == x + y';
      DigitsConcat(x, y');
      var vx, vy', p := DigitsValue(x), DigitsValue(y'), Pow10(|y'|);
      calc {
        DigitsValue(x + y);
        10 * DigitsValue(x + y') + DigitValue(y[|y| - 1]);
        10 * (vx * p + vy') + DigitValue(y[|y| - 1]);
        { assert 10 * (vx * p) == vx * (10 * p); }
        vx * Pow10(|y|) + (10 * vy' + DigitValue(y[|y| - 1]));
      }
    }
  }

  /** The fraction `0.b` is the digits of `b` over `10^|b|`. */
  lemma {:induction false} FractionDigits(b: string)
    requires AllDigits(b)
    ensures FractionValue(b) == DigitsValue(b) as real / Pow10(|b|) as real
    decreases |b|
  {
    if b != [] {
      var t := b[1..];
      FractionDigits(t);
      assert b == [b[0]] + t;
      DigitsConcat([b[0]], t);
      assert DigitsValue([b[0]]) == DigitValue(b[0]);
      ShiftDigit(DigitValue(b[0]), DigitsValue(t), Pow10(|t|), FractionValue(t));
    }
  }

  lemma ShiftDigit(d: nat, v: nat, p: nat, f: real)
    requires p >= 1 && f == v as real / p as real
    ensures (d as real + f) / 10.0 == (d * p + v) as real / (10 * p) as real
  {
    var pr := p as real;
    assert (d * p + v) as real == d as real * pr + v as real;
    assert (10 * p) as real == 10.0 * pr;
    assert d as real + f == (d as real * pr + v as real) / pr;
  }

  lemma JoinFraction(w: nat, v: nat, p: nat, f: real)
    requires p >= 1 && f == v as real / p as real
    ensures w as real + f == (w * p + v) as real / p as real
  {
    assert (w * p + v) as real == w as real * p as real + v as real;
  }

  lemma NoDot(a: string)
    requires AllDigits(a)
    ensures '.' !in a
  {
  }

  /** In `a + "." + b` with no dot in `a` or `b`, the one dot is at `|a|`. */
  lemma DotAt(a: string, b: string)
    requires '.' !in a && '.' !in b
    ensures Count(a + "." + b, '.') == 1 && IndexOf(a + "." + b, '.') == |a|
    ensures (a + "." + b)[..|a|] == a && (a + "." + b)[|a| + 1..] == b
  {
    var s := a + "." + b;
    CountAppend(a + ".", b, '.');
    CountAppend(a, ".", '.');
    CountAbsent(a, '.');
    CountAbsent(b, '.');
    assert s[..|a|] == a;
    assert s[|a| + 1..] == b;
  }

  /** A number with its one dot at `k` reads as the digits before it plus the
      fraction after it. */
  lemma ParseAtDot(s: string, k: nat)
    requires NumPrefix(s, |s|) && HasDigit(s) && Count(s, '.') == 1 && k < |s|
    requires IndexOf(s, '.') == k && AllDigits(s[..k]) && AllDigits(s[k + 1..])
    ensures ParseFloat(s) == Ok(DigitsValue(s[..k]) as real + FractionValue(s[k + 1..]))
  {
  }

  /** The characters of `a + "." + b`: digits and one dot, and a digit somewhere when
      `a` or `b` is non-empty. */
  lemma DecimalChars(a: string, b: string)
    requires AllDigits(a) && AllDigits(b) && |a| + |b| >= 1
    ensures NumPrefix(a + "." + b, |a + "." + b|) && HasDigit(a + "." + b)
  {
    var s := a + "." + b;
    forall k | 0 <= k < |s| ensures IsNumChar(s[k]) {
      if k < |a| { assert s[k] == a[k]; } else if k > |a| { assert s[k] == b[k - |a| - 1]; }
    }
    if |a| >= 1 { assert s[0] == a[0]; } else { assert s[1] == b[0]; }
  }

  /** `float(a + "." + b)` for digit strings `a` and `b`, not both empty: the digits of
      `a + b` with the point `|b|` places from the right. A missing whole part (`".5"`)
      or fraction (`"5."`) reads as zero. */
  lemma ParseDecimal(a: string, b: string)
    requires AllDigits(a) && AllDigits(b) && |a| + |b| >= 1
    ensures NumPrefix(a + "." + b, |a + "." + b|) && AllDigits(a + b)
    ensures ParseFloat(a + "." + b) == Ok(DigitsValue(a + b) as real / Pow10(|b|) as real)
  {
    DecimalChars(a, b);
    NoDot(a);
    NoDot(b);
    DotAt(a, b);
    ParseAtDot(a + "." + b, |a|);
    DigitsConcat(a, b);
    FractionDigits(b);
    JoinFraction(DigitsValue(a), DigitsValue(b), Pow10(|b|), FractionValue(b));
  }

  // ---------------------------------------------------------------------------
  // The scale of a unit system: `PointTransform.get_scale`

  const PointUnits: seq<string> := ["pt", "point", "points"]
  const PicaUnits: seq<string> := ["pc", "pica", "picas"]
  const InchUnits: seq<string> := ["in", "inch", "inches"]

  /** The unit names `get_scale` knows. */
  predicate KnownUnit(unit: string)
  {
    unit in PointUnits || unit in PicaUnits || unit in InchUnits || unit == "mm" || unit == "cm"
  }

  /** How many of a known unit make an inch. */
  function PerInch(unit: string): (u: real)
    requires KnownUnit(unit)
    ensures u > 0.0
  {
    if unit in PointUnits then 72.0
    else if unit in PicaUnits then 6.0
    else if unit in InchUnits then 1.0
    else if unit == "mm" then 25.4
    else 2.54
  }

  /** The conversion of `spacing` units to pixels at `dpi` pixels per inch. */
  function UnitScale(spacing: real, unit: string, dpi: real): (r: Result<real>)
    ensures r.Ok? <==> KnownUnit(unit)
    ensures r.Err? ==> r.error == BadUnit
    ensures r.Ok? ==> r.value == dpi * spacing / PerInch(unit)
  {
    if unit in PointUnits then Ok(dpi * spacing / 72.0)
    else if unit in PicaUnits then Ok(dpi * spacing / 6.0)
    else if unit in InchUnits then Ok(dpi * spacing)
    else if unit in ["mm"] then Ok(dpi * spacing / 25.4)
    else if unit in ["cm"] then Ok(dpi * spacing / 2.54)
    else Err(BadUnit)
  }

  /** Pixels per unit of the system string at `dpi` pixels per inch. */
  function GetScale(system: string, dpi: real): (r: Result<real>)
    ensures r.Err? ==> r.error in {UnitNoMatch, BadNumber, BadUnit}
    ensures r.Err? && r.error == UnitNoMatch <==> MatchUnit(system).None?
    ensures MatchUnit(system).Some? ==>
      (r.Ok? <==> ParseFloat(MatchUnit(system).value.number).Ok? && KnownUnit(MatchUnit(system).value.unit))
  {
    match MatchUnit(system)
    case None => Err(UnitNoMatch)
    case Some(m) =>
      var spacing := ParseFloat(m.number);
      if spacing.Err? then Err(spacing.error) else UnitScale(spacing.value, m.unit, dpi)
  }

  /** A string without a number-and-unit match fails as such; otherwise a number that
      parses is scaled by its unit, and the only failures are the three of the source. */
  lemma GetScaleCases(system: string, dpi: real)
    ensures var r := GetScale(system, dpi);
      (r.Err? ==> (r.error == UnitNoMatch <==> MatchUnit(system).None?)) &&
      (r.Err? ==> r.error in {UnitNoMatch, BadNumber, BadUnit}) &&
      (MatchUnit(system).Some? && ParseFloat(MatchUnit(system).value.number).Ok? ==>
         r == UnitScale(ParseFloat(MatchUnit(system).value.number).value, MatchUnit(system).value.unit, dpi))
  {
  }

  predicate IsLower(c: char) { 'a' <= c <= 'z' }

  predicate AllDigits(s: string)
  {
    forall k :: 0 <= k < |s| ==> IsDigit(s[k])
  }

  /** Digits and dots followed by a unit name match as exactly those two groups. */
  lemma MatchQuantity(number: string, unit: string)
    requires |number| >= 1 && NumPrefix(number, |number|)
    requires |unit| >= 1 && forall k :: 0 <= k < |unit| ==> IsLower(unit[k])
    ensures MatchUnit(number + unit) == Some(UnitMatch(number, unit))
  {
    var s := number + unit;
    var len := NumRun(s, 0);
    assert s[|number|] == unit[0];
    assert len == |number|;
    var w := WordRun(s, |number|);
    assert w == |unit|;
    assert s[..|number|] == number;
    assert s[|number|..|number| + w] == unit;
  }

  /** A string of digits reads as its decimal value. */
  lemma ParseDigits(number: string)
    requires |number| >= 1 && AllDigits(number)
    ensures ParseFloat(number) == Ok(DigitsValue(number) as real)
  {
    assert IsDigit(number[0]);
    assert '.' !in number;
    CountAbsent(number, '.');
  }

  /** Digits of value `v` and a known unit give `v` units of `dpi / PerInch(unit)` pixels;
      `r` names that product. */
  lemma ScaleOfQuantity(system: string, number: string, v: real, unit: string, dpi: real, r: real)
    requires system == number + unit
    requires |number| >= 1 && AllDigits(number) && DigitsValue(number) as real == v
    requires |unit| >= 1 && (forall k :: 0 <= k < |unit| ==> IsLower(unit[k])) && KnownUnit(unit)
    requires r == dpi * v / PerInch(unit)
    ensures GetScale(system, dpi) == Ok(r)
  {
    ScaleOfDigits(number, DigitsValue(number), unit, dpi);
    ScaleValue(system, v, unit, dpi);
  }

  lemma ScaleOfDigits(number: string, n: nat, unit: string, dpi: real)
    requires |number| >= 1 && AllDigits(number) && DigitsValue(number) == n
    requires |unit| >= 1 && forall k :: 0 <= k < |unit| ==> IsLower(unit[k])
    ensures GetScale(number + unit, dpi) == UnitScale(n as real, unit, dpi)
  {
    MatchQuantity(number, unit);
    ParseDigits(number);
    ScaleOfMatch(number + unit, UnitMatch(number, unit), n as real, dpi);
  }

  /** A decimal `a.b` followed by a lower-case unit is scaled as that unit with the
      decimal's value. */
  lemma ScaleOfDecimal(a: string, b: string, unit: string, dpi: real)
    requires AllDigits(a) && AllDigits(b) && |a| + |b| >= 1
    requires |unit| >= 1 && forall k :: 0 <= k < |unit| ==> IsLower(unit[k])
    ensures AllDigits(a + b)
    ensures GetScale(a + "." + b + unit, dpi) ==
      UnitScale(DigitsValue(a + b) as real / Pow10(|b|) as real, unit, dpi)
  {
    ParseDecimal(a, b);
    MatchQuantity(a + "." + b, unit);
    ScaleOfMatch(a + "." + b + unit, UnitMatch(a + "." + b, unit), DigitsValue(a + b) as real / Pow10(|b|) as real, dpi);
  }

  /** The scale of a decimal quantity with a known unit, given its value `v`. */
  lemma ScaleOfDecimalQuantity(system: string, a: string, b: string, v: real, unit: string, dpi: real, r: real)
    requires system == a + "." + b + unit
    requires AllDigits(a) && AllDigits(b) && |a| + |b| >= 1
    requires AllDigits(a + b) && DigitsValue(a + b) as real / Pow10(|b|) as real == v
    requires |unit| >= 1 && (forall k :: 0 <= k < |unit| ==> IsLower(unit[k])) && KnownUnit(unit)
    requires r == dpi * v / PerInch(unit)
    ensures GetScale(system, dpi) == Ok(r)
  {
    ScaleOfDecimal(a, b, unit, dpi);
    ScaleValue(system, v, unit, dpi);
  }

  /** `"2.5mm"`: two and a half millimetres. */
  lemma HalfMillimetres(dpi: real)
    ensures GetScale("2.5mm", dpi) == Ok(dpi * 2.5 / 25.4)
  {
    assert DigitsValue("25") == 25;
    ScaleOfDecimalQuantity("2.5mm", "2", "5", 2.5, "mm", dpi, dpi * 2.5 / 25.4);
  }

  /** `".5in"`: a missing whole part reads as zero. */
  lemma LeadingPoint(dpi: real)
    ensures GetScale(".5in", dpi) == Ok(dpi * 0.5)
  {
    assert DigitsValue("5") == 5;
    ScaleOfDecimalQuantity(".5in", "", "5", 0.5, "in", dpi, dpi * 0.5);
  }

  /** `"5.pt"`: a missing fraction reads as zero. */
  lemma TrailingPoint(dpi: real)
    ensures GetScale("5.pt", dpi) == Ok(dpi * 5.0 / 72.0)
  {
    ScaleOfDecimalQuantity("5.pt", "5", "", 5.0, "pt", dpi, dpi * 5.0 / 72.0);
  }

  lemma ScaleValue(system: string, spacing: real, unit: string, dpi: real)
    requires KnownUnit(unit) && GetScale(system, dpi) == UnitScale(spacing, unit, dpi)
    ensures GetScale(system, dpi) == Ok(dpi * spacing / PerInch(unit))
  {
    KnownUnitScale(spacing, unit, dpi);
  }

  lemma KnownUnitScale(spacing: real, unit: string, dpi: real)
    requires KnownUnit(unit)
    ensures UnitScale(spacing, unit, dpi) == Ok(dpi * spacing / PerInch(unit))
  {
  }

  /** The scale depends on the string only through the match and the number read. */
  lemma ScaleOfMatch(system: string, m: UnitMatch, spacing: real, dpi: real)
    requires MatchUnit(system) == Some(m) && ParseFloat(m.number) == Ok(spacing)
    ensures GetScale(system, dpi) == UnitScale(spacing, m.unit, dpi)
  {
  }

  /** The scale is linear in the magnitude and in the resolution: `k` times as many
      units, or `k` times the resolution, give `k` times the pixels. */
  lemma ScaleLinear(spacing: real, unit: string, dpi: real, k: real)
    requires KnownUnit(unit)
    ensures UnitScale(k * spacing, unit, dpi).value == k * UnitScale(spacing, unit, dpi).value
    ensures UnitScale(spacing, unit, k * dpi).value == k * UnitScale(spacing, unit, dpi).value
  {
    var u := PerInch(unit);
    var b := UnitScale(spacing, unit, dpi).value;
    Rescale(k, spacing, k * spacing, dpi, u, b);
    Rescale(k, dpi, k * dpi, spacing, u, b);
  }

  lemma Rescale(k: real, x: real, kx: real, y: real, u: real, b: real)
    requires u != 0.0 && kx == k * x && (b == x * y / u || b == y * x / u)
    ensures kx * y / u == k * b && y * kx / u == k * b
  {
  }

  // ---------------------------------------------------------------------------
  // The anchored transform: `PointTransform`

  /** The corner of `pos` that an anchor key names: `b`/`t` choose the bottom or top
      edge, `l`/`r` the left or right edge. */
  function AnchorPoint(anchor: string, pos: Rect): (r: Result<Point>)
    ensures r.Ok? <==> anchor in ["bl", "tl", "tr", "br"]
    ensures r.Err? ==> r.error == BadAnchor
    ensures r.Ok? ==> r.value.x == (if anchor[1] == 'l' then pos.p0.x else pos.p1.x)
    ensures r.Ok? ==> r.value.y == (if anchor[0] == 'b' then pos.p0.y else pos.p1.y)
  {
    if anchor == "bl" then Ok(pos.p0)
    else if anchor == "tl" then Ok(Point(pos.p0.x, pos.p1.y))
    else if anchor == "tr" then Ok(pos.p1)
    else if anchor == "br" then Ok(Point(pos.p1.x, pos.p0.y))
    else Err(BadAnchor)
  }

  /** The figure of the object a `PointTransform` is built for. */
  function OwnFigure(target: Obj): (r: Result<Figure>)
    ensures r.Err? <==> target.Detached?
    ensures r.Err? ==> r.error == NoFigure
    ensures target.Valid() && r.Ok? ==> r.value.Valid()
    ensures target.AxesObj? ==> r == Ok(target.ax.figure)
  {
    match target
    case FigureObj(f) => Ok(f)
    case AxesObj(a) => Ok(a.figure)
    case ArtistObj(f) => Ok(f)
    case Detached => Err(NoFigure)
  }

  /** The box the anchor is taken from: the axes box in pixels for an axes,
      the figure box for anything else. */
  function ObjectPosition(target: Obj, fig: Figure): (r: Rect)
    ensures target.AxesObj? && fig == target.ax.figure ==> r == target.ax.DisplayBox()
    ensures !target.AxesObj? ==> r == fig.Bbox()
  {
    if target.AxesObj? then
      Rect(fig.TransFigure().Apply(target.ax.position.p0), fig.TransFigure().Apply(target.ax.position.p1))
    else fig.Bbox()
  }

  /** The attributes a `PointTransform` holds once constructed. */
  datatype PointTransform = PointTransform(obj: Obj, fig: Figure, system: string, anchor: string,
                                           figPos: Rect, objPos: Rect)
  {
    /** `get_bbox`: the figure box in units, measured from the anchor. A zero scale
        would fill it with non-finite values; that is reported as `Degenerate`. */
    function GetBbox(): (r: Result<Rect>)
      ensures r.Ok? && figPos.NonDegenerate() ==> r.value.NonDegenerate()
    {
      var scale :- GetScale(system, fig.dpi);
      var a :- AnchorPoint(anchor, objPos);
      if scale == 0.0 then Err(Degenerate) else Ok(InUnits(figPos, a, scale))
    }
  }

  /** `PointTransform.__init__`: find the figure and record the positions. */
  function NewPointTransform(target: Obj, anchor: string, system: string): (r: Result<PointTransform>)
    ensures r.Err? <==> target.Detached?
    ensures r.Err? ==> r.error == NoFigure
    ensures r.Ok? ==> r.value.fig == OwnFigure(target).value && r.value.figPos == r.value.fig.Bbox()
                      && r.value.objPos == ObjectPosition(target, r.value.fig)
  {
    var fig :- OwnFigure(target);
    Ok(PointTransform(target, fig, system, anchor, fig.Bbox(), ObjectPosition(target, fig)))
  }

  /** The transform a `PointTransform` stands for:
      `BboxTransformFrom(get_bbox())` followed by `fig.transFigure`. */
  function PointTransformAffine(target: Obj, anchor: string, system: string): (r: Result<Affine>)
    requires target.Valid()
  {
    var pt :- NewPointTransform(target, anchor, system);
    var bbox :- pt.GetBbox();
    Ok(Then(BboxTransformFrom(bbox), pt.fig.TransFigure()))
  }

  /** A `PointTransform` is the map `u |-> anchor + scale * u`: its origin is the
      anchor corner and one unit is `scale` pixels along both axes. It exists exactly
      when the object has a figure, the unit string has a non-zero scale and the
      anchor key is known. */
  lemma PointTransformIsAnchoredScale(target: Obj, anchor: string, system: string)
    requires target.Valid()
    ensures var r := PointTransformAffine(target, anchor, system);
      r.Ok? <==> !target.Detached? && GetScale(system, OwnFigure(target).value.dpi).Ok?
                 && GetScale(system, OwnFigure(target).value.dpi).value != 0.0
                 && AnchorPoint(anchor, ObjectPosition(target, OwnFigure(target).value)).Ok?
    ensures var r := PointTransformAffine(target, anchor, system);
      r.Ok? ==>
        var fig := OwnFigure(target).value;
        var s := GetScale(system, fig.dpi).value;
        var a := AnchorPoint(anchor, ObjectPosition(target, fig)).value;
        r.value == Affine(s, a.x, s, a.y) && r.value.Apply(Point(0.0, 0.0)) == a
  {
    if !target.Detached? {
      var fig := OwnFigure(target).value;
      var scale := GetScale(system, fig.dpi);
      var a := AnchorPoint(anchor, ObjectPosition(target, fig));
      if scale.Ok? && scale.value != 0.0 && a.Ok? {
        AnchoredTransform(target, anchor, system, scale.value, a.value);
      }
    }
  }

  lemma AnchoredTransform(target: Obj, anchor: string, system: string, s: real, a: Point)
    requires target.Valid() && !target.Detached? && s != 0.0
    requires GetScale(system, OwnFigure(target).value.dpi) == Ok(s)
    requires AnchorPoint(anchor, ObjectPosition(target, OwnFigure(target).value)) == Ok(a)
    ensures PointTransformAffine(target, anchor, system) == Ok(Affine(s, a.x, s, a.y))
  {
    var pt := NewPointTransform(target, anchor, system).value;
    AnchoredUnitSystem(pt.fig.Bbox(), a, s);
  }

  /** Zero units (`"0pt"`) have no transform. */
  lemma ZeroScaleDegenerate(target: Obj, anchor: string, unit: string)
    requires target.Valid() && !target.Detached? && KnownUnit(unit)
    requires |unit| >= 1 && forall k :: 0 <= k < |unit| ==> IsLower(unit[k])
    requires anchor in ["bl", "tl", "tr", "br"]
    ensures PointTransformAffine(target, anchor, "0" + unit) == Err(Degenerate)
  {
    var dpi := OwnFigure(target).value.dpi;
    var system := "0" + unit;
    assert DigitsValue("0") == 0;
    ZeroTimes(dpi, PerInch(unit));
    ScaleOfQuantity(system, "0", 0.0, unit, dpi, 0.0);
    DegenerateTransform(target, anchor, system);
  }

  lemma ZeroTimes(dpi: real, u: real)
    requires u != 0.0
    ensures dpi * 0.0 / u == 0.0
  {
  }

  lemma DegenerateTransform(target: Obj, anchor: string, system: string)
    requires target.Valid() && !target.Detached?
    requires GetScale(system, OwnFigure(target).value.dpi) == Ok(0.0)
    requires AnchorPoint(anchor, ObjectPosition(target, OwnFigure(target).value)).Ok?
    ensures PointTransformAffine(target, anchor, system) == Err(Degenerate)
  {
  }

  // ---------------------------------------------------------------------------
  // `transform_factory`

  /** The spelling of the system argument: one name or a list of names. */
  datatype Systems = Name(name: string) | Names(names: seq<string>) {
    /** `if isinstance(system, str): system = [system]` */
    function List(): (l: seq<string>)
      ensures Name? ==> l == [name]
      ensures Names? ==> l == names
    {
      if Name? then [name] else names
    }
  }

  /** The transform of one system name for object `ob` of figure `fig`. */
  function SystemTransform(ob: Obj, fig: Figure, syst: string, anchor: string): (r: Result<Affine>)
    requires ob.Valid() && fig.Valid()
    ensures r.Err? ==> r.error in {NoFigure, NoAttribute, UnitNoMatch, BadNumber, BadUnit, BadAnchor, Degenerate}
    ensures syst == "figure" ==> r.Ok?
    ensures r.Err? && r.error == NoAttribute ==> !ob.AxesObj? && (syst in ["ax", "axes", "axis"] || syst == "data")
    ensures r.Err? && r.error == NoFigure ==> ob.Detached?
  {
    if syst == "figure" then Ok(fig.TransFigure())
    else if syst in ["ax", "axes", "axis"] then (if ob.AxesObj? then Ok(ob.ax.TransAxes()) else Err(NoAttribute))
    else if syst == "data" then (if ob.AxesObj? then Ok(ob.ax.TransData()) else Err(NoAttribute))
    else PointTransformAffine(ob, anchor, UnitSystem(syst))
  }

  /** The figure, axes (under any of its three spellings) and data systems are the
      object's own transforms; an object that is not an axes has no `transAxes` or
      `transData`. */
  lemma FixedSystemTransforms(ob: Obj, fig: Figure, syst: string, anchor: string)
    requires ob.Valid() && fig.Valid()
    ensures var r := SystemTransform(ob, fig, syst, anchor);
      (syst == "figure" ==> r == Ok(fig.TransFigure())) &&
      (syst in ["ax", "axes", "axis"] || syst == "data" ==> (r.Ok? <==> ob.AxesObj?)) &&
      (syst in ["ax", "axes", "axis"] && ob.AxesObj? ==> r == Ok(ob.ax.TransAxes())) &&
      (syst == "data" && ob.AxesObj? ==> r == Ok(ob.ax.TransData()))
  {
  }

  /** The unit string of any other system name: a bare unit name stands for one
      of that unit (one pica as `"12pt"`), and a name with a number is used as it is. */
  function UnitSystem(syst: string): string
  {
    if syst in PicaUnits then "12" + "pt"
    else if syst in InchUnits then "1" + "in"
    else if syst in PointUnits then "1" + "pt"
    else syst
  }

  /** A bare unit name is one of that unit: one pica, one inch or one point, anchored
      at the anchor corner. It fails only on an unknown anchor. */
  lemma NamedUnitSystem(ob: Obj, fig: Figure, syst: string, anchor: string)
    requires ob.Valid() && fig.Valid() && !ob.Detached?
    requires syst in PicaUnits + InchUnits + PointUnits
    ensures var r := SystemTransform(ob, fig, syst, anchor);
      var own := OwnFigure(ob).value;
      var a := AnchorPoint(anchor, ObjectPosition(ob, own));
      (r.Ok? <==> a.Ok?) &&
      (r.Ok? ==> var s := own.dpi / PerInch(syst);
                 r.value == Affine(s, a.value.x, s, a.value.y))
  {
    var own := OwnFigure(ob).value;
    UnitNameSystem(ob, fig, syst, anchor);
    UnitNameScale(syst, own.dpi);
    PointTransformIsAnchoredScale(ob, anchor, UnitSystem(syst));
  }

  lemma UnitNameSystem(ob: Obj, fig: Figure, syst: string, anchor: string)
    requires ob.Valid() && fig.Valid()
    requires syst in PicaUnits + InchUnits + PointUnits
    ensures SystemTransform(ob, fig, syst, anchor) == PointTransformAffine(ob, anchor, UnitSystem(syst))
  {
    UnitNameNotReserved(syst);
  }

  /** No bare unit name is one of the reserved system names. */
  lemma UnitNameNotReserved(syst: string)
    requires syst in PicaUnits + InchUnits + PointUnits
    ensures syst != "figure" && syst !in ["ax", "axes", "axis"] && syst != "data"
  {
  }

  /** One pica, one inch or one point, at `dpi` pixels per inch. */
  lemma UnitNameScale(syst: string, dpi: real)
    requires syst in PicaUnits + InchUnits + PointUnits
    ensures KnownUnit(syst) && GetScale(UnitSystem(syst), dpi) == Ok(dpi / PerInch(syst))
    ensures GetScale(UnitSystem(syst), dpi).value != 0.0 <==> dpi != 0.0
  {
    UnitNameFacts(syst);
    var system := UnitSystem(syst);
    var u := PerInch(syst);
    if syst in PicaUnits {
      PicaScale(system, dpi);
    } else if syst in InchUnits {
      OneUnitScale(system, "in", dpi);
    } else {
      OneUnitScale(system, "pt", dpi);
    }
    NonZeroScale(dpi, u);
  }

  /** The unit string and the size of each family of bare unit names. */
  lemma UnitNameFacts(syst: string)
    requires syst in PicaUnits + InchUnits + PointUnits
    ensures KnownUnit(syst)
    ensures syst in PicaUnits ==> UnitSystem(syst) == "12" + "pt" && PerInch(syst) == 6.0
    ensures syst in InchUnits ==> UnitSystem(syst) == "1" + "in" && PerInch(syst) == 1.0
    ensures syst in PointUnits ==> UnitSystem(syst) == "1" + "pt" && PerInch(syst) == 72.0
  {
  }

  lemma NonZeroScale(dpi: real, u: real)
    requires u > 0.0
    ensures dpi / u != 0.0 <==> dpi != 0.0
  {
    if dpi / u == 0.0 {
      assert dpi == dpi / u * u;
    }
  }

  /** `"12pt"` is twelve points. */
  lemma PicaScale(system: string, dpi: real)
    requires system == "12" + "pt"
    ensures GetScale(system, dpi) == Ok(dpi / 6.0)
  {
    LiteralQuantities();
    TwelvePoints(dpi);
    ScaleOfQuantity(system, "12", 12.0, "pt", dpi, dpi / 6.0);
  }

  /** `"1in"` and `"1pt"` are one inch and one point. */
  lemma OneUnitScale(system: string, unit: string, dpi: real)
    requires unit in ["in", "pt"] && system == "1" + unit
    ensures GetScale(system, dpi) == Ok(dpi / PerInch(unit))
  {
    LiteralQuantities();
    ScaleOfQuantity(system, "1", 1.0, unit, dpi, dpi / PerInch(unit));
  }

  lemma LiteralQuantities()
    ensures AllDigits("12") && DigitsValue("12") as real == 12.0
    ensures AllDigits("1") && DigitsValue("1") as real == 1.0
    ensures forall u :: u in ["pt", "in"] ==> |u| >= 1 && (forall k :: 0 <= k < |u| ==> IsLower(u[k])) && KnownUnit(u)
  {
  }

  lemma TwelvePoints(dpi: real)
    ensures dpi * 12.0 / 72.0 == dpi / 6.0
  {
  }

  /** What `transform_factory(object, system, anchor)` returns, with `current` the
      figure `plt.gcf()` would give: one name gives its transform, two or more blend
      the first two (x from the first, y from the second), none gives no result. */
  function Factory(target: Option<Obj>, current: Figure, system: Systems, anchor: string): (r: Result<Affine>)
    requires current.Valid() && (target.Some? ==> target.value.Valid())
    ensures r.Err? ==> r.error in {NoFigure, NoAttribute, UnitNoMatch, BadNumber, BadUnit, BadAnchor, Degenerate, NoSystems}
    ensures r.Err? && r.error == NoFigure <==> target == Some(Detached)
    ensures r.Err? && r.error == NoSystems <==> target != Some(Detached) && system.List() == []
  {
    var res :- Resolve(target, current);
    var ob, fig := res.0, res.1;
    var names := system.List();
    if |names| == 0 then Err(NoSystems)
    else
      var t0 :- SystemTransform(ob, fig, names[0], anchor);
      if |names| == 1 then Ok(t0)
      else
        var t1 :- SystemTransform(ob, fig, names[1], anchor);
        Ok(Blend(t0, t1))
  }

  /** The transforms of the first `n` names, in order, or the first failure. */
  function FirstTransforms(ob: Obj, fig: Figure, names: seq<string>, anchor: string, n: nat): Result<seq<Affine>>
    requires ob.Valid() && fig.Valid() && n <= |names|
  {
    if n == 0 then Ok([])
    else
      var ts :- FirstTransforms(ob, fig, names, anchor, n - 1);
      var t :- SystemTransform(ob, fig, names[n - 1], anchor);
      Ok(ts + [t])
  }

  /** `transform_factory`: at most the first two names are turned into transforms,
      in order, and the first failure stops it. */
  method TransformFactory(target: Option<Obj>, current: Figure, system: Systems, anchor: string)
    returns (r: Result<Affine>)
    requires current.Valid() && (target.Some? ==> target.value.Valid())
    ensures r == Factory(target, current, system, anchor)
  {
    var resolved := Resolve(target, current);
    if resolved.Err? {
      return Err(resolved.error);
    }
    var names := system.List();
    var n := if |names| < 2 then |names| else 2;
    FactoryOfFirst(target, current, system, anchor);
    var transforms := CollectTransforms(resolved.value.0, resolved.value.1, names, anchor, n);
    if transforms.Err? {
      return Err(transforms.error);
    }
    FirstTransformsLength(resolved.value.0, resolved.value.1, names, anchor, n);
    if |transforms.value| == 2 {
      r := Ok(Blend(transforms.value[0], transforms.value[1]));
    } else if |transforms.value| == 1 {
      r := Ok(transforms.value[0]);
    } else {
      r := Err(NoSystems);
    }
  }

  /** The loop of `transform_factory` over the first `n` names. */
  method CollectTransforms(ob: Obj, fig: Figure, names: seq<string>, anchor: string, n: nat)
    returns (r: Result<seq<Affine>>)
    requires ob.Valid() && fig.Valid() && n <= |names|
    ensures r == FirstTransforms(ob, fig, names, anchor, n)
  {
    var transforms: seq<Affine> := [];
    var i := 0;
    while i < n
      invariant 0 <= i <= n
      invariant FirstTransforms(ob, fig, names, anchor, i) == Ok(transforms)
    {
      var trans := SystemTransform(ob, fig, names[i], anchor);
      NextTransform(ob, fig, names, anchor, i, transforms);
      if trans.Err? {
        FailurePersists(ob, fig, names, anchor, i + 1, n);
        return Err(trans.error);
      }
      transforms := transforms + [trans.value];
      i := i + 1;
    }
    r := Ok(transforms);
  }

  /** One more name extends the run by its transform, or ends it with its failure. */
  lemma NextTransform(ob: Obj, fig: Figure, names: seq<string>, anchor: string, i: nat, ts: seq<Affine>)
    requires ob.Valid() && fig.Valid() && i < |names|
    requires FirstTransforms(ob, fig, names, anchor, i) == Ok(ts)
    ensures var t := SystemTransform(ob, fig, names[i], anchor);
      FirstTransforms(ob, fig, names, anchor, i + 1) == if t.Err? then Err(t.error) else Ok(ts + [t.value])
  {
  }

  /** Once one of the first names fails, the later ones are never reached. */
  lemma {:induction false} FailurePersists(ob: Obj, fig: Figure, names: seq<string>, anchor: string, i: nat, n: nat)
    requires ob.Valid() && fig.Valid() && i <= n <= |names|
    requires FirstTransforms(ob, fig, names, anchor, i).Err?
    ensures FirstTransforms(ob, fig, names, anchor, n) == FirstTransforms(ob, fig, names, anchor, i)
    decreases n - i
  {
    if i < n {
      FailurePersists(ob, fig, names, anchor, i + 1, n);
    }
  }

  /** A successful run over `n` names yields `n` transforms. */
  lemma {:induction false} FirstTransformsLength(ob: Obj, fig: Figure, names: seq<string>, anchor: string, n: nat)
    requires ob.Valid() && fig.Valid() && n <= |names|
    ensures var r := FirstTransforms(ob, fig, names, anchor, n); r.Ok? ==> |r.value| == n
  {
    if n > 0 {
      FirstTransformsLength(ob, fig, names, anchor, n - 1);
    }
  }

  /** The result of the run over the first names: the blend of two transforms, the
      only one, none, or the failure that stopped it. */
  function Combined(f: Result<seq<Affine>>): Result<Affine>
  {
    if f.Err? then Err(f.error)
    else if |f.value| == 2 then Ok(Blend(f.value[0], f.value[1]))
    else if |f.value| == 1 then Ok(f.value[0])
    else Err(NoSystems)
  }

  /** `Factory` is the run over the first (at most two) names, combined. */
  lemma FactoryOfFirst(target: Option<Obj>, current: Figure, system: Systems, anchor: string)
    requires current.Valid() && (target.Some? ==> target.value.Valid())
    requires Resolve(target, current).Ok?
    ensures var res := Resolve(target, current).value;
      var n := if |system.List()| < 2 then |system.List()| else 2;
      Factory(target, current, system, anchor) == Combined(FirstTransforms(res.0, res.1, system.List(), anchor, n))
  {
    var res := Resolve(target, current).value;
    var names := system.List();
    if |names| >= 1 {
      FirstOfOne(res.0, res.1, names, anchor);
    }
  }

  /** The run over one name is that name's transform, or its failure. */
  lemma FirstOfOne(ob: Obj, fig: Figure, names: seq<string>, anchor: string)
    requires ob.Valid() && fig.Valid() && 1 <= |names|
    ensures var t := SystemTransform(ob, fig, names[0], anchor);
      FirstTransforms(ob, fig, names, anchor, 1) == if t.Err? then Err(t.error) else Ok([t.value])
  {
    assert FirstTransforms(ob, fig, names, anchor, 0) == Ok([]);
    var t := SystemTransform(ob, fig, names[0], anchor);
    if t.Ok? {
      assert [] + [t.value] == [t.value];
    }
  }

  /** Two or more names blend the first two: x follows the first system and y the
      second, and every later name is ignored. */
  lemma FactoryBlendsFirstTwo(target: Option<Obj>, current: Figure, names: seq<string>, anchor: string)
    requires current.Valid() && (target.Some? ==> target.value.Valid())
    requires |names| >= 2 && Resolve(target, current).Ok?
    ensures Factory(target, current, Names(names), anchor) == Factory(target, current, Names(names[..2]), anchor)
    ensures var res := Resolve(target, current).value;
      var r := Factory(target, current, Names(names), anchor);
      r.Ok? <==> SystemTransform(res.0, res.1, names[0], anchor).Ok? && SystemTransform(res.0, res.1, names[1], anchor).Ok?
  {
  }

  /** The blended transform takes its x coordinate from the first system and its y
      coordinate from the second. */
  lemma FactoryBlendAxes(target: Option<Obj>, current: Figure, names: seq<string>, anchor: string, p: Point)
    requires current.Valid() && (target.Some? ==> target.value.Valid())
    requires |names| >= 2 && Factory(target, current, Names(names), anchor).Ok?
    ensures Resolve(target, current).Ok?
    ensures var res := Resolve(target, current).value;
      var t := Factory(target, current, Names(names), anchor).value;
      t.Apply(p).x == SystemTransform(res.0, res.1, names[0], anchor).value.Apply(p).x &&
      t.Apply(p).y == SystemTransform(res.0, res.1, names[1], anchor).value.Apply(p).y
  {
    var res := Resolve(target, current).value;
    var t0 := SystemTransform(res.0, res.1, names[0], anchor).value;
    var t1 := SystemTransform(res.0, res.1, names[1], anchor).value;
    assert Factory(target, current, Names(names), anchor) == Ok(Blend(t0, t1));
    BlendApply(t0, t1, p);
  }

  /** A single name and a list holding only that name give the same transform. */
  lemma FactorySingleName(target: Option<Obj>, current: Figure, name: string, anchor: string)
    requires current.Valid() && (target.Some? ==> target.value.Valid())
    ensures Factory(target, current, Name(name), anchor) == Factory(target, current, Names([name]), anchor)
    ensures Resolve(target, current).Ok? ==>
      var res := Resolve(target, current).value;
      Factory(target, current, Name(name), anchor) == SystemTransform(res.0, res.1, name, anchor)
  {
  }

  // ---------------------------------------------------------------------------
  // `decorator_custom_transform`

  /** The keyword arguments the decorated plotting call receives: without `system`
      they pass through; with it, `transform` is set to the factory's transform for
      the object itself (replacing any `transform` given), and the other keywords are
      untouched. */
  function DecorateCustomTransform(self: Obj, current: Figure, kwargs: Kwargs,
                                   system: Option<Systems>, anchor: string): (r: Result<Kwargs>)
    requires current.Valid() && self.Valid()
    ensures system.None? ==> r == Ok(kwargs)
    ensures system.Some? ==> (r.Ok? <==> Factory(Some(self), current, system.value, anchor).Ok?)
    ensures system.Some? && r.Ok? ==>
      r.value.Keys == kwargs.Keys + {"transform"} &&
      r.value["transform"] == Trans(Factory(Some(self), current, system.value, anchor).value) &&
      forall k :: k in kwargs && k != "transform" ==> r.value[k] == kwargs[k]
  {
    if system.None? then Ok(kwargs)
    else
      var trans :- Factory(Some(self), current, system.value, anchor);
      Ok(kwargs["transform" := Trans(trans)])
  }
}
