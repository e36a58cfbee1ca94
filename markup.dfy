/** The bracket markup of multi-colour texts: a string such as `"a [red:1] b"` is cut
    into plain text and bracketed segments, each segment `[t:k]` shows `t` in the
    base style updated with highlight style `k`, and every newline starts a new
    line. The three flag characters (open, separator, close) are parameters. */
module Markup {
  import opened Base
  import opened Canvas
  import opened PatchTransforms

  /** The flag characters, `opn, sep, clo = flag`. */
  datatype Flag = Flag(opn: char, sep: char, clo: char)

  // ---------------------------------------------------------------------------
  // The regular expressions

  /** Where `.*?[clo]` tried from index `k` stops: at the first `clo`, unless a
      newline (which `.` does not match) comes first. */
  function CloseFrom(s: string, clo: char, k: nat): (r: Option<nat>)
    decreases |s| - k
    ensures r.Some? ==> k <= r.value < |s| && s[r.value] == clo
    ensures r.Some? ==> forall q :: k <= q < r.value ==> s[q] != clo && s[q] != '\n'
    ensures r.None? ==> forall q :: k <= q < |s| && s[q] == clo ==> exists p :: k <= p < q && s[p] == '\n'
  {
    if k >= |s| then None
    else if s[k] == clo then Some(k)
    else if s[k] == '\n' then None
    else CloseFrom(s, clo, k + 1)
  }

  /** A match of `[opn].*?[clo]` starts at index `i`. */
  predicate OpensAt(s: string, f: Flag, i: nat)
  {
    i < |s| && s[i] == f.opn && CloseFrom(s, f.clo, i + 1).Some?
  }

  /** The leftmost match of `[opn].*?[clo]` at or after `k`, by its first and last index. */
  function FindSegment(s: string, f: Flag, k: nat): (r: Option<(nat, nat)>)
    decreases |s| - k
    ensures r.Some? ==> k <= r.value.0 && OpensAt(s, f, r.value.0) && CloseFrom(s, f.clo, r.value.0 + 1) == Some(r.value.1)
    ensures r.Some? ==> forall i :: k <= i < r.value.0 ==> !OpensAt(s, f, i)
    ensures r.None? ==> forall i :: k <= i < |s| ==> !OpensAt(s, f, i)
  {
    if k >= |s| then None
    else if OpensAt(s, f, k) then Some((k, CloseFrom(s, f.clo, k + 1).value))
    else FindSegment(s, f, k + 1)
  }

  /** `re.split("([opn].*?[clo])", s)`: the text before the first segment, the
      segment, the text after it up to the next segment, and so on; the segments
      are at the odd positions. */
  function SplitSegments(s: string, f: Flag): (parts: seq<string>)
    decreases |s|
    ensures |parts| % 2 == 1
  {
    match FindSegment(s, f, 0)
    case None => [s]
    case Some((i, j)) => [s[..i], s[i..j + 1]] + SplitSegments(s[j + 1..], f)
  }

  /** The strings one after the other. */
  function Concat(parts: seq<string>): string
  {
    if parts == [] then [] else parts[0] + Concat(parts[1..])
  }

  lemma {:induction false} ConcatAppend(a: seq<string>, b: seq<string>)
    ensures Concat(a + b) == Concat(a) + Concat(b)
  {
    if a != [] {
      assert (a + b)[1..] == a[1..] + b;
      ConcatAppend(a[1..], b);
      assert Concat(a + b) == a[0] + Concat(a[1..] + b);
    } else {
      assert a + b == b;
    }
  }

  /** Cutting a string into text and segments loses nothing. */
  lemma {:induction false} SplitSegmentsConcat(s: string, f: Flag)
    ensures Concat(SplitSegments(s, f)) == s
    decreases |s|
  {
    match FindSegment(s, f, 0)
    case None =>
    case Some((i, j)) =>
      var rest := s[j + 1..];
      SplitSegmentsConcat(rest, f);
      ConcatAppend([s[..i], s[i..j + 1]], SplitSegments(rest, f));
      assert Concat([s[..i], s[i..j + 1]]) == s[..i] + s[i..j + 1];
      assert s == s[..i] + s[i..j + 1] + rest;
  }

  /** A bracketed segment: the open character, then neither closing characters nor
      newlines, then the closing character. */
  predicate Bracketed(part: string, f: Flag)
  {
    |part| >= 2 && part[0] == f.opn && part[|part| - 1] == f.clo &&
    forall q :: 1 <= q < |part| - 1 ==> part[q] != f.clo && part[q] != '\n'
  }

  /** The text from an open character to the first closing character after it. */
  lemma SegmentBracketed(s: string, f: Flag, i: nat, j: nat)
    requires i < |s| && s[i] == f.opn && CloseFrom(s, f.clo, i + 1) == Some(j)
    ensures Bracketed(s[i..j + 1], f)
  {
    var seg := s[i..j + 1];
    assert seg[0] == s[i] && seg[|seg| - 1] == s[j];
    forall q | 1 <= q < |seg| - 1
      ensures seg[q] != f.clo && seg[q] != '\n'
    {
      assert seg[q] == s[i + q];
    }
  }

  /** The parts at odd positions are bracketed segments. */
  predicate OddBracketed(parts: seq<string>, f: Flag)
  {
    forall k :: 0 <= k < |parts| && k % 2 == 1 ==> Bracketed(parts[k], f)
  }

  lemma {:induction false} SegmentsBracketed(s: string, f: Flag)
    ensures OddBracketed(SplitSegments(s, f), f)
    decreases |s|
  {
    match FindSegment(s, f, 0)
    case None =>
    case Some((i, j)) =>
      var rest := s[j + 1..];
      SegmentsBracketed(rest, f);
      SegmentBracketed(s, f, i, j);
      var tail := SplitSegments(rest, f);
      var parts := [s[..i], s[i..j + 1]] + tail;
      assert parts == SplitSegments(s, f);
      forall k | 0 <= k < |parts| && k % 2 == 1
        ensures Bracketed(parts[k], f)
      {
        if k == 1 {
          assert parts[k] == s[i..j + 1];
        } else {
          assert parts[k] == tail[k - 2];
          assert 0 <= k - 2 < |tail| && (k - 2) % 2 == 1;
        }
      }
  }

  /** `re.match("[opn](.*?)[sep](.*?)[clo]", part)`, trying the separator at index
      `p` and later: the shortest first group that a separator and then a reachable
      closing character follow. */
  function MatchFrom(part: string, f: Flag, p: nat): (r: Option<(string, string)>)
    requires 1 <= p
    decreases |part| - p
    ensures r.Some? ==> exists a, b ::
      (p <= a < b < |part| && part[a] == f.sep && part[b] == f.clo &&
       r.value == (part[1..a], part[a + 1..b]) &&
       (forall q :: p <= q < a ==> part[q] != '\n') && CloseFrom(part, f.clo, a + 1) == Some(b))
  {
    if p >= |part| then None
    else if part[p] == f.sep && CloseFrom(part, f.clo, p + 1).Some? then
      var b := CloseFrom(part, f.clo, p + 1).value;
      assert p < b < |part| && part[b] == f.clo;
      Some((part[1..p], part[p + 1..b]))
    else if part[p] == '\n' then None
    else
      var r := MatchFrom(part, f, p + 1);
      assert r.Some? ==> part[p] != '\n';
      r
  }

  /** The two groups of `re.match("[opn](.*?)[sep](.*?)[clo]", part)`, if it matches:
      the shown text and the style key. */
  function MatchStyled(part: string, f: Flag): (r: Option<(string, string)>)
    ensures r.Some? ==> |part| >= 1 && part[0] == f.opn
    ensures r.Some? ==> exists a, b :: 1 <= a < b < |part| && part[a] == f.sep && part[b] == f.clo &&
                                      r.value == (part[1..a], part[a + 1..b])
  {
    if |part| == 0 || part[0] != f.opn then None else MatchFrom(part, f, 1)
  }

  /** A segment without the separator does not match and is shown as it stands. */
  lemma UnseparatedLiteral(part: string, f: Flag)
    requires f.sep !in part
    ensures MatchStyled(part, f) == None
  {
  }

  /** A bracketed segment that matches is exactly `opn + text + sep + key + clo`. */
  lemma SegmentParts(part: string, f: Flag)
    requires Bracketed(part, f) && MatchStyled(part, f).Some?
    ensures var (t, key) := MatchStyled(part, f).value;
      part == [f.opn] + t + [f.sep] + key + [f.clo]
  {
    var r := MatchFrom(part, f, 1);
    var a, b :| 1 <= a < b < |part| && part[a] == f.sep && part[b] == f.clo &&
      r.value == (part[1..a], part[a + 1..b]) && CloseFrom(part, f.clo, a + 1) == Some(b);
    LastClose(part, f, b);
    Around(part, a, b);
  }

  /** In a bracketed segment the only closing character is the last one. */
  lemma LastClose(part: string, f: Flag, b: nat)
    requires Bracketed(part, f) && 1 <= b < |part| && part[b] == f.clo
    ensures b == |part| - 1
  {
  }

  lemma Around(part: string, a: nat, b: nat)
    requires 0 < a < b == |part| - 1
    ensures part == [part[0]] + part[1..a] + [part[a]] + part[a + 1..b] + [part[b]]
  {
    assert part == part[..1] + part[1..a] + part[a..a + 1] + part[a + 1..b] + part[b..];
  }

  // ---------------------------------------------------------------------------
  // The style key

  /** The characters Python's `str.isspace` accepts, which `int()` strips. */
  predicate IsSpace(c: char)
  {
    c == ' ' || '\t' <= c <= '\r' || '\U{1C}' <= c <= '\U{1F}' || c == '\U{85}' || c == '\U{A0}' ||
    c == '\U{1680}' || '\U{2000}' <= c <= '\U{200A}' || c == '\U{2028}' || c == '\U{2029}' ||
    c == '\U{202F}' || c == '\U{205F}' || c == '\U{3000}'
  }

  /** The string without its leading and trailing blanks. */
  function Strip(s: string): (r: string)
    decreases |s|
    ensures |r| <= |s|
    ensures r != [] ==> !IsSpace(r[0]) && !IsSpace(r[|r| - 1])
    ensures forall i :: 0 <= i < |s| && !IsSpace(s[i]) ==> r != []
  {
    if s == [] then []
    else if IsSpace(s[0]) then Strip(s[1..])
    else if IsSpace(s[|s| - 1]) then Strip(s[..|s| - 1])
    else s
  }

  /** `int(key)` on ASCII text: an optional sign and decimal digits between blanks. */
  function ParseInt(key: string): (r: Result<int>)
    ensures r.Err? ==> r.error == BadInt
  {
    var t := Strip(key);
    var neg := t != [] && t[0] == '-';
    var ds := if t != [] && (t[0] == '-' || t[0] == '+') then t[1..] else t;
    if ds == [] || exists i :: 0 <= i < |ds| && !IsDigit(ds[i]) then Err(BadInt)
    else Ok(if neg then -(DigitsValue(ds) as int) else DigitsValue(ds) as int)
  }

  /** `str(k)`. */
  function IntString(k: int): string
  {
    if k < 0 then "-" + NatDigits(-k) else NatDigits(k)
  }

  /** `int` reads back what `str` writes. */
  lemma IntStringRoundTrip(k: int)
    ensures ParseInt(IntString(k)) == Ok(k)
  {
    var s := IntString(k);
    var ds := NatDigits(if k < 0 then -k else k);
    DigitsOfNat(if k < 0 then -k else k);
    assert Strip(s) == s;
    if k < 0 {
      assert s[1..] == ds;
    }
  }

  // ---------------------------------------------------------------------------
  // The lines of styled pieces

  /** A `TextArea`: a piece of text and its text properties. */
  datatype Piece = Piece(text: string, style: Kwargs)

  /** The style table `highlight`, by integer key. */
  type Highlight = map<int, Kwargs>

  /** What a part shows: the first group of a matching segment, or the part itself. */
  function Shown(part: string, f: Flag): string
  {
    match MatchStyled(part, f)
    case None => part
    case Some((t, _)) => t
  }

  /** The style of a part: the base options, updated with the highlight style of a
      matching segment's key. */
  function PartStyle(part: string, f: Flag, base: Kwargs, highlight: Highlight): (r: Result<Kwargs>)
    ensures r.Err? ==> r.error == BadInt || r.error == MissingStyle
    ensures MatchStyled(part, f).None? ==> r == Ok(base)
  {
    match MatchStyled(part, f)
    case None => Ok(base)
    case Some((_, key)) =>
      var k := ParseInt(key);
      if k.Err? then Err(BadInt)
      else if k.value !in highlight then Err(MissingStyle)
      else Ok(base + highlight[k.value])
  }

  /** One row of a part: the first row continues the current line, every later row
      starts a new one. */
  function RowStep(lines: seq<seq<Piece>>, i: nat, row: string, style: Kwargs): (r: seq<seq<Piece>>)
    requires |lines| >= 1
    ensures |r| >= 1
  {
    var ls := if i == 0 then lines else lines + [[]];
    ls[|ls| - 1 := ls[|ls| - 1] + [Piece(row, style)]]
  }

  /** The rows of a part, one after the other. */
  function AddRows(lines: seq<seq<Piece>>, rows: seq<string>, style: Kwargs): (r: seq<seq<Piece>>)
    requires |lines| >= 1
    ensures |r| >= 1
    decreases |rows|
  {
    if rows == [] then lines
    else RowStep(AddRows(lines, rows[..|rows| - 1], style), |rows| - 1, rows[|rows| - 1], style)
  }

  /** The lines of the given parts, from a single empty line. */
  function LinesOf(parts: seq<string>, f: Flag, base: Kwargs, highlight: Highlight): (r: Result<seq<seq<Piece>>>)
    ensures r.Ok? ==> |r.value| >= 1
    ensures r.Err? ==> r.error == BadInt || r.error == MissingStyle
    decreases |parts|
  {
    if parts == [] then Ok([[]])
    else
      var prev := LinesOf(parts[..|parts| - 1], f, base, highlight);
      if prev.Err? then prev
      else
        var part := parts[|parts| - 1];
        var style := PartStyle(part, f, base, highlight);
        if style.Err? then Err(style.error)
        else Ok(AddRows(prev.value, Split(Shown(part, f), '\n'), style.value))
  }

  /** `_generate_lines`: the lines of styled pieces of a marked-up string. */
  function MarkupLines(s: string, f: Flag, base: Kwargs, highlight: Highlight): (r: Result<seq<seq<Piece>>>)
    ensures r.Ok? ==> |r.value| >= 1
    ensures r.Err? ==> r.error == BadInt || r.error == MissingStyle
  {
    LinesOf(SplitSegments(s, f), f, base, highlight)
  }

  /** Once a part fails, the lines of every longer sequence of parts fail the same way. */
  lemma {:induction false} FailureStays(parts: seq<string>, k: nat, f: Flag, base: Kwargs, highlight: Highlight)
    requires k <= |parts| && LinesOf(parts[..k], f, base, highlight).Err?
    ensures LinesOf(parts, f, base, highlight) == LinesOf(parts[..k], f, base, highlight)
    decreases |parts|
  {
    if k < |parts| {
      var init := parts[..|parts| - 1];
      assert init[..k] == parts[..k];
      FailureStays(init, k, f, base, highlight);
    } else {
      assert parts[..k] == parts;
    }
  }

  /** One more part: its rows are added to the lines so far, or its key fails. */
  lemma LinesStep(parts: seq<string>, k: nat, f: Flag, base: Kwargs, highlight: Highlight)
    requires k < |parts| && LinesOf(parts[..k], f, base, highlight).Ok?
    ensures var style := PartStyle(parts[k], f, base, highlight);
      LinesOf(parts[..k + 1], f, base, highlight) ==
        if style.Err? then Err(style.error)
        else Ok(AddRows(LinesOf(parts[..k], f, base, highlight).value, Split(Shown(parts[k], f), '\n'), style.value))
  {
    assert parts[..k + 1][..k] == parts[..k];
    assert parts[..k + 1][k] == parts[k];
  }

  /** The inner loop of `_generate_lines`: the rows of one part, appended with the line
      counter `n`. */
  method AppendRows(lines: seq<seq<Piece>>, n: nat, rows: seq<string>, opts: Kwargs)
    returns (res: seq<seq<Piece>>, m: nat)
    requires n == |lines| - 1
    ensures res == AddRows(lines, rows, opts) && m == |res| - 1
  {
    res, m := lines, n;
    var i := 0;
    while i < |rows|
      invariant 0 <= i <= |rows|
      invariant res == AddRows(lines, rows[..i], opts)
      invariant m == |res| - 1
    {
      assert rows[..i + 1][..i] == rows[..i];
      if i != 0 {
        res := res + [[]];
        m := m + 1;
      }
      res := res[m := res[m] + [Piece(rows[i], opts)]];
      i := i + 1;
    }
    assert rows[..|rows|] == rows;
  }

  /** The body of the outer loop of `_generate_lines` up to its rows: a matching
      segment's key becomes an integer, which must name a highlight style; the
      options are then the base options updated with that style. */
  method StylePart(part: string, f: Flag, base: Kwargs, highlight: Highlight) returns (r: Result<(string, Kwargs)>)
    ensures r.Ok? <==> PartStyle(part, f, base, highlight).Ok?
    ensures r.Ok? ==> r.value.0 == Shown(part, f) && r.value.1 == PartStyle(part, f, base, highlight).value
    ensures r.Err? ==> r.error == PartStyle(part, f, base, highlight).error
  {
    var m := MatchStyled(part, f);
    if m.None? {
      return Ok((part, base));
    }
    var fmt := ParseInt(m.value.1);
    if fmt.Err? {
      return Err(BadInt);
    }
    if fmt.value !in highlight {
      return Err(MissingStyle);
    }
    r := Ok((m.value.0, base + highlight[fmt.value]));
  }

  /** `_generate_lines` as the source runs it: a loop over the parts, each styled by
      its key and cut into rows. */
  method GenerateLines(s: string, f: Flag, base: Kwargs, highlight: Highlight) returns (r: Result<seq<seq<Piece>>>)
    ensures r == MarkupLines(s, f, base, highlight)
  {
    var parts := SplitSegments(s, f);
    var lines: seq<seq<Piece>> := [[]];
    var n: nat := 0;
    var k := 0;
    while k < |parts|
      invariant 0 <= k <= |parts|
      invariant LinesOf(parts[..k], f, base, highlight) == Ok(lines)
      invariant n == |lines| - 1
    {
      LinesStep(parts, k, f, base, highlight);
      var styled := StylePart(parts[k], f, base, highlight);
      if styled.Err? {
        FailureStays(parts, k + 1, f, base, highlight);
        return Err(styled.error);
      }
      var (part, opts) := styled.value;
      lines, n := AppendRows(lines, n, Split(part, '\n'), opts);
      k := k + 1;
    }
    assert parts[..|parts|] == parts;
    r := Ok(lines);
  }

  // ---------------------------------------------------------------------------
  // What the lines promise

  /** The text of a line: its pieces one after the other. */
  function LineText(line: seq<Piece>): string
  {
    if line == [] then [] else LineText(line[..|line| - 1]) + line[|line| - 1].text
  }

  function LineTexts(lines: seq<seq<Piece>>): (ts: seq<string>)
    ensures |ts| == |lines|
    ensures forall i :: 0 <= i < |lines| ==> ts[i] == LineText(lines[i])
  {
    seq(|lines|, i requires 0 <= i < |lines| => LineText(lines[i]))
  }

  /** What the string shows: each part's shown text, one after the other. */
  function Visible(parts: seq<string>, f: Flag): string
  {
    if parts == [] then [] else Visible(parts[..|parts| - 1], f) + Shown(parts[|parts| - 1], f)
  }

  /** Appending to the last of several strings appends to their join. */
  lemma {:induction false} JoinExtendLast(xs: seq<string>, t: string, c: char)
    requires |xs| >= 1
    ensures Join(xs[..|xs| - 1] + [xs[|xs| - 1] + t], c) == Join(xs, c) + t
    decreases |xs|
  {
    if |xs| > 1 {
      var ys := xs[..|xs| - 1] + [xs[|xs| - 1] + t];
      assert ys[1..] == xs[1..][..|xs[1..]| - 1] + [xs[1..][|xs[1..]| - 1] + t];
      JoinExtendLast(xs[1..], t, c);
    }
  }

  /** Adding a string at the end adds a separator and the string to the join. */
  lemma {:induction false} JoinAppend(xs: seq<string>, t: string, c: char)
    requires |xs| >= 1
    ensures Join(xs + [t], c) == Join(xs, c) + [c] + t
    decreases |xs|
  {
    if |xs| > 1 {
      assert (xs + [t])[1..] == xs[1..] + [t];
      JoinAppend(xs[1..], t, c);
    }
  }

  lemma JoinPrefix(xs: seq<string>, c: char)
    requires |xs| >= 2
    ensures Join(xs, c) == Join(xs[..|xs| - 1], c) + [c] + xs[|xs| - 1]
  {
    var init := xs[..|xs| - 1];
    assert init + [xs[|xs| - 1]] == xs;
    JoinAppend(init, xs[|xs| - 1], c);
  }

  /** The first row of a part extends the text of the last line. */
  lemma RowStepFirst(lines: seq<seq<Piece>>, row: string, style: Kwargs)
    requires |lines| >= 1
    ensures var ts := LineTexts(lines);
      LineTexts(RowStep(lines, 0, row, style)) == ts[..|ts| - 1] + [ts[|ts| - 1] + row]
  {
    var last := lines[|lines| - 1];
    var piece := Piece(row, style);
    assert (last + [piece])[..|last|] == last;
    assert LineText(last + [piece]) == LineText(last) + row;
    var r := RowStep(lines, 0, row, style);
    var ts := LineTexts(lines);
    var us := ts[..|ts| - 1] + [ts[|ts| - 1] + row];
    forall j | 0 <= j < |lines|
      ensures LineTexts(r)[j] == us[j]
    {
      if j < |lines| - 1 {
        assert r[j] == lines[j];
      }
    }
  }

  /** A later row of a part is a new line of its own. */
  lemma RowStepNew(lines: seq<seq<Piece>>, i: nat, row: string, style: Kwargs)
    requires |lines| >= 1 && i > 0
    ensures LineTexts(RowStep(lines, i, row, style)) == LineTexts(lines) + [row]
  {
    var piece := Piece(row, style);
    assert ([] + [piece])[..0] == [];
    assert LineText([] + [piece]) == row;
    var r := RowStep(lines, i, row, style);
    var us := LineTexts(lines) + [row];
    forall j | 0 <= j < |r|
      ensures LineTexts(r)[j] == us[j]
    {
      if j < |lines| {
        assert r[j] == lines[j];
      }
    }
  }

  /** The rows of a part continue the text of the lines: the last line's text grows by
      the first row, and each further row is a new line after a newline. */
  lemma {:induction false} AddRowsText(lines: seq<seq<Piece>>, rows: seq<string>, style: Kwargs)
    requires |lines| >= 1 && |rows| >= 1
    ensures Join(LineTexts(AddRows(lines, rows, style)), '\n') == Join(LineTexts(lines), '\n') + Join(rows, '\n')
    decreases |rows|
  {
    var n := |rows|;
    if n == 1 {
      assert rows[..0] == [];
      RowStepFirst(lines, rows[0], style);
      JoinExtendLast(LineTexts(lines), rows[0], '\n');
    } else {
      var prev := AddRows(lines, rows[..n - 1], style);
      AddRowsText(lines, rows[..n - 1], style);
      RowStepNew(prev, n - 1, rows[n - 1], style);
      JoinAppend(LineTexts(prev), rows[n - 1], '\n');
      JoinPrefix(rows, '\n');
    }
  }

  /** Joining the lines' texts with newlines gives what the string shows: the string
      with each matching segment `[t:k]` replaced by `t`. */
  lemma {:induction false} LinesShowText(parts: seq<string>, f: Flag, base: Kwargs, highlight: Highlight)
    requires LinesOf(parts, f, base, highlight).Ok?
    ensures Join(LineTexts(LinesOf(parts, f, base, highlight).value), '\n') == Visible(parts, f)
    decreases |parts|
  {
    if parts != [] {
      var init := parts[..|parts| - 1];
      LinesShowText(init, f, base, highlight);
      var part := parts[|parts| - 1];
      var prev := LinesOf(init, f, base, highlight).value;
      var style := PartStyle(part, f, base, highlight).value;
      AddRowsText(prev, Split(Shown(part, f), '\n'), style);
      JoinSplit(Shown(part, f), '\n');
    } else {
      assert LineTexts([[]]) == [[]];
    }
  }

  /** No piece of the lines holds a newline. */
  ghost predicate SingleRowPieces(lines: seq<seq<Piece>>)
  {
    forall i, k :: 0 <= i < |lines| && 0 <= k < |lines[i]| ==> '\n' !in lines[i][k].text
  }

  lemma {:induction false} SingleRowText(line: seq<Piece>)
    requires forall k :: 0 <= k < |line| ==> '\n' !in line[k].text
    ensures '\n' !in LineText(line)
    decreases |line|
  {
    if line != [] {
      SingleRowText(line[..|line| - 1]);
    }
  }

  lemma RowStepSingle(lines: seq<seq<Piece>>, i: nat, row: string, style: Kwargs)
    requires |lines| >= 1 && SingleRowPieces(lines) && '\n' !in row
    ensures SingleRowPieces(RowStep(lines, i, row, style))
  {
    var r: seq<seq<Piece>> := RowStep(lines, i, row, style);
    forall j: nat, k: nat | j < |r| && k < |r[j]|
      ensures '\n' !in r[j][k].text
    {
      if j < |lines| - 1 || (i != 0 && j < |lines|) {
        assert r[j] == lines[j];
      } else if i == 0 && k < |lines[j]| {
        assert r[j][k] == lines[j][k];
      }
    }
  }

  lemma {:induction false} AddRowsSingle(lines: seq<seq<Piece>>, rows: seq<string>, style: Kwargs)
    requires |lines| >= 1 && SingleRowPieces(lines)
    requires forall j :: 0 <= j < |rows| ==> '\n' !in rows[j]
    ensures SingleRowPieces(AddRows(lines, rows, style))
    decreases |rows|
  {
    if rows != [] {
      AddRowsSingle(lines, rows[..|rows| - 1], style);
      RowStepSingle(AddRows(lines, rows[..|rows| - 1], style), |rows| - 1, rows[|rows| - 1], style);
    }
  }

  /** No piece holds a newline: newlines only ever separate lines. */
  lemma {:induction false} LinesSingleRow(parts: seq<string>, f: Flag, base: Kwargs, highlight: Highlight)
    requires LinesOf(parts, f, base, highlight).Ok?
    ensures SingleRowPieces(LinesOf(parts, f, base, highlight).value)
    decreases |parts|
  {
    if parts != [] {
      var init := parts[..|parts| - 1];
      LinesSingleRow(init, f, base, highlight);
      var part := parts[|parts| - 1];
      var prev := LinesOf(init, f, base, highlight).value;
      var style := PartStyle(part, f, base, highlight).value;
      AddRowsSingle(prev, Split(Shown(part, f), '\n'), style);
    }
  }

  /** The text shown by the pieces of a marked-up string, line by line, is the string
      with each segment `[t:k]` replaced by `t`, and there is one line more than that
      text has newlines. */
  lemma MarkupRoundTrip(s: string, f: Flag, base: Kwargs, highlight: Highlight)
    requires MarkupLines(s, f, base, highlight).Ok?
    ensures var lines := MarkupLines(s, f, base, highlight).value;
      Join(LineTexts(lines), '\n') == Visible(SplitSegments(s, f), f) &&
      |lines| == 1 + Count(Visible(SplitSegments(s, f), f), '\n')
  {
    var parts := SplitSegments(s, f);
    var lines := MarkupLines(s, f, base, highlight).value;
    LinesShowText(parts, f, base, highlight);
    LinesSingleRow(parts, f, base, highlight);
    var ts := LineTexts(lines);
    forall i | 0 <= i < |ts|
      ensures '\n' !in ts[i]
    {
      SingleRowText(lines[i]);
    }
    SplitJoin(ts, '\n');
    SplitCount(Join(ts, '\n'), '\n');
  }

  /** A string without the open character is a single part: each of its rows is a
      line of one piece in the base style. */
  lemma PlainMarkup(s: string, f: Flag, base: Kwargs, highlight: Highlight)
    requires f.opn !in s
    ensures SplitSegments(s, f) == [s]
    ensures MarkupLines(s, f, base, highlight).Ok?
    ensures var lines := MarkupLines(s, f, base, highlight).value;
      var rows := Split(s, '\n');
      |lines| == |rows| && forall i :: 0 <= i < |rows| ==> lines[i] == [Piece(rows[i], base)]
  {
    forall i | 0 <= i < |s|
      ensures !OpensAt(s, f, i)
    {
      assert s[i] in s;
    }
    assert FindSegment(s, f, 0).None?;
    assert SplitSegments(s, f) == [s];
    assert MatchStyled(s, f).None? by {
      if |s| > 0 {
        assert s[0] in s;
      }
    }
    assert [s][..0] == [];
    assert LinesOf([s], f, base, highlight) == Ok(AddRows([[]], Split(s, '\n'), base));
    PlainRows([[]], Split(s, '\n'), base);
  }

  lemma {:induction false} PlainRows(lines: seq<seq<Piece>>, rows: seq<string>, style: Kwargs)
    requires lines == [[]] && |rows| >= 1
    ensures var r := AddRows(lines, rows, style);
      |r| == |rows| && forall i :: 0 <= i < |rows| ==> r[i] == [Piece(rows[i], style)]
    decreases |rows|
  {
    if |rows| > 1 {
      PlainRows(lines, rows[..|rows| - 1], style);
    } else {
      assert rows[..0] == [];
    }
  }
}
