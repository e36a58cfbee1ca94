/** Failure values and the string helpers shared by every part of the model.

    Each Python exception that a core function can raise (or the unbound local
    variable it can read) becomes one constructor of `Error`, and every operation
    that can fail returns a `Result`. */
module Base {

  /** The ways in which a core operation stops without a result. */
  datatype Error =
    | NoFigure            // the object is neither a figure nor has a `figure` attribute
    | NoAttribute         // `transAxes` / `transData` asked of an object that has none
    | UnitNoMatch         // the unit string does not start with `[0-9.]+\w+`; `val` is unbound
    | BadNumber           // `float()` refuses the digits-and-dots prefix
    | BadUnit             // a unit suffix outside pt/pc/in/mm/cm and their spellings
    | BadAnchor           // an anchor key outside bl/tl/tr/br
    | UnknownSystem       // a system name that the mpltypo dispatcher does not know
    | NoSystems           // an empty system list: the result variable is never bound
    | ZeroDivision        // a Python division by zero
    | Degenerate          // a zero unit scale: the source builds a transform of non-finite values
    | Singular            // inverting a transform that has no inverse
    | BadAlignment        // an alignment name outside the accepted list
    | BadRect             // a margin rectangle that is not a list of length 2 or 4
    | BadShape            // a flat rectangle of odd length cannot be reshaped into pairs
    | NoAxis              // `align_ticklabels` without axis 'x' or 'y'
    | BadParent           // the parent of a multi-colour text is neither Axes nor Figure
    | BadFlag             // the bracket flag is not a string of three characters
    | BadInt              // `int()` refuses the style index of a bracketed segment
    | MissingStyle        // the style index is not a key of the highlight table
    | NoPosition          // both coordinates of a multi-colour text are None
    | PartialPosition     // only one coordinate is given; the transform call fails on None
    | DuplicateKeyword    // `transform` given twice to the wrapped call
    | NonFiniteLimits     // the new axis limits would be infinite or NaN; set_xlim refuses them
    | ZeroStep            // `np.arange` with step 0
    | NoDotgrid           // the dot grid is hidden before it was ever drawn

  datatype Option<+T> = None | Some(value: T)

  datatype Result<+T> = Ok(value: T) | Err(error: Error) {
    predicate IsFailure() { Err? }

    function PropagateFailure<U>(): Result<U>
      requires Err?
    {
      Err(error)
    }

    function Extract(): T
      requires Ok?
    {
      value
    }
  }

  /** Python's `str.split(c)` for a one-character separator: never empty. */
  function Split(s: string, c: char): (parts: seq<string>)
    ensures |parts| >= 1
    ensures forall i :: 0 <= i < |parts| ==> c !in parts[i]
  {
    if s == [] then [[]]
    else if s[0] == c then [[]] + Split(s[1..], c)
    else
      var rest := Split(s[1..], c);
      [[s[0]] + rest[0]] + rest[1..]
  }

  /** Python's `c.join(parts)`. */
  function Join(parts: seq<string>, c: char): string
  {
    if |parts| == 0 then []
    else if |parts| == 1 then parts[0]
    else parts[0] + [c] + Join(parts[1..], c)
  }

  /** The number of occurrences of `c` in `s`. */
  function Count(s: string, c: char): nat
  {
    if s == [] then 0 else (if s[0] == c then 1 else 0) + Count(s[1..], c)
  }

  lemma {:induction false} CountAppend(a: string, b: string, c: char)
    ensures Count(a + b, c) == Count(a, c) + Count(b, c)
  {
    if a != [] {
      assert (a + b)[1..] == a[1..] + b;
      CountAppend(a[1..], b, c);
    } else {
      assert a + b == b;
    }
  }

  lemma {:induction false} CountAbsent(s: string, c: char)
    requires c !in s
    ensures Count(s, c) == 0
  {
    if s != [] {
      CountAbsent(s[1..], c);
    }
  }

  lemma {:induction false} CountPresent(s: string, c: char)
    requires c in s
    ensures Count(s, c) > 0
  {
    if s[0] != c {
      CountPresent(s[1..], c);
    }
  }

  /** Splitting and joining again gives back the string. */
  lemma {:induction false} JoinSplit(s: string, c: char)
    ensures Join(Split(s, c), c) == s
  {
    if s == [] {
    } else if s[0] == c {
      JoinSplit(s[1..], c);
      var rest := Split(s[1..], c);
      assert Split(s, c) == [[]] + rest;
      assert ([[]] + rest)[1..] == rest;
    } else {
      JoinSplit(s[1..], c);
      var rest := Split(s[1..], c);
      var parts := [[s[0]] + rest[0]] + rest[1..];
      assert Split(s, c) == parts;
      if |rest| == 1 {
        assert Join(parts, c) == [s[0]] + rest[0];
      } else {
        assert parts[1..] == rest[1..];
        assert Join(rest, c) == rest[0] + [c] + Join(rest[1..], c);
      }
    }
  }

  /** There is one piece more than there are separators. */
  lemma {:induction false} SplitCount(s: string, c: char)
    ensures |Split(s, c)| == Count(s, c) + 1
  {
    if s != [] {
      SplitCount(s[1..], c);
    }
  }

  /** Joining pieces that hold no separator and splitting again gives back the pieces. */
  lemma {:induction false} SplitJoin(parts: seq<string>, c: char)
    requires |parts| >= 1
    requires forall i :: 0 <= i < |parts| ==> c !in parts[i]
    ensures Split(Join(parts, c), c) == parts
  {
    if |parts| == 1 {
      SplitPlain(parts[0], c);
    } else {
      SplitJoin(parts[1..], c);
      var tail := Join(parts[1..], c);
      SplitSeparated(parts[0], tail, c);
      assert [parts[0]] + parts[1..] == parts;
    }
  }

  lemma {:induction false} SplitPlain(s: string, c: char)
    requires c !in s
    ensures Split(s, c) == [s]
  {
    if s != [] {
      assert s[0] != c;
      SplitPlain(s[1..], c);
      assert [s[0]] + s[1..] == s;
    }
  }

  lemma {:induction false} SplitSeparated(a: string, b: string, c: char)
    requires c !in a
    ensures Split(a + [c] + b, c) == [a] + Split(b, c)
  {
    if a == [] {
      assert a + [c] + b == [c] + b;
      assert ([c] + b)[1..] == b;
    } else {
      assert (a + [c] + b)[1..] == a[1..] + [c] + b;
      SplitSeparated(a[1..], b, c);
      assert [a[0]] + a[1..] == a;
    }
  }
}
