/** Python and NumPy value semantics that the oscillator code relies on,
    stated over Dafny's unbounded `real`: float64 special values, the
    exceptions the code can raise, `int()` truncation, `np.arange`, slicing,
    `sum`/`np.mean`, `np.diff`, and the builtin `max`/`min`. */
module PyNumerics {

  // ---------------------------------------------------------------------
  // Exceptions

  /** The Python exceptions the modelled code can raise. */
  datatype PyError = ZeroDivisionError | IndexError | ValueError | RuntimeError

  /** A value, or the exception raised while computing it. */
  datatype Result<T> = Ok(value: T) | Err(error: PyError) {
    predicate IsFailure() { Err? }
    function PropagateFailure<U>(): Result<U> requires Err? { Err(error) }
    function Extract(): T requires Ok? { value }
  }

  /** `[f(x) for x in xs]` where f may raise: the first element whose f
      raises ends the comprehension with that exception. */
  function MapOrRaise<X, Y>(f: X -> Result<Y>, xs: seq<X>): (r: Result<seq<Y>>)
    decreases |xs|
    ensures r.Ok? ==> |r.value| == |xs|
  {
    if |xs| == 0 then Ok([])
    else
      var prev :- MapOrRaise(f, xs[..|xs| - 1]);
      var y :- f(xs[|xs| - 1]);
      Ok(prev + [y])
  }

  /** A comprehension succeeds exactly when f succeeds on every element,
      entry i is f's value on element i, and a failure is the exception of
      some element. */
  lemma {:induction false} MapOrRaiseEntries<X, Y>(f: X -> Result<Y>, xs: seq<X>)
    ensures MapOrRaise(f, xs).Ok? <==> forall i :: 0 <= i < |xs| ==> f(xs[i]).Ok?
    ensures MapOrRaise(f, xs).Ok? ==> forall i :: 0 <= i < |xs| ==> f(xs[i]) == Ok(MapOrRaise(f, xs).value[i])
    ensures MapOrRaise(f, xs).Err? ==> exists i :: 0 <= i < |xs| && f(xs[i]) == Err(MapOrRaise(f, xs).error)
    decreases |xs|
  {
    if |xs| > 0 {
      var front := xs[..|xs| - 1];
      MapOrRaiseEntries(f, front);
      assert forall i :: 0 <= i < |front| ==> front[i] == xs[i];
    }
  }

  /** A failing prefix fails the whole comprehension with the same
      exception. */
  lemma {:induction false} MapOrRaisePrefixErr<X, Y>(f: X -> Result<Y>, xs: seq<X>, j: nat)
    requires j <= |xs| && MapOrRaise(f, xs[..j]).Err?
    ensures MapOrRaise(f, xs) == MapOrRaise(f, xs[..j])
    decreases |xs|
  {
    if j < |xs| {
      assert xs[..|xs| - 1][..j] == xs[..j];
      MapOrRaisePrefixErr(f, xs[..|xs| - 1], j);
    } else {
      assert xs[..j] == xs;
    }
  }

  /** One more element extends a successful comprehension by f's value on
      it. */
  lemma MapOrRaiseSnoc<X, Y>(f: X -> Result<Y>, xs: seq<X>, i: nat, done: seq<Y>, y: Y)
    requires i < |xs| && MapOrRaise(f, xs[..i]) == Ok(done) && f(xs[i]) == Ok(y)
    ensures MapOrRaise(f, xs[..i + 1]) == Ok(done + [y])
  {
    assert xs[..i + 1][..i] == xs[..i];
  }

  // ---------------------------------------------------------------------
  // float64 values

  /** A float64 outcome: a finite value (as a real), an infinity, or NaN.
      Signed zero is not distinguished. */
  datatype Float = Fin(val: real) | PosInf | NegInf | NaN

  /** The sign of a value: -1, 0 or 1 (0 for NaN). */
  function Sign(a: Float): int {
    match a
    case Fin(x) => if x > 0.0 then 1 else if x < 0.0 then -1 else 0
    case PosInf => 1
    case NegInf => -1
    case NaN => 0
  }

  /** The infinity of the given sign, NaN for sign 0. */
  function InfOfSign(s: int): Float {
    if s > 0 then PosInf else if s < 0 then NegInf else NaN
  }

  function Neg(a: Float): Float {
    match a
    case Fin(x) => Fin(-x)
    case PosInf => NegInf
    case NegInf => PosInf
    case NaN => NaN
  }

  /** IEEE-754 addition. */
  function Add(a: Float, b: Float): Float {
    match (a, b)
    case (Fin(x), Fin(y)) => Fin(x + y)
    case (NaN, _) => NaN
    case (_, NaN) => NaN
    case (PosInf, NegInf) => NaN
    case (NegInf, PosInf) => NaN
    case (PosInf, _) => PosInf
    case (NegInf, _) => NegInf
    case (_, PosInf) => PosInf
    case (_, NegInf) => NegInf
  }

  /** IEEE-754 subtraction. */
  function Sub(a: Float, b: Float): Float {
    Add(a, Neg(b))
  }

  /** IEEE-754 multiplication (infinity times zero is NaN). */
  function Mul(a: Float, b: Float): Float {
    match (a, b)
    case (Fin(x), Fin(y)) => Fin(x * y)
    case (NaN, _) => NaN
    case (_, NaN) => NaN
    case _ => InfOfSign(Sign(a) * Sign(b))
  }

  /** NumPy float64 division of two finite values: x / 0 is an infinity of
      the sign of x, and 0 / 0 is NaN; no exception is raised. */
  function Quot(x: real, y: real): (r: Float)
    ensures r.Fin? <==> y != 0.0
  {
    if y != 0.0 then Fin(x / y) else InfOfSign(Sign(Fin(x)))
  }

  /** IEEE-754 `a > b`: false whenever NaN is involved. */
  predicate Gt(a: Float, b: Float) {
    match (a, b)
    case (Fin(x), Fin(y)) => x > y
    case (PosInf, Fin(_)) => true
    case (PosInf, NegInf) => true
    case (Fin(_), NegInf) => true
    case _ => false
  }

  /** IEEE-754 `a < b`. */
  predicate Lt(a: Float, b: Float) {
    Gt(b, a)
  }

  /** x + 0 is x for every value (used where K = 0 removes the coupling
      term). */
  lemma AddZero(a: Float)
    ensures Add(a, Fin(0.0)) == a
  {
  }

  /** x * 1 is x for every value (used where a Hill exponent of 1 makes
      the repression term linear). */
  lemma MulOne(a: Float)
    ensures Mul(a, Fin(1.0)) == a
  {
  }

  /** A difference is finite exactly when both operands are. */
  lemma SubFinite(a: Float, b: Float)
    ensures Sub(a, b).Fin? <==> a.Fin? && b.Fin?
  {
  }

  /** A sum is finite exactly when both operands are. */
  lemma AddFinite(a: Float, b: Float)
    ensures Add(a, b).Fin? <==> a.Fin? && b.Fin?
  {
  }

  /** A finite factor keeps a product finite exactly when the other is. */
  lemma MulFinite(x: real, b: Float)
    ensures Mul(Fin(x), b).Fin? <==> b.Fin?
    ensures Mul(b, Fin(x)).Fin? <==> b.Fin?
  {
  }

  predicate AllFinite(s: seq<Float>) {
    forall i :: 0 <= i < |s| ==> s[i].Fin?
  }

  /** The reals behind an all-finite series. */
  function Values(s: seq<Float>): (r: seq<real>)
    requires AllFinite(s)
    ensures |r| == |s| && forall i :: 0 <= i < |s| ==> s[i] == Fin(r[i])
  {
    seq(|s|, i requires 0 <= i < |s| => s[i].val)
  }

  // ---------------------------------------------------------------------
  // Transcendental functions

  /** The NumPy functions and constant the models use, left uninterpreted
      except that pi is positive. */
  datatype Maths = Maths(sqrt: real -> real, cos: real -> real, pi: real)

  type NumPyMaths = m: Maths | m.pi > 0.0 witness Maths(x => x, x => x, 3.0)

  // ---------------------------------------------------------------------
  // Integer conversions

  /** `math.floor` of a real. */
  function Floor(x: real): int { x.Floor }

  /** `math.ceil` of a real. */
  function Ceil(x: real): (r: int)
    ensures r as real - 1.0 < x <= r as real
  {
    -((-x).Floor)
  }

  /** Python's `int(x)` on a float: truncation toward zero. */
  function Trunc(x: real): (r: int)
    ensures x >= 0.0 ==> 0 <= r && r as real <= x < r as real + 1.0
    ensures x < 0.0 ==> r <= 0 && r as real - 1.0 < x <= r as real
  {
    if x >= 0.0 then x.Floor else -((-x).Floor)
  }

  /** Python's `int(a / b)`; the true division raises when b is zero. */
  function TruncDiv(a: real, b: real): (r: Result<int>)
    ensures r.Err? <==> b == 0.0
  {
    if b == 0.0 then Err(ZeroDivisionError) else Ok(Trunc(a / b))
  }

  lemma {:induction false} TruncDivBrackets(a: real, b: real)
    requires b > 0.0 && a >= 0.0
    ensures TruncDiv(a, b).Ok?
    ensures var k := TruncDiv(a, b).value;
      k >= 0 && k as real * b <= a < (k + 1) as real * b
  {
    var q := a / b;
    var k := Trunc(q);
    assert TruncDiv(a, b).value == k;
    var lo, hi := k as real, (k + 1) as real;
    assert hi == lo + 1.0;
    QuotientBracket(a, b, lo, hi);
  }

  /** Bounds on a / b carry over to a once multiplied by the positive b. */
  lemma QuotientBracket(a: real, b: real, lo: real, hi: real)
    requires b > 0.0 && lo <= a / b < hi
    ensures lo * b <= a < hi * b
  {
    var q := a / b;
    assert q * b == a;
    MulMonotone(lo, q, b);
    MulMonotone(q, hi, b);
  }

  lemma MulMonotone(x: real, y: real, c: real)
    requires x <= y && c > 0.0
    ensures x * c <= y * c
    ensures x < y ==> x * c < y * c
  {
    assert (y - x) * c >= 0.0;
  }

  // ---------------------------------------------------------------------
  // np.arange

  /** The number of values `np.arange(start, stop, step)` yields. */
  function ArangeLength(start: real, stop: real, step: real): nat
    requires step != 0.0
  {
    var q := (stop - start) / step;
    if q <= 0.0 then 0 else Ceil(q)
  }

  /** `np.arange(start, stop, step)`: value j is start + j * step; a zero
      step raises. */
  function Arange(start: real, stop: real, step: real): (r: Result<seq<real>>)
    ensures r.Err? <==> step == 0.0
    ensures r.Ok? ==> |r.value| == ArangeLength(start, stop, step)
    ensures r.Ok? ==> forall j :: 0 <= j < |r.value| ==> r.value[j] == start + j as real * step
  {
    if step == 0.0 then Err(ZeroDivisionError)
    else Ok(seq(ArangeLength(start, stop, step), j => start + j as real * step))
  }

  /** With a positive step, `np.arange` yields exactly the values
      start + j * step that lie below stop, and none when start >= stop. */
  lemma {:induction false} ArangeIsHalfOpen(start: real, stop: real, step: real)
    requires step > 0.0
    ensures Arange(start, stop, step).Ok?
    ensures var vals := Arange(start, stop, step).value;
      (start >= stop ==> |vals| == 0)
      && (start < stop ==> |vals| == Ceil((stop - start) / step))
      && (forall j :: 0 <= j < |vals| ==> vals[j] < stop)
      && start + |vals| as real * step >= stop
  {
    var vals := Arange(start, stop, step).value;
    var n := |vals|;
    var q := (stop - start) / step;
    assert q * step == stop - start;
    if start >= stop {
      assert stop - start <= 0.0;
      assert q <= 0.0 by {
        if q > 0.0 {
          MulMonotone(0.0, q, step);
        }
      }
      assert n == 0;
    } else {
      assert stop - start > 0.0;
      assert q > 0.0 by {
        if q <= 0.0 {
          MulMonotone(q, 0.0, step);
        }
      }
      assert n == Ceil(q);
      assert n as real - 1.0 < q <= n as real;
      forall j | 0 <= j < n ensures vals[j] < stop {
        assert j as real <= n as real - 1.0;
        MulMonotone(j as real, q, step);
      }
      MulMonotone(q, n as real, step);
    }
  }

  // ---------------------------------------------------------------------
  // Python indexing and slicing

  /** `a[i]` on a sequence of length len: negative i counts from the end,
      anything outside [-len, len) raises. */
  function PyIndex(len: nat, i: int): (r: Result<nat>)
    ensures r.Err? <==> !(-(len as int) <= i < len)
    ensures r.Ok? ==> r.value < len && (r.value == i || r.value == i + len)
  {
    if i < -(len as int) || len <= i then Err(IndexError)
    else if i < 0 then Ok(i + len)
    else Ok(i)
  }

  /** The first index kept by the slice `a[s:]` of a sequence of length len. */
  function SliceStart(len: nat, s: int): nat {
    if s < 0 then (if len + s < 0 then 0 else len + s)
    else if s > len then len
    else s
  }

  /** The smaller of two integers. */
  function Min(a: int, b: int): int { if a < b then a else b }

  /** The first row kept by `a[-keep:]`. */
  function TailStart(len: nat, keep: int): (r: nat)
    ensures r <= len
  {
    SliceStart(len, -keep)
  }

  /** `a[-keep:]` keeps the last min(keep, len) entries for keep >= 1, the
      whole of `a` for keep == 0 (the slice `a[-0:]` is `a[0:]`), and for
      negative keep drops the first -keep entries. */
  lemma TailWindowLength(len: nat, keep: int)
    ensures keep >= 1 ==> len - TailStart(len, keep) == Min(keep, len)
    ensures keep == 0 ==> TailStart(len, keep) == 0
    ensures keep < 0 ==> TailStart(len, keep) == Min(-keep, len)
  {
  }

  // ---------------------------------------------------------------------
  // Sums, means and differences

  /** Python's `sum` of real values. */
  function Sum(s: seq<real>): real {
    if |s| == 0 then 0.0 else s[0] + Sum(s[1..])
  }

  /** The arithmetic mean of a non-empty sequence. */
  function Mean(s: seq<real>): real
    requires |s| > 0
  {
    Sum(s) / |s| as real
  }

  /** `np.mean`: NaN for an empty array. */
  function NpMean(s: seq<real>): (r: Float)
    ensures r.Fin? <==> |s| > 0
  {
    if |s| == 0 then NaN else Fin(Mean(s))
  }

  lemma {:induction false} SumAppend(s: seq<real>, x: real)
    ensures Sum(s + [x]) == Sum(s) + x
  {
    if |s| == 0 {
      assert s + [x] == [x];
    } else {
      assert (s + [x])[1..] == s[1..] + [x];
      SumAppend(s[1..], x);
    }
  }

  /** Sums scale: a sequence multiplied by c sums to c times the sum. */
  lemma {:induction false} SumScaled(s: seq<real>, t: seq<real>, c: real)
    requires |t| == |s|
    requires forall i :: 0 <= i < |s| ==> t[i] == s[i] * c
    ensures Sum(t) == Sum(s) * c
  {
    if |s| > 0 {
      SumScaled(s[1..], t[1..], c);
    }
  }

  /** A constant sequence sums to its length times the constant. */
  lemma {:induction false} SumConstant(s: seq<real>, c: real)
    requires forall i :: 0 <= i < |s| ==> s[i] == c
    ensures Sum(s) == |s| as real * c
  {
    if |s| > 0 {
      SumConstant(s[1..], c);
    }
  }

  /** The mean of equal values is that value. */
  lemma MeanConstant(s: seq<real>, c: real)
    requires |s| > 0 && forall i :: 0 <= i < |s| ==> s[i] == c
    ensures Mean(s) == c
  {
    SumConstant(s, c);
    assert |s| as real * c / |s| as real == c;
  }

  /** Values between lo and hi sum to between |s|·lo and |s|·hi. */
  lemma {:induction false} SumBounds(s: seq<real>, lo: real, hi: real)
    requires forall i :: 0 <= i < |s| ==> lo <= s[i] <= hi
    ensures |s| as real * lo <= Sum(s) <= |s| as real * hi
  {
    if |s| > 0 {
      SumBounds(s[1..], lo, hi);
      assert (|s| - 1) as real * lo + lo == |s| as real * lo;
      assert (|s| - 1) as real * hi + hi == |s| as real * hi;
    }
  }

  /** The mean of values between lo and hi is between lo and hi. */
  lemma MeanBetween(s: seq<real>, lo: real, hi: real)
    requires |s| > 0 && forall i :: 0 <= i < |s| ==> lo <= s[i] <= hi
    ensures lo <= Mean(s) <= hi
  {
    SumBounds(s, lo, hi);
    QuotientBracketsTotal(Sum(s), |s| as real, lo, hi);
  }

  /** A total between len·lo and len·hi divides by len > 0 to between lo
      and hi (used by MeanBetween). */
  lemma QuotientBracketsTotal(total: real, len: real, lo: real, hi: real)
    requires len > 0.0 && len * lo <= total <= len * hi
    ensures lo <= total / len <= hi
  {
    assert total / len - lo == (total - len * lo) / len;
    assert hi - total / len == (len * hi - total) / len;
  }

  /** `np.diff`: consecutive differences. */
  function Diffs(s: seq<real>): (r: seq<real>)
    ensures |r| == if |s| == 0 then 0 else |s| - 1
    ensures forall i :: 0 <= i < |r| ==> r[i] == s[i + 1] - s[i]
  {
    if |s| <= 1 then [] else seq(|s| - 1, i requires 0 <= i < |s| - 1 => s[i + 1] - s[i])
  }

  /** Consecutive differences telescope to last minus first. */
  lemma {:induction false} DiffsTelescope(s: seq<real>)
    requires |s| >= 1
    ensures Sum(Diffs(s)) == s[|s| - 1] - s[0]
  {
    if |s| > 1 {
      var d, rest := Diffs(s), Diffs(s[1..]);
      DiffsTelescope(s[1..]);
      assert d[1..] == rest by {
        forall i | 0 <= i < |rest| ensures d[1..][i] == rest[i] {
          assert d[1..][i] == d[i + 1] == s[i + 2] - s[i + 1];
          assert s[1..][i + 1] == s[i + 2] && s[1..][i] == s[i + 1];
        }
      }
      assert Sum(d) == d[0] + Sum(d[1..]);
    }
  }

  /** The mean of consecutive differences of s is (last - first)/(|s| - 1),
      and NaN when s has fewer than two entries. */
  lemma MeanDiff(s: seq<real>)
    ensures |s| < 2 ==> NpMean(Diffs(s)) == NaN
    ensures |s| >= 2 ==> NpMean(Diffs(s)) == Fin((s[|s| - 1] - s[0]) / (|s| - 1) as real)
  {
    if |s| >= 2 {
      DiffsTelescope(s);
    }
  }

  // ---------------------------------------------------------------------
  // Builtin max and min

  /** The loop of Python's builtin `max` from a running maximum: an item
      replaces it only when `item > current` holds. */
  function MaxFold(cur: Float, s: seq<Float>): Float
    decreases |s|
  {
    if |s| == 0 then cur else MaxFold(if Gt(s[0], cur) then s[0] else cur, s[1..])
  }

  /** The loop of Python's builtin `min`: replace when `item < current`. */
  function MinFold(cur: Float, s: seq<Float>): Float
    decreases |s|
  {
    if |s| == 0 then cur else MinFold(if Lt(s[0], cur) then s[0] else cur, s[1..])
  }

  /** Builtin `max`: an empty sequence raises ValueError. */
  function BuiltinMax(s: seq<Float>): (r: Result<Float>)
    ensures r.Err? <==> |s| == 0
    ensures r.Err? ==> r.error == ValueError
  {
    if |s| == 0 then Err(ValueError) else Ok(MaxFold(s[0], s[1..]))
  }

  /** Builtin `min`: an empty sequence raises ValueError. */
  function BuiltinMin(s: seq<Float>): (r: Result<Float>)
    ensures r.Err? <==> |s| == 0
    ensures r.Err? ==> r.error == ValueError
  {
    if |s| == 0 then Err(ValueError) else Ok(MinFold(s[0], s[1..]))
  }

  lemma {:induction false} MaxFoldBounds(cur: Float, s: seq<Float>)
    requires cur.Fin? && AllFinite(s)
    decreases |s|
    ensures var m := MaxFold(cur, s);
      m.Fin? && (m == cur || m in s) && m.val >= cur.val
      && forall i :: 0 <= i < |s| ==> m.val >= s[i].val
  {
    if |s| > 0 {
      var next := if Gt(s[0], cur) then s[0] else cur;
      MaxFoldBounds(next, s[1..]);
      var m := MaxFold(cur, s);
      forall i | 0 <= i < |s| ensures m.val >= s[i].val {
        if i > 0 {
          assert s[i] == s[1..][i - 1];
        }
      }
    }
  }

  lemma {:induction false} MinFoldBounds(cur: Float, s: seq<Float>)
    requires cur.Fin? && AllFinite(s)
    decreases |s|
    ensures var m := MinFold(cur, s);
      m.Fin? && (m == cur || m in s) && m.val <= cur.val
      && forall i :: 0 <= i < |s| ==> m.val <= s[i].val
  {
    if |s| > 0 {
      var next := if Lt(s[0], cur) then s[0] else cur;
      MinFoldBounds(next, s[1..]);
      var m := MinFold(cur, s);
      forall i | 0 <= i < |s| ensures m.val <= s[i].val {
        if i > 0 {
          assert s[i] == s[1..][i - 1];
        }
      }
    }
  }

  /** On a non-empty all-finite series the builtin `max` is an element of it
      that is at least every element, and `min` an element at most every
      element. */
  lemma BuiltinExtremaBound(s: seq<Float>)
    requires |s| > 0 && AllFinite(s)
    ensures BuiltinMax(s).Ok? && BuiltinMin(s).Ok?
    ensures var hi, lo := BuiltinMax(s).value, BuiltinMin(s).value;
      hi in s && lo in s && hi.Fin? && lo.Fin?
      && (forall i :: 0 <= i < |s| ==> lo.val <= s[i].val <= hi.val)
  {
    MaxFoldBounds(s[0], s[1..]);
    MinFoldBounds(s[0], s[1..]);
    var hi, lo := BuiltinMax(s).value, BuiltinMin(s).value;
    forall i | 0 <= i < |s| ensures lo.val <= s[i].val <= hi.val {
      if i > 0 {
        assert s[i] == s[1..][i - 1];
      }
    }
  }

  // ---------------------------------------------------------------------
  // Matrices (2-D NumPy arrays)

  /** A 2-D array with `cols` columns, stored row by row. */
  datatype Matrix = Matrix(cols: nat, rows: seq<seq<real>>) {
    predicate Valid() {
      forall i :: 0 <= i < |rows| ==> |rows[i]| == cols
    }
  }

  /** Every matrix of a list has `cols` columns and `rows` rows. */
  predicate Shaped(ms: seq<Matrix>, cols: nat, rows: nat) {
    forall i :: 0 <= i < |ms| ==> ms[i].Valid() && ms[i].cols == cols && |ms[i].rows| == rows
  }

  /** `m[-keep:, j]`: column j of the last rows kept by the slice. */
  function TailColumn(m: Matrix, keep: int, j: nat): (r: seq<real>)
    requires m.Valid() && j < m.cols
    ensures |r| == |m.rows| - TailStart(|m.rows|, keep)
    ensures forall i :: 0 <= i < |r| ==> r[i] == m.rows[TailStart(|m.rows|, keep) + i][j]
  {
    var s := TailStart(|m.rows|, keep);
    seq(|m.rows| - s, i requires 0 <= i < |m.rows| - s => m.rows[s + i][j])
  }
}
