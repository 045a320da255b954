/** The two SciPy routines the oscillator code calls: `odeint`, whose
    numerical work is left abstract, and `argrelmax` (strict local maxima). */
module SciPy {
  import opened PyNumerics

  /** A right-hand side as `odeint` calls it: arguments, state, time. */
  type Rhs<-P> = (P, seq<real>, real) -> Result<seq<Float>>

  /** The numbers `odeint`'s adaptive solver produces: component j of the
      state at grid point i, for the given arguments, initial state and time
      grid. Nothing is assumed about them. */
  type Integrator<-P> = (P, seq<real>, seq<real>, nat, nat) -> real

  /** The first time value `odeint` evaluates the right-hand side at. */
  function StartTime(t: seq<real>): real {
    if |t| > 0 then t[0] else 0.0
  }

  /** `odeint(f, y0, t, args)`: one row per grid point, one column per state
      component, the first row being y0 itself. `odeint` calls f once at
      (y0, t[0]) before integrating, so an exception f raises there, or a
      derivative of the wrong length, surfaces from the call. */
  function Odeint<P>(f: Rhs<P>, integ: Integrator<P>, args: P, y0: seq<real>, t: seq<real>): (r: Result<Matrix>)
    ensures r.Ok? <==> f(args, y0, StartTime(t)).Ok? && |f(args, y0, StartTime(t)).value| == |y0|
    ensures r.Err? && f(args, y0, StartTime(t)).Err? ==> r.error == f(args, y0, StartTime(t)).error
    ensures r.Ok? ==> r.value.Valid() && r.value.cols == |y0| && |r.value.rows| == |t|
    ensures r.Ok? && |t| > 0 ==> r.value.rows[0] == y0
  {
    var d :- f(args, y0, StartTime(t));
    if |d| != |y0| then Err(RuntimeError)
    else Ok(Matrix(|y0|, seq(|t|, i requires 0 <= i < |t| =>
      if i == 0 then y0 else seq(|y0|, j requires 0 <= j < |y0| => integ(args, y0, t, i, j)))))
  }

  /** Two argument values give the same right-hand side at every state and
      time. */
  ghost predicate SameField<P(!new)>(f: Rhs<P>, a: P, b: P) {
    forall y, time :: f(a, y, time) == f(b, y, time)
  }

  /** The solver sees the right-hand side only through its values: argument
      values with the same field integrate to the same numbers. */
  ghost predicate DependsOnlyOnField<P(!new)>(f: Rhs<P>, integ: Integrator<P>) {
    forall a, b | SameField(f, a, b) ::
      forall y0, t, i, j :: integ(a, y0, t, i, j) == integ(b, y0, t, i, j)
  }

  /** Integrating the same field from the same start gives the same result. */
  lemma OdeintSameField<P(!new)>(f: Rhs<P>, integ: Integrator<P>, a: P, b: P, y0: seq<real>, t: seq<real>)
    requires DependsOnlyOnField(f, integ) && SameField(f, a, b)
    ensures Odeint(f, integ, a, y0, t) == Odeint(f, integ, b, y0, t)
  {
    assert f(a, y0, StartTime(t)) == f(b, y0, StartTime(t));
    if Odeint(f, integ, a, y0, t).Ok? {
      var ra, rb := Odeint(f, integ, a, y0, t).value.rows, Odeint(f, integ, b, y0, t).value.rows;
      forall i | 0 <= i < |t| ensures ra[i] == rb[i] {
        if i > 0 {
          forall j | 0 <= j < |y0| ensures ra[i][j] == rb[i][j] {
            assert integ(a, y0, t, i, j) == integ(b, y0, t, i, j);
          }
        }
      }
      assert ra == rb;
    }
  }

  // ---------------------------------------------------------------------
  // argrelmax

  /** Index i is a strict local maximum: an interior point greater than both
      neighbours (IEEE comparison, so NaN is never one). */
  predicate IsStrictLocalMax(s: seq<Float>, i: int) {
    1 <= i < |s| - 1 && Gt(s[i], s[i - 1]) && Gt(s[i], s[i + 1])
  }

  /** The strict local maxima at or after index i, in increasing order. */
  function LocalMaximaFrom(s: seq<Float>, i: nat): (r: seq<nat>)
    decreases |s| - i
    ensures forall a :: 0 <= a < |r| ==> i <= r[a] && IsStrictLocalMax(s, r[a])
    ensures forall p :: i <= p && IsStrictLocalMax(s, p) ==> p in r
    ensures forall a, b :: 0 <= a < b < |r| ==> r[a] < r[b]
  {
    if i + 1 >= |s| then []
    else if IsStrictLocalMax(s, i) then [i] + LocalMaximaFrom(s, i + 1)
    else LocalMaximaFrom(s, i + 1)
  }

  /** `scipy.signal.argrelmax(s)[0]` (order 1, mode 'clip': endpoints never
      qualify): the indices of the strict local maxima, ascending. */
  function ArgRelMax(s: seq<Float>): (r: seq<nat>)
    ensures forall a :: 0 <= a < |r| ==> r[a] < |s|
  {
    LocalMaximaFrom(s, 0)
  }
}
