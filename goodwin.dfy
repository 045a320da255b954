/** The Goodwin oscillator of ODE/goodwin.py: its two right-hand sides and
    the `Goodwin` class, which solves it, normalizes the solution to its
    mean, measures its period and sweeps one rate constant for the
    bifurcation diagrams. */
module OdeGoodwin {
  import opened PyNumerics
  import opened SciPy

  // ---------------------------------------------------------------------
  // Right-hand sides

  /** `b ** n` for a natural Hill exponent. */
  function Pow(b: real, n: nat): real {
    if n == 0 then 1.0 else b * Pow(b, n - 1)
  }

  /** The repression of x by z: v1 * (K1^n / (K1^n + z^n)). */
  function Repression(v1: real, k1: real, z: real, n: nat): Float {
    Mul(Fin(v1), Quot(Pow(k1, n), Pow(k1, n) + Pow(z, n)))
  }

  /** Michaelis-Menten degradation: rate * (s / (K + s)). */
  function Degradation(rate: real, s: real, kHalf: real): Float {
    Mul(Fin(rate), Quot(s, kHalf + s))
  }

  /** `goodwin(par, t, v, k, n)`. Unpacking raises ValueError unless there
      are three state values, six rates and four constants; each derivative
      is finite exactly when none of its denominators vanishes. */
  function GoodwinRhs(par: seq<real>, t: real, v: seq<real>, k: seq<real>, n: nat): (r: Result<seq<Float>>)
    ensures r.Ok? <==> |par| == 3 && |v| == 6 && |k| == 4
    ensures r.Err? ==> r.error == ValueError
    ensures r.Ok? ==> |r.value| == 3
    ensures r.Ok? ==> (r.value[0].Fin? <==> Pow(k[0], n) + Pow(par[2], n) != 0.0 && k[1] + par[0] != 0.0)
    ensures r.Ok? ==> (r.value[1].Fin? <==> k[2] + par[1] != 0.0)
    ensures r.Ok? ==> (r.value[2].Fin? <==> k[3] + par[2] != 0.0)
  {
    if |par| != 3 || |v| != 6 || |k| != 4 then Err(ValueError)
    else
      var x, y, z := par[0], par[1], par[2];
      var dx := Sub(Repression(v[0], k[0], z, n), Degradation(v[1], x, k[1]));
      var dy := Sub(Fin(v[2] * x), Degradation(v[3], y, k[2]));
      var dz := Sub(Fin(v[4] * y), Degradation(v[5], z, k[3]));
      SubFinite(Repression(v[0], k[0], z, n), Degradation(v[1], x, k[1]));
      SubFinite(Fin(v[2] * x), Degradation(v[3], y, k[2]));
      SubFinite(Fin(v[4] * y), Degradation(v[5], z, k[3]));
      MulFinite(v[0], Quot(Pow(k[0], n), Pow(k[0], n) + Pow(z, n)));
      MulFinite(v[1], Quot(x, k[1] + x));
      MulFinite(v[3], Quot(y, k[2] + y));
      MulFinite(v[5], Quot(z, k[3] + z));
      Ok([dx, dy, dz])
  }

  /** `goodwin_with_positive_loop(par, t, v, k, n, c)`: the repression term
      of dx is multiplied by (1 + c * x); dy and dz are Goodwin's. */
  function GoodwinWithPositiveLoop(par: seq<real>, t: real, v: seq<real>, k: seq<real>, n: nat, c: real): (r: Result<seq<Float>>)
    ensures r.Ok? <==> |par| == 3 && |v| == 6 && |k| == 4
    ensures r.Err? ==> r.error == ValueError
    ensures r.Ok? ==> |r.value| == 3
    ensures r.Ok? ==> (r.value[0].Fin? <==> Pow(k[0], n) + Pow(par[2], n) != 0.0 && k[1] + par[0] != 0.0)
  {
    if |par| != 3 || |v| != 6 || |k| != 4 then Err(ValueError)
    else
      var x, y, z := par[0], par[1], par[2];
      var boosted := Mul(Repression(v[0], k[0], z, n), Fin(1.0 + c * x));
      var dx := Sub(boosted, Degradation(v[1], x, k[1]));
      var dy := Sub(Fin(v[2] * x), Degradation(v[3], y, k[2]));
      var dz := Sub(Fin(v[4] * y), Degradation(v[5], z, k[3]));
      SubFinite(boosted, Degradation(v[1], x, k[1]));
      MulFinite(1.0 + c * x, Repression(v[0], k[0], z, n));
      MulFinite(v[0], Quot(Pow(k[0], n), Pow(k[0], n) + Pow(z, n)));
      MulFinite(v[1], Quot(x, k[1] + x));
      Ok([dx, dy, dz])
  }

  /** The positive loop only acts on x: dy and dz agree with Goodwin's. */
  lemma PositiveLoopSharesYZ(par: seq<real>, t: real, v: seq<real>, k: seq<real>, n: nat, c: real)
    requires |par| == 3 && |v| == 6 && |k| == 4
    ensures GoodwinWithPositiveLoop(par, t, v, k, n, c).value[1] == GoodwinRhs(par, t, v, k, n).value[1]
    ensures GoodwinWithPositiveLoop(par, t, v, k, n, c).value[2] == GoodwinRhs(par, t, v, k, n).value[2]
  {
  }

  /** With c = 0 the positive loop vanishes and the model is Goodwin's. */
  lemma PositiveLoopWithoutFeedback(par: seq<real>, t: real, v: seq<real>, k: seq<real>, n: nat)
    ensures GoodwinWithPositiveLoop(par, t, v, k, n, 0.0) == GoodwinRhs(par, t, v, k, n)
  {
    if |par| == 3 && |v| == 6 && |k| == 4 {
      MulOne(Repression(v[0], k[0], par[2], n));
    }
  }

  /** Neither right-hand side depends on the time argument (the system is
      autonomous). */
  lemma GoodwinAutonomous(par: seq<real>, t1: real, t2: real, v: seq<real>, k: seq<real>, n: nat, c: real)
    ensures GoodwinRhs(par, t1, v, k, n) == GoodwinRhs(par, t2, v, k, n)
    ensures GoodwinWithPositiveLoop(par, t1, v, k, n, c) == GoodwinWithPositiveLoop(par, t2, v, k, n, c)
  {
  }

  /** Which of the two models `odeint` is asked to integrate, with its
      `args`. */
  datatype GoodwinSystem =
    | Plain(v: seq<real>, k: seq<real>, n: nat)
    | PositiveLoop(v: seq<real>, k: seq<real>, n: nat, c: real)

  /** The right-hand side handed to `odeint` for a system. */
  function GoodwinField(sys: GoodwinSystem, state: seq<real>, time: real): Result<seq<Float>> {
    match sys
    case Plain(v, k, n) => GoodwinRhs(state, time, v, k, n)
    case PositiveLoop(v, k, n, c) => GoodwinWithPositiveLoop(state, time, v, k, n, c)
  }

  // ---------------------------------------------------------------------
  // Normalization to the mean

  /** One window divided by its own mean, with NumPy division: an empty
      window stays empty, a zero mean gives infinities or NaN. */
  function NormalizeWindow(w: seq<real>): (r: seq<Float>)
    ensures |r| == |w|
  {
    if |w| == 0 then [] else
      var m := Mean(w);
      seq(|w|, i requires 0 <= i < |w| => Quot(w[i], m))
  }

  /** With a non-zero mean, the normalized window is finite, has mean 1, and
      scaling it back by the original mean recovers the window. */
  lemma {:induction false} NormalizedMeanIsOne(w: seq<real>)
    requires |w| > 0 && Mean(w) != 0.0
    ensures AllFinite(NormalizeWindow(w))
    ensures Mean(Values(NormalizeWindow(w))) == 1.0
    ensures forall i :: 0 <= i < |w| ==> NormalizeWindow(w)[i].val * Mean(w) == w[i]
  {
    var m := Mean(w);
    var r := NormalizeWindow(w);
    forall i | 0 <= i < |w| ensures r[i] == Fin(w[i] * (1.0 / m)) && r[i].val * m == w[i] {
      assert r[i] == Quot(w[i], m);
      DivisionScalesBack(w[i], m);
    }
    var vals := Values(r);
    SumScaled(w, vals, 1.0 / m);
    MeanOfScaled(Sum(w), m, |w| as real);
  }

  /** Dividing by a non-zero m is multiplying by its reciprocal, and
      multiplying back by m undoes it (used by NormalizedMeanIsOne). */
  lemma DivisionScalesBack(x: real, m: real)
    requires m != 0.0
    ensures x / m == x * (1.0 / m) && (x / m) * m == x
  {
  }

  /** A total of m * len scaled by 1 / m averages to one over len items
      (used by NormalizedMeanIsOne). */
  lemma MeanOfScaled(total: real, m: real, len: real)
    requires m != 0.0 && len > 0.0 && total / len == m
    ensures total * (1.0 / m) / len == 1.0
  {
    assert total == m * len;
  }

  /** With a zero mean, no normalized value is finite. */
  lemma ZeroMeanNormalizesToNonFinite(w: seq<real>)
    requires |w| > 0 && Mean(w) == 0.0
    ensures forall i :: 0 <= i < |w| ==> !NormalizeWindow(w)[i].Fin?
  {
  }

  /** `[sol[-keep:, i] / np.mean(sol[-keep:, i]) for i in
      range(sol.shape[1])]`: every column's retained tail, normalized. */
  function NormalizeTail(sol: Matrix, keep: int): (r: seq<seq<Float>>)
    requires sol.Valid()
    ensures |r| == sol.cols
    ensures forall i :: 0 <= i < |r| ==> |r[i]| == |sol.rows| - TailStart(|sol.rows|, keep)
    ensures forall i :: 0 <= i < |r| ==> r[i] == NormalizeWindow(TailColumn(sol, keep, i))
  {
    seq(sol.cols, i requires 0 <= i < sol.cols => NormalizeWindow(TailColumn(sol, keep, i)))
  }

  /** The constants the `Goodwin` class is built with, apart from the rate
      list it changes in place. */
  datatype Setup = Setup(
    par: seq<real>, t: seq<real>, k: seq<real>, n: nat,
    tStep: real, tLast: real, integ: Integrator<GoodwinSystem>)

  /** Solve a system from the initial state `par` over `t`, keep the last
      int(tLast / tStep) rows and normalize each column to its mean. */
  function NormalizerOf(s: Setup, sys: GoodwinSystem): (r: Result<seq<seq<Float>>>)
    ensures r.Ok? ==> |r.value| == |s.par|
    ensures r.Ok? ==> forall i :: 0 <= i < |r.value| ==> |r.value[i]| <= |s.t|
    ensures r.Ok? && s.tStep != 0.0 && TruncDiv(s.tLast, s.tStep).value >= 1 ==>
      forall i :: 0 <= i < |r.value| ==> |r.value[i]| == Min(TruncDiv(s.tLast, s.tStep).value, |s.t|)
    ensures Odeint(GoodwinField, s.integ, sys, s.par, s.t).Ok? ==> (r.Err? <==> s.tStep == 0.0)
  {
    var sol :- Odeint(GoodwinField, s.integ, sys, s.par, s.t);
    var keep :- TruncDiv(s.tLast, s.tStep);
    TailWindowLength(|sol.rows|, keep);
    Ok(NormalizeTail(sol, keep))
  }

  /** Turning the feedback off (c = 0) normalizes exactly like the plain
      model, provided the solver only sees the right-hand side's values. */
  lemma PositiveFeedbackOffIsGoodwin(s: Setup, v: seq<real>, k: seq<real>, n: nat)
    requires DependsOnlyOnField(GoodwinField, s.integ)
    ensures NormalizerOf(s, PositiveLoop(v, k, n, 0.0)) == NormalizerOf(s, Plain(v, k, n))
  {
    forall y, time ensures GoodwinField(PositiveLoop(v, k, n, 0.0), y, time) == GoodwinField(Plain(v, k, n), y, time) {
      PositiveLoopWithoutFeedback(y, time, v, k, n);
    }
    OdeintSameField(GoodwinField, s.integ, PositiveLoop(v, k, n, 0.0), Plain(v, k, n), s.par, s.t);
  }

  // ---------------------------------------------------------------------
  // The period from the first two maxima

  /** a and b are the first two strict local maxima of c. */
  predicate FirstTwoPeaks(c: seq<Float>, a: int, b: int) {
    0 <= a < b < |c| && IsStrictLocalMax(c, a) && IsStrictLocalMax(c, b)
    && forall p :: 0 <= p < b && IsStrictLocalMax(c, p) ==> p == a
  }

  /** `t[maxi[1]] - t[maxi[0]]` with `maxi = argrelmax(c)[0]`: the time
      between the first two maxima; fewer than two maxima raise IndexError.
      The indices count from the start of the window but are looked up in
      the whole grid, which is the same gap on an evenly spaced grid. */
  function FirstPeakGap(c: seq<Float>, t: seq<real>): (r: Result<real>)
    requires |c| <= |t|
    ensures r.Ok? <==> exists a, b :: FirstTwoPeaks(c, a, b)
    ensures r.Err? ==> r.error == IndexError
    ensures r.Ok? ==> exists a, b :: FirstTwoPeaks(c, a, b) && r.value == t[b] - t[a]
    ensures r.Ok? && (forall i, j :: 0 <= i < j < |t| ==> t[i] < t[j]) ==> r.value > 0.0
  {
    var m := ArgRelMax(c);
    TwoPeaksReported(c);
    if |m| < 2 then Err(IndexError) else Ok(t[m[1]] - t[m[0]])
  }

  /** The series has two strict local maxima exactly when argrelmax reports
      at least two indices, and the first two it reports are then the first
      two maxima. */
  lemma TwoPeaksReported(c: seq<Float>)
    ensures |ArgRelMax(c)| >= 2 <==> exists a, b :: FirstTwoPeaks(c, a, b)
    ensures |ArgRelMax(c)| >= 2 ==> FirstTwoPeaks(c, ArgRelMax(c)[0], ArgRelMax(c)[1])
  {
    var m := ArgRelMax(c);
    if exists a, b :: FirstTwoPeaks(c, a, b) {
      var a, b :| FirstTwoPeaks(c, a, b);
      TwoMembers(m, a, b);
    }
    if |m| >= 2 {
      forall p | 0 <= p < m[1] && IsStrictLocalMax(c, p) ensures p == m[0] {
        var q :| 0 <= q < |m| && m[q] == p;
        assert forall j :: 1 <= j < |m| ==> m[1] <= m[j];
        assert q == 0;
      }
      assert FirstTwoPeaks(c, m[0], m[1]);
    }
  }

  /** Two different members make a sequence at least two long (used by
      TwoPeaksReported). */
  lemma TwoMembers(m: seq<nat>, a: nat, b: nat)
    requires a in m && b in m && a != b
    ensures |m| >= 2
  {
  }

  // ---------------------------------------------------------------------
  // Sweeping one rate constant

  /** The arguments of `v_change`: the values np.arange(start, end, step)
      are written one after another into slot `index` of the rate list. */
  datatype Sweep = Sweep(start: real, end: real, step: real, index: int)

  /** The rate lists of a sweep: slot idx of v0 replaced by each value. */
  function SweepVectors(v0: seq<real>, idx: nat, values: seq<real>): (r: seq<seq<real>>)
    requires idx < |v0|
    ensures |r| == |values|
    ensures forall j :: 0 <= j < |r| ==> r[j] == v0[idx := values[j]]
  {
    seq(|values|, j requires 0 <= j < |values| => v0[idx := values[j]])
  }

  /** What `v_change` returns when the rate list holds v0 on entry. A zero
      step raises in np.arange; the index is checked at the first
      assignment, so an empty range never raises IndexError. */
  function VChangeOf(v0: seq<real>, sw: Sweep): (r: Result<seq<seq<real>>>)
    ensures r.Ok? ==> forall j :: 0 <= j < |r.value| ==> |r.value[j]| == |v0|
    ensures r.Ok? ==> sw.step != 0.0 && |r.value| == ArangeLength(sw.start, sw.end, sw.step)
  {
    var values :- Arange(sw.start, sw.end, sw.step);
    if |values| == 0 then Ok([])
    else
      var idx :- PyIndex(|v0|, sw.index);
      Ok(SweepVectors(v0, idx, values))
  }

  /** What the rate list holds after `v_change`: the swept slot keeps the
      last value written; nothing changes when the call raises before the
      first assignment or the range is empty. */
  function VAfterChange(v0: seq<real>, sw: Sweep): (r: seq<real>)
    ensures |r| == |v0|
  {
    match Arange(sw.start, sw.end, sw.step)
    case Err(_) => v0
    case Ok(values) =>
      if |values| == 0 then v0
      else match PyIndex(|v0|, sw.index)
        case Err(_) => v0
        case Ok(idx) => v0[idx := values[|values| - 1]]
  }

  /** `v_change` raises ZeroDivisionError for a zero step and IndexError for
      an index outside the list when the range is non-empty; otherwise entry
      j is v0 with the swept slot set to start + j * step, one entry per
      value of the range, and the list ends with the last of them. */
  lemma VChangeSweeps(v0: seq<real>, sw: Sweep)
    ensures VChangeOf(v0, sw).Err? <==>
      sw.step == 0.0 || (ArangeLength(sw.start, sw.end, sw.step) > 0 && !(-|v0| <= sw.index < |v0|))
    ensures sw.step == 0.0 ==> VChangeOf(v0, sw) == Err(ZeroDivisionError)
    ensures sw.step != 0.0 && VChangeOf(v0, sw).Err? ==> VChangeOf(v0, sw).error == IndexError
    ensures VChangeOf(v0, sw).Ok? ==> |VChangeOf(v0, sw).value| == ArangeLength(sw.start, sw.end, sw.step)
    ensures VChangeOf(v0, sw).Ok? ==> forall j :: 0 <= j < |VChangeOf(v0, sw).value| ==>
      var row := VChangeOf(v0, sw).value[j];
      var idx := PyIndex(|v0|, sw.index).value;
      |row| == |v0| && row[idx] == sw.start + j as real * sw.step
      && forall i :: 0 <= i < |v0| && i != idx ==> row[i] == v0[i]
    ensures VChangeOf(v0, sw).Ok? && |VChangeOf(v0, sw).value| > 0 ==>
      VAfterChange(v0, sw) == VChangeOf(v0, sw).value[|VChangeOf(v0, sw).value| - 1]
  {
  }

  /** Re-running a sweep on the list the first run left behind returns the
      same lists and leaves the same list: only the swept slot ever
      changes, and each run overwrites it. */
  lemma VChangeRepeatable(v0: seq<real>, sw: Sweep)
    ensures VChangeOf(VAfterChange(v0, sw), sw) == VChangeOf(v0, sw)
    ensures VAfterChange(VAfterChange(v0, sw), sw) == VAfterChange(v0, sw)
  {
    var v1 := VAfterChange(v0, sw);
    if Arange(sw.start, sw.end, sw.step).Ok? {
      var values := Arange(sw.start, sw.end, sw.step).value;
      if |values| > 0 && PyIndex(|v0|, sw.index).Ok? {
        var idx := PyIndex(|v0|, sw.index).value;
        assert SweepVectors(v1, idx, values) == SweepVectors(v0, idx, values) by {
          forall j | 0 <= j < |values| ensures v1[idx := values[j]] == v0[idx := values[j]] {
          }
        }
      }
    }
  }

  /** `[odeint(goodwin, par, t, args=(vi, k, n)) for vi in vs]`; the first
      solve that raises ends the comprehension. */
  function SolveEach(s: Setup, vs: seq<seq<real>>): (r: Result<seq<Matrix>>)
    ensures r.Ok? ==> |r.value| == |vs| && Shaped(r.value, |s.par|, |s.t|)
  {
    MapOrRaiseEntries(SolveRates(s), vs);
    MapOrRaise(SolveRates(s), vs)
  }

  /** The body of the comprehension: one odeint solve for a rate list. */
  function SolveRates(s: Setup): seq<real> -> Result<Matrix> {
    (vi: seq<real>) => Odeint(GoodwinField, s.integ, Plain(vi, s.k, s.n), s.par, s.t)
  }

  /** Solution i of the list is odeint's for rate list i, and the list
      fails exactly when one of the solves does. */
  lemma {:induction false} SolveEachEntries(s: Setup, vs: seq<seq<real>>)
    ensures SolveEach(s, vs).Ok? ==> forall i :: 0 <= i < |vs| ==>
      Odeint(GoodwinField, s.integ, Plain(vs[i], s.k, s.n), s.par, s.t) == Ok(SolveEach(s, vs).value[i])
    ensures SolveEach(s, vs).Err? <==>
      exists i :: 0 <= i < |vs| && Odeint(GoodwinField, s.integ, Plain(vs[i], s.k, s.n), s.par, s.t).Err?
  {
    MapOrRaiseEntries(SolveRates(s), vs);
    forall vi ensures SolveRates(s)(vi) == Odeint(GoodwinField, s.integ, Plain(vi, s.k, s.n), s.par, s.t) {
    }
  }

  /** `bifurcation_solver`: sweep the rates, then solve once per rate list. */
  function BifurcationSolverOf(s: Setup, v0: seq<real>, sw: Sweep): (r: Result<seq<Matrix>>)
    ensures sw.step == 0.0 ==> r == Err(ZeroDivisionError)
    ensures r.Ok? ==> sw.step != 0.0 && |r.value| == ArangeLength(sw.start, sw.end, sw.step) && Shaped(r.value, |s.par|, |s.t|)
  {
    var vs :- VChangeOf(v0, sw);
    SolveEach(s, vs)
  }

  /** The normalized tails of every solution of a sweep. */
  function NormalizeEach(sols: seq<Matrix>, keep: int, cols: nat, rows: nat): (r: seq<seq<seq<Float>>>)
    requires Shaped(sols, cols, rows)
    ensures |r| == |sols|
  {
    seq(|sols|, i requires 0 <= i < |sols| => NormalizeTail(sols[i], keep))
  }

  /** `bifurcation_normalizer`: each solution of the sweep with its last
      int(tLast / tStep) rows normalized column by column. */
  function BifurcationNormalizerOf(s: Setup, v0: seq<real>, sw: Sweep): (r: Result<seq<seq<seq<Float>>>>)
    ensures sw.step == 0.0 ==> r == Err(ZeroDivisionError)
    ensures BifurcationSolverOf(s, v0, sw).Ok? ==> (r.Err? <==> s.tStep == 0.0)
    ensures r.Ok? ==> sw.step != 0.0 && |r.value| == ArangeLength(sw.start, sw.end, sw.step)
    ensures r.Ok? ==> s.tStep != 0.0
  {
    var sols :- BifurcationSolverOf(s, v0, sw);
    var keep :- TruncDiv(s.tLast, s.tStep);
    Ok(NormalizeEach(sols, keep, |s.par|, |s.t|))
  }

  /** Each normalized entry of a sweep has one series per state variable,
      none longer than the time grid. */
  lemma BifurcationNormalizerBounded(s: Setup, v0: seq<real>, sw: Sweep)
    requires BifurcationNormalizerOf(s, v0, sw).Ok?
    ensures var norm := BifurcationNormalizerOf(s, v0, sw).value;
      forall i :: 0 <= i < |norm| ==>
        |norm[i]| == |s.par| && forall c :: 0 <= c < |s.par| ==> |norm[i][c]| <= |s.t|
  {
  }

  /** The sweep solves and normalizes one system per value of the range:
      with a positive step and a valid index, a well-formed model yields one
      normalized solution per range value, each with one series per state
      variable of length min(keep, |t|). */
  lemma BifurcationNormalizerShape(s: Setup, v0: seq<real>, sw: Sweep)
    requires |s.par| == 3 && |v0| == 6 && |s.k| == 4
    requires sw.step != 0.0 && -6 <= sw.index < 6 && s.tStep != 0.0
    requires TruncDiv(s.tLast, s.tStep).value >= 1
    ensures BifurcationNormalizerOf(s, v0, sw).Ok?
    ensures var norm := BifurcationNormalizerOf(s, v0, sw).value;
      |norm| == ArangeLength(sw.start, sw.end, sw.step)
      && forall i, c :: 0 <= i < |norm| && 0 <= c < 3 ==>
        |norm[i][c]| == Min(TruncDiv(s.tLast, s.tStep).value, |s.t|)
  {
    VChangeSweeps(v0, sw);
    var vs := VChangeOf(v0, sw).value;
    SolveEachEntries(s, vs);
    assert SolveEach(s, vs).Ok?;
    var keep := TruncDiv(s.tLast, s.tStep).value;
    TailWindowLength(|s.t|, keep);
  }

  // ---------------------------------------------------------------------
  // Extrema, maxima and periods of a sweep

  /** `[max(row[k]) for k in ...]`: the builtin max of every series; an
      empty series raises ValueError. */
  function ColumnMaxima(row: seq<seq<Float>>): (r: Result<seq<Float>>)
    ensures r.Err? <==> exists c :: 0 <= c < |row| && |row[c]| == 0
    ensures r.Err? ==> r.error == ValueError
    ensures r.Ok? ==> |r.value| == |row| && forall c :: 0 <= c < |row| ==> BuiltinMax(row[c]) == Ok(r.value[c])
  {
    if exists c :: 0 <= c < |row| && |row[c]| == 0 then Err(ValueError)
    else Ok(seq(|row|, c requires 0 <= c < |row| => BuiltinMax(row[c]).value))
  }

  /** `[min(row[k]) for k in ...]`, as for ColumnMaxima. */
  function ColumnMinima(row: seq<seq<Float>>): (r: Result<seq<Float>>)
    ensures r.Err? <==> exists c :: 0 <= c < |row| && |row[c]| == 0
    ensures r.Err? ==> r.error == ValueError
    ensures r.Ok? ==> |r.value| == |row| && forall c :: 0 <= c < |row| ==> BuiltinMin(row[c]) == Ok(r.value[c])
  {
    if exists c :: 0 <= c < |row| && |row[c]| == 0 then Err(ValueError)
    else Ok(seq(|row|, c requires 0 <= c < |row| => BuiltinMin(row[c]).value))
  }

  /** The `maxi` and `mini` lists of `bifurcation_extrema` built from a
      normalized sweep: one list of per-series maxima and one of minima per
      sweep entry. The first empty series raises ValueError. */
  function ExtremaOf(norm: seq<seq<seq<Float>>>): (r: Result<(seq<seq<Float>>, seq<seq<Float>>)>)
    decreases |norm|
    ensures r.Err? <==> exists i, c :: 0 <= i < |norm| && 0 <= c < |norm[i]| && |norm[i][c]| == 0
    ensures r.Err? ==> r.error == ValueError
    ensures r.Ok? ==> |r.value.0| == |norm| && |r.value.1| == |norm|
    ensures r.Ok? ==> forall i :: 0 <= i < |norm| ==>
      |r.value.0[i]| == |norm[i]| && |r.value.1[i]| == |norm[i]|
      && forall c :: 0 <= c < |norm[i]| ==>
        BuiltinMax(norm[i][c]) == Ok(r.value.0[i][c]) && BuiltinMin(norm[i][c]) == Ok(r.value.1[i][c])
  {
    if |norm| == 0 then Ok(([], []))
    else
      var last := |norm| - 1;
      var prev :- ExtremaOf(norm[..last]);
      var hi :- ColumnMaxima(norm[last]);
      var lo := ColumnMinima(norm[last]).value;
      Ok((prev.0 + [hi], prev.1 + [lo]))
  }

  /** Every reported maximum and minimum of an all-finite series is one of
      its values, the maximum is at least and the minimum at most every
      value. */
  lemma ExtremaBracket(norm: seq<seq<seq<Float>>>, i: nat, c: nat)
    requires ExtremaOf(norm).Ok?
    requires i < |norm| && c < |norm[i]| && AllFinite(norm[i][c])
    ensures var (maxi, mini) := ExtremaOf(norm).value;
      var series := norm[i][c];
      maxi[i][c] in series && mini[i][c] in series
      && forall j :: 0 <= j < |series| ==> mini[i][c].val <= series[j].val <= maxi[i][c].val
  {
    BuiltinExtremaBound(norm[i][c]);
  }

  /** `bifurcation_extrema`. */
  function BifurcationExtremaOf(s: Setup, v0: seq<real>, sw: Sweep): (r: Result<(seq<seq<Float>>, seq<seq<Float>>)>)
    ensures r.Ok? ==> sw.step != 0.0 && |r.value.0| == |r.value.1| == ArangeLength(sw.start, sw.end, sw.step)
    ensures r.Ok? ==> forall i :: 0 <= i < |r.value.0| ==> |r.value.0[i]| == |r.value.1[i]| == |s.par|
    ensures r.Ok? ==> BifurcationNormalizerOf(s, v0, sw).Ok? && var norm := BifurcationNormalizerOf(s, v0, sw).value;
      forall i, c :: 0 <= i < |norm| && 0 <= c < |s.par| ==>
        BuiltinMax(norm[i][c]) == Ok(r.value.0[i][c]) && BuiltinMin(norm[i][c]) == Ok(r.value.1[i][c])
    ensures BifurcationNormalizerOf(s, v0, sw).Ok? ==> (r.Err? <==>
      exists i, c :: 0 <= i < |BifurcationNormalizerOf(s, v0, sw).value| && 0 <= c < |s.par|
        && |BifurcationNormalizerOf(s, v0, sw).value[i][c]| == 0)
  {
    var norm :- BifurcationNormalizerOf(s, v0, sw);
    ExtremaOf(norm)
  }

  /** Under the conditions of BifurcationNormalizerShape and a non-empty
      time grid, every retained series is non-empty, so the extrema never
      raise and there is one list of three maxima and three minima per
      range value. */
  lemma BifurcationExtremaDefined(s: Setup, v0: seq<real>, sw: Sweep)
    requires |s.par| == 3 && |v0| == 6 && |s.k| == 4 && |s.t| >= 1
    requires sw.step != 0.0 && -6 <= sw.index < 6 && s.tStep != 0.0
    requires TruncDiv(s.tLast, s.tStep).value >= 1
    ensures BifurcationExtremaOf(s, v0, sw).Ok?
    ensures |BifurcationExtremaOf(s, v0, sw).value.0| == ArangeLength(sw.start, sw.end, sw.step)
  {
    BifurcationNormalizerShape(s, v0, sw);
  }

  /** `[find_peaks(norm[i][k])[0] for k in ...]` for every sweep entry: the
      strict local maxima of every normalized series. */
  function MaximaIndexOf(norm: seq<seq<seq<Float>>>): (r: seq<seq<seq<nat>>>)
    ensures |r| == |norm|
  {
    seq(|norm|, i requires 0 <= i < |norm| => PeaksOfEach(norm[i]))
  }

  /** The loop of `bifurcation_maxima_index`: the peaks of every series of
      every normalized solution, in order. */
  method MaximaIndex(norm: seq<seq<seq<Float>>>) returns (maxi: seq<seq<seq<nat>>>)
    ensures maxi == MaximaIndexOf(norm)
  {
    maxi := [];
    var i := 0;
    while i < |norm|
      invariant 0 <= i <= |norm|
      invariant |maxi| == i && forall j :: 0 <= j < i ==> maxi[j] == PeaksOfEach(norm[j])
    {
      maxi := maxi + [PeaksOfEach(norm[i])];
      i := i + 1;
    }
  }

  /** `[find_peaks(row[k])[0] for k in ...]`. */
  function PeaksOfEach(row: seq<seq<Float>>): (r: seq<seq<nat>>)
    ensures |r| == |row|
  {
    seq(|row|, c requires 0 <= c < |row| => ArgRelMax(row[c]))
  }

  /** The indices reported for a series are exactly its strict local
      maxima: each is one, and none is missed. */
  lemma MaximaIndexExact(norm: seq<seq<seq<Float>>>, i: nat, c: nat)
    requires i < |norm| && c < |norm[i]|
    ensures var peaks := MaximaIndexOf(norm)[i][c];
      (forall a :: 0 <= a < |peaks| ==> IsStrictLocalMax(norm[i][c], peaks[a]))
      && (forall p :: IsStrictLocalMax(norm[i][c], p) ==> p in peaks)
      && (forall a, b :: 0 <= a < b < |peaks| ==> peaks[a] < peaks[b])
  {
  }

  /** `bifurcation_maxima_index`. */
  function BifurcationMaximaIndexOf(s: Setup, v0: seq<real>, sw: Sweep): (r: Result<seq<seq<seq<nat>>>>)
    ensures r.Ok? <==> BifurcationNormalizerOf(s, v0, sw).Ok?
    ensures r.Ok? ==> sw.step != 0.0 && |r.value| == ArangeLength(sw.start, sw.end, sw.step)
    ensures r.Ok? ==> forall i :: 0 <= i < |r.value| ==> |r.value[i]| == |s.par|
  {
    var norm :- BifurcationNormalizerOf(s, v0, sw);
    Ok(MaximaIndexOf(norm))
  }

  /** Every peak index of a sweep lies inside the time grid `t`. */
  lemma MaximaIndexWithinGrid(s: Setup, v0: seq<real>, sw: Sweep, i: nat, c: nat)
    requires BifurcationMaximaIndexOf(s, v0, sw).Ok?
    requires i < |BifurcationMaximaIndexOf(s, v0, sw).value|
    requires c < |BifurcationMaximaIndexOf(s, v0, sw).value[i]|
    ensures InGrid(BifurcationMaximaIndexOf(s, v0, sw).value[i][c], |s.t|)
  {
    var norm := BifurcationNormalizerOf(s, v0, sw).value;
    var peaks := MaximaIndexOf(norm)[i][c];
    assert peaks == ArgRelMax(norm[i][c]);
  }

  /** `np.mean(np.diff(t[peaks]))`: the mean spacing of the peak times.
      Indexing the grid with an index past its end raises IndexError; fewer
      than two peaks leave nothing to average, which gives NaN. */
  function PeakPeriod(peaks: seq<nat>, grid: seq<real>): (r: Result<Float>)
    ensures r.Err? <==> !InGrid(peaks, |grid|)
    ensures r.Err? ==> r.error == IndexError
    ensures r.Ok? ==> (r.value.Fin? <==> |peaks| >= 2)
    ensures r.Ok? && |peaks| < 2 ==> r.value == NaN
  {
    if !InGrid(peaks, |grid|) then Err(IndexError)
    else
      MeanDiff(PeakTimes(peaks, grid));
      Ok(NpMean(Diffs(PeakTimes(peaks, grid))))
  }

  /** `t[peaks]`: the grid times of the peaks. */
  function PeakTimes(peaks: seq<nat>, grid: seq<real>): (r: seq<real>)
    requires InGrid(peaks, |grid|)
    ensures |r| == |peaks| && forall a :: 0 <= a < |peaks| ==> r[a] == grid[peaks[a]]
  {
    seq(|peaks|, a requires 0 <= a < |peaks| => grid[peaks[a]])
  }

  /** Every index lies below len. */
  predicate InGrid(peaks: seq<nat>, len: nat) {
    forall a :: 0 <= a < |peaks| ==> peaks[a] < len
  }

  /** On the grid np.arange(0, tLast, tStep), the mean spacing of two or
      more increasing peaks is tStep times their index span over the number
      of gaps. */
  lemma PeakPeriodOnGrid(peaks: seq<nat>, tLast: real, tStep: real)
    requires tStep != 0.0
    requires |peaks| >= 2
    requires forall a :: 0 <= a < |peaks| ==> peaks[a] < ArangeLength(0.0, tLast, tStep)
    ensures var grid := Arange(0.0, tLast, tStep).value;
      PeakPeriod(peaks, grid)
        == Ok(Fin(tStep * (peaks[|peaks| - 1] as real - peaks[0] as real) / (|peaks| - 1) as real))
  {
    var grid := Arange(0.0, tLast, tStep).value;
    assert InGrid(peaks, |grid|);
    PeakPeriodOnEvenGrid(peaks, grid, tStep);
  }

  /** PeakPeriodOnGrid for any grid whose point j is j * tStep. */
  lemma PeakPeriodOnEvenGrid(peaks: seq<nat>, grid: seq<real>, tStep: real)
    requires |peaks| >= 2 && InGrid(peaks, |grid|)
    requires forall j :: 0 <= j < |grid| ==> grid[j] == 0.0 + j as real * tStep
    ensures PeakPeriod(peaks, grid)
      == Ok(Fin(tStep * (peaks[|peaks| - 1] as real - peaks[0] as real) / (|peaks| - 1) as real))
  {
    var times := PeakTimes(peaks, grid);
    MeanDiff(times);
    var last := |peaks| - 1;
    assert times[last] - times[0] == tStep * (peaks[last] as real - peaks[0] as real);
  }

  /** `period` of `bifurkation_period` from the maxima indices: for every
      sweep entry, the mean peak spacing of series par_index. */
  function PeriodsOf(maxi: seq<seq<seq<nat>>>, parIndex: int, grid: seq<real>): (r: Result<seq<Float>>)
    ensures r.Ok? ==> |r.value| == |maxi|
    ensures r.Err? ==> r.error == IndexError
  {
    MapOrRaiseEntries(PeriodOfEntry(parIndex, grid), maxi);
    MapOrRaise(PeriodOfEntry(parIndex, grid), maxi)
  }

  /** The body of the comprehension: the period of one sweep entry. */
  function PeriodOfEntry(parIndex: int, grid: seq<real>): seq<seq<nat>> -> Result<Float> {
    (row: seq<seq<nat>>) => EntryPeriod(row, parIndex, grid)
  }

  /** `np.mean(np.diff(t[maxi_index[i][par_index]]))` for one sweep entry. */
  function EntryPeriod(row: seq<seq<nat>>, parIndex: int, grid: seq<real>): (r: Result<Float>)
    ensures r.Err? ==> r.error == IndexError
  {
    var idx :- PyIndex(|row|, parIndex);
    PeakPeriod(row[idx], grid)
  }

  /** PeriodsOf holds, for every sweep entry, the mean peak spacing of the
      series parIndex selects; it succeeds exactly when every entry has
      that series and every peak lies within the grid. */
  lemma PeriodsEntries(maxi: seq<seq<seq<nat>>>, parIndex: int, grid: seq<real>)
    ensures PeriodsOf(maxi, parIndex, grid).Ok? <==>
      forall i :: 0 <= i < |maxi| ==> EntryPeriod(maxi[i], parIndex, grid).Ok?
    ensures PeriodsOf(maxi, parIndex, grid).Ok? ==> forall i :: 0 <= i < |maxi| ==>
      EntryPeriod(maxi[i], parIndex, grid) == Ok(PeriodsOf(maxi, parIndex, grid).value[i])
  {
    MapOrRaiseEntries(PeriodOfEntry(parIndex, grid), maxi);
    forall row ensures PeriodOfEntry(parIndex, grid)(row) == EntryPeriod(row, parIndex, grid) {
    }
  }

  /** An entry's period is defined on the grid exactly when it has the
      series parIndex selects and every peak of that series lies within the
      grid. */
  lemma EntryPeriodDefined(row: seq<seq<nat>>, parIndex: int, grid: seq<real>)
    ensures EntryPeriod(row, parIndex, grid).Ok? <==>
      -|row| <= parIndex < |row| && InGrid(row[PyIndex(|row|, parIndex).value], |grid|)
  {
  }

  /** `bifurkation_period`. */
  function BifurkationPeriodOf(s: Setup, v0: seq<real>, sw: Sweep, parIndex: int): (r: Result<seq<Float>>)
    ensures r.Ok? ==> sw.step != 0.0 && |r.value| == ArangeLength(sw.start, sw.end, sw.step)
    ensures BifurcationMaximaIndexOf(s, v0, sw).Ok? && r.Err? ==> r.error == IndexError
  {
    var maxi :- BifurcationMaximaIndexOf(s, v0, sw);
    // np.arange cannot raise here: int(t_last / t_step) already succeeded.
    var grid := Arange(0.0, s.tLast, s.tStep).value;
    PeriodsOf(maxi, parIndex, grid)
  }

  /** The periods of a sweep never fail on the time grid: with a positive
      step and positive tLast, a well-formed model and valid indices give
      one period per range value, since every peak index lies inside the
      retained window and the window is no longer than the grid. */
  lemma BifurkationPeriodDefined(s: Setup, v0: seq<real>, sw: Sweep, parIndex: int)
    requires |s.par| == 3 && |v0| == 6 && |s.k| == 4
    requires sw.step != 0.0 && -6 <= sw.index < 6
    requires s.tStep > 0.0 && s.tLast >= s.tStep && -3 <= parIndex < 3
    ensures BifurkationPeriodOf(s, v0, sw, parIndex).Ok?
    ensures |BifurkationPeriodOf(s, v0, sw, parIndex).value| == ArangeLength(sw.start, sw.end, sw.step)
  {
    TruncDivBrackets(s.tLast, s.tStep);
    var keep := TruncDiv(s.tLast, s.tStep).value;
    assert keep >= 1 by {
      MulMonotone(s.tStep, s.tLast, 1.0 / s.tStep);
    }
    BifurcationNormalizerShape(s, v0, sw);
    var norm := BifurcationNormalizerOf(s, v0, sw).value;
    var maxi := MaximaIndexOf(norm);
    ArangeIsHalfOpen(0.0, s.tLast, s.tStep);
    var grid := Arange(0.0, s.tLast, s.tStep).value;
    assert keep <= |grid| by {
      assert |grid| == Ceil(s.tLast / s.tStep);
    }
    PeriodsDefined(maxi, parIndex, grid, norm);
  }

  /** PeriodsOf succeeds when every maxima list has the requested series and
      every peak lies within the grid. */
  lemma PeriodsDefined(maxi: seq<seq<seq<nat>>>, parIndex: int, grid: seq<real>, norm: seq<seq<seq<Float>>>)
    requires maxi == MaximaIndexOf(norm)
    requires forall i :: 0 <= i < |norm| ==> -|norm[i]| <= parIndex < |norm[i]|
    requires forall i, c :: 0 <= i < |norm| && 0 <= c < |norm[i]| ==> |norm[i][c]| <= |grid|
    ensures PeriodsOf(maxi, parIndex, grid).Ok?
  {
    forall i | 0 <= i < |maxi| ensures EntryPeriod(maxi[i], parIndex, grid).Ok? {
      var idx := PyIndex(|maxi[i]|, parIndex).value;
      var peaks := maxi[i][idx];
      assert peaks == ArgRelMax(norm[i][idx]);
      assert InGrid(peaks, |grid|);
    }
    PeriodsEntries(maxi, parIndex, grid);
  }

  /** `v[~np.isnan(period)]` and `period[~np.isnan(period)]`: the sweep
      values and periods of the entries whose period is defined, in order.
      Boolean indexing with a mask of another length raises IndexError. */
  function DefinedPeriods(vs: seq<real>, ps: seq<Float>): (r: Result<(seq<real>, seq<Float>)>)
    decreases |vs|
    ensures r.Err? <==> |vs| != |ps|
    ensures r.Err? ==> r.error == IndexError
    ensures r.Ok? ==> |r.value.0| == |r.value.1| == CountDefined(ps)
    ensures r.Ok? ==> forall j :: 0 <= j < |r.value.1| ==> r.value.1[j] != NaN
  {
    if |vs| != |ps| then Err(IndexError)
    else if |vs| == 0 then Ok(([], []))
    else
      var rest := DefinedPeriods(vs[1..], ps[1..]).value;
      if ps[0] == NaN then Ok(rest)
      else Ok(([vs[0]] + rest.0, [ps[0]] + rest.1))
  }

  /** The filter keeps sweep values and periods paired: every kept pair is a
      pair of the input. */
  lemma {:induction false} DefinedPeriodsKeepsPairs(vs: seq<real>, ps: seq<Float>)
    requires |vs| == |ps|
    ensures PairedIn(DefinedPeriods(vs, ps).value.0, DefinedPeriods(vs, ps).value.1, vs, ps)
    decreases |vs|
  {
    if |vs| > 0 {
      DefinedPeriodsKeepsPairs(vs[1..], ps[1..]);
      var (v, p) := DefinedPeriods(vs, ps).value;
      var (rv, rp) := DefinedPeriods(vs[1..], ps[1..]).value;
      forall j | 0 <= j < |v| ensures exists i :: 0 <= i < |vs| && vs[i] == v[j] && ps[i] == p[j] {
        if ps[0] == NaN {
          assert v == rv && p == rp;
          var i :| 0 <= i < |vs[1..]| && vs[1..][i] == rv[j] && ps[1..][i] == rp[j];
          assert vs[i + 1] == v[j] && ps[i + 1] == p[j];
        } else if j == 0 {
          assert vs[0] == v[0] && ps[0] == p[0];
        } else {
          assert v == [vs[0]] + rv && p == [ps[0]] + rp;
          var i :| 0 <= i < |vs[1..]| && vs[1..][i] == rv[j - 1] && ps[1..][i] == rp[j - 1];
          assert vs[i + 1] == v[j] && ps[i + 1] == p[j];
        }
      }
    }
  }

  /** Each (v[j], p[j]) is some (vs[i], ps[i]). */
  predicate PairedIn(v: seq<real>, p: seq<Float>, vs: seq<real>, ps: seq<Float>) {
    |v| == |p| && |vs| == |ps|
    && forall j :: 0 <= j < |v| ==> exists i :: 0 <= i < |vs| && vs[i] == v[j] && ps[i] == p[j]
  }

  /** When every period is defined the filter changes nothing. */
  lemma {:induction false} DefinedPeriodsAllDefined(vs: seq<real>, ps: seq<Float>)
    requires |vs| == |ps| && forall i :: 0 <= i < |ps| ==> ps[i] != NaN
    ensures DefinedPeriods(vs, ps) == Ok((vs, ps))
    decreases |vs|
  {
    if |vs| > 0 {
      DefinedPeriodsAllDefined(vs[1..], ps[1..]);
      assert [vs[0]] + vs[1..] == vs && [ps[0]] + ps[1..] == ps;
    }
  }

  /** The positions of the periods that are not NaN, in increasing order:
      the indices the mask `~np.isnan(period)` selects. */
  function DefinedIndices(ps: seq<Float>): (idx: seq<nat>)
    decreases |ps|
  {
    if |ps| == 0 then []
    else DefinedIndices(ps[..|ps| - 1]) + (if ps[|ps| - 1] == NaN then [] else [|ps| - 1])
  }

  /** DefinedIndices lists, in strictly increasing order, exactly the
      positions whose period is not NaN. */
  lemma {:induction false} DefinedIndicesSelect(ps: seq<Float>)
    ensures var idx := DefinedIndices(ps);
      (forall j :: 0 <= j < |idx| ==> idx[j] < |ps|)
      && (forall a, b :: 0 <= a < b < |idx| ==> idx[a] < idx[b])
      && (forall i :: 0 <= i < |ps| ==> (ps[i] != NaN <==> i in idx))
    decreases |ps|
  {
    if |ps| > 0 {
      var n := |ps| - 1;
      var front := ps[..n];
      DefinedIndicesSelect(front);
      assert forall i :: 0 <= i < n ==> front[i] == ps[i];
    }
  }

  /** Appending one sweep value and period appends that pair to the result
      exactly when the period is not NaN. */
  lemma {:induction false} DefinedPeriodsSnoc(vs: seq<real>, ps: seq<Float>, a: real, b: Float)
    requires |vs| == |ps|
    ensures var (v, p) := DefinedPeriods(vs, ps).value;
      DefinedPeriods(vs + [a], ps + [b]) == if b == NaN then Ok((v, p)) else Ok((v + [a], p + [b]))
    decreases |vs|
  {
    if |vs| > 0 {
      assert (vs + [a])[1..] == vs[1..] + [a];
      assert (ps + [b])[1..] == ps[1..] + [b];
      DefinedPeriodsSnoc(vs[1..], ps[1..], a, b);
      var (rv, rp) := DefinedPeriods(vs[1..], ps[1..]).value;
      assert [vs[0]] + (rv + [a]) == ([vs[0]] + rv) + [a];
      assert [ps[0]] + (rp + [b]) == ([ps[0]] + rp) + [b];
    } else {
      assert vs + [a] == [a] && ps + [b] == [b];
      assert [a][1..] == [] && [b][1..] == [];
      assert DefinedPeriods([], []) == Ok(([], []));
      assert [a] + [] == [a] && [b] + [] == [b];
    }
  }

  /** The NaN filter keeps exactly the pairs at DefinedIndices, in order:
      entry j of both results comes from position DefinedIndices(ps)[j]. */
  lemma {:induction false} DefinedPeriodsAtIndices(vs: seq<real>, ps: seq<Float>)
    requires |vs| == |ps|
    ensures var (v, p) := DefinedPeriods(vs, ps).value;
      var idx := DefinedIndices(ps);
      |v| == |idx| && |p| == |idx|
      && forall j :: 0 <= j < |idx| ==> idx[j] < |vs| && v[j] == vs[idx[j]] && p[j] == ps[idx[j]]
    decreases |vs|
  {
    if |vs| > 0 {
      var n := |vs| - 1;
      assert vs == vs[..n] + [vs[n]];
      assert ps == ps[..n] + [ps[n]];
      DefinedPeriodsAtIndices(vs[..n], ps[..n]);
      DefinedPeriodsSnoc(vs[..n], ps[..n], vs[n], ps[n]);
    }
  }

  /** The number of periods that are not NaN. */
  function CountDefined(ps: seq<Float>): nat {
    if |ps| == 0 then 0 else (if ps[0] == NaN then 0 else 1) + CountDefined(ps[1..])
  }

  /** The sweep values and periods `period_dynamic_plot` draws: the periods
      of a sweep paired with the range values, NaN periods dropped. */
  function PeriodDynamicOf(s: Setup, v0: seq<real>, sw: Sweep, parIndex: int): (r: Result<(seq<real>, seq<Float>)>)
    ensures r.Ok? <==> BifurkationPeriodOf(s, v0, sw, parIndex).Ok?
    ensures r.Ok? ==> |r.value.0| == |r.value.1|
    ensures r.Ok? ==> forall j :: 0 <= j < |r.value.1| ==> r.value.1[j] != NaN
  {
    var period :- BifurkationPeriodOf(s, v0, sw, parIndex);
    // np.arange cannot raise here: the sweep already built the same range.
    var values := Arange(sw.start, sw.end, sw.step).value;
    DefinedPeriods(values, period)
  }

  /** A NaN period at position i is dropped by the filter: the kept pairs
      are those at DefinedIndices, none of which is i. */
  lemma NaNEntryDropped(vs: seq<real>, ps: seq<Float>, i: nat)
    requires |vs| == |ps| && i < |ps| && ps[i] == NaN
    ensures var (v, p) := DefinedPeriods(vs, ps).value;
      var idx := DefinedIndices(ps);
      i !in idx && |v| == |idx| && |p| == |idx|
      && forall j :: 0 <= j < |idx| ==> idx[j] != i && idx[j] < |vs| && v[j] == vs[idx[j]] && p[j] == ps[idx[j]]
  {
    DefinedIndicesSelect(ps);
    DefinedPeriodsAtIndices(vs, ps);
  }

  /** An entry whose chosen series has fewer than two maxima gets a NaN
      period. */
  lemma PeriodsFewPeaksNaN(maxi: seq<seq<seq<nat>>>, parIndex: int, grid: seq<real>, i: nat)
    requires PeriodsOf(maxi, parIndex, grid).Ok? && i < |maxi|
    requires -|maxi[i]| <= parIndex < |maxi[i]| && |maxi[i][PyIndex(|maxi[i]|, parIndex).value]| < 2
    ensures PeriodsOf(maxi, parIndex, grid).value[i] == NaN
  {
    PeriodsEntries(maxi, parIndex, grid);
    var row := maxi[i];
    var peaks := row[PyIndex(|row|, parIndex).value];
    assert EntryPeriod(row, parIndex, grid) == PeakPeriod(peaks, grid);
  }

  /** A sweep value whose chosen series has fewer than two maxima gets a NaN
      period, and `period_dynamic_plot` drops it: the kept pairs are those
      at DefinedIndices, which does not list that position. */
  lemma FewPeaksDropped(s: Setup, v0: seq<real>, sw: Sweep, parIndex: int, i: nat)
    requires BifurkationPeriodOf(s, v0, sw, parIndex).Ok?
    requires i < |BifurcationMaximaIndexOf(s, v0, sw).value|
    requires var row := BifurcationMaximaIndexOf(s, v0, sw).value[i];
      -|row| <= parIndex < |row| && |row[PyIndex(|row|, parIndex).value]| < 2
    ensures var period := BifurkationPeriodOf(s, v0, sw, parIndex).value;
      i < |period| && period[i] == NaN && i !in DefinedIndices(period)
    ensures var period := BifurkationPeriodOf(s, v0, sw, parIndex).value;
      var values := Arange(sw.start, sw.end, sw.step).value;
      var kept := PeriodDynamicOf(s, v0, sw, parIndex).value;
      var idx := DefinedIndices(period);
      |kept.0| == |idx| && |kept.1| == |idx|
      && forall j :: 0 <= j < |idx| ==>
        idx[j] != i && idx[j] < |values| && kept.0[j] == values[idx[j]] && kept.1[j] == period[idx[j]]
  {
    var maxi := BifurcationMaximaIndexOf(s, v0, sw).value;
    var grid := Arange(0.0, s.tLast, s.tStep).value;
    var period := BifurkationPeriodOf(s, v0, sw, parIndex).value;
    assert PeriodsOf(maxi, parIndex, grid) == Ok(period);
    PeriodsFewPeaksNaN(maxi, parIndex, grid, i);
    DefinedIndicesSelect(period);
    var values := Arange(sw.start, sw.end, sw.step).value;
    PeriodDynamicIsFilter(s, v0, sw, parIndex);
    NaNEntryDropped(values, period, i);
    var kept := DefinedPeriods(values, period).value;
    assert PeriodDynamicOf(s, v0, sw, parIndex).value == kept;
  }

  /** PeriodDynamicOf is the NaN filter over the range values and the
      periods, which have one entry each per range value. */
  lemma PeriodDynamicIsFilter(s: Setup, v0: seq<real>, sw: Sweep, parIndex: int)
    requires BifurkationPeriodOf(s, v0, sw, parIndex).Ok?
    ensures var period := BifurkationPeriodOf(s, v0, sw, parIndex).value;
      var values := Arange(sw.start, sw.end, sw.step).value;
      |values| == |period| && PeriodDynamicOf(s, v0, sw, parIndex) == DefinedPeriods(values, period)
  {
  }

  /** Under the conditions of BifurkationPeriodDefined the NaN filter has one
      period per sweep value, so it never raises. */
  lemma PeriodDynamicDefined(s: Setup, v0: seq<real>, sw: Sweep, parIndex: int)
    requires |s.par| == 3 && |v0| == 6 && |s.k| == 4
    requires sw.step != 0.0 && -6 <= sw.index < 6
    requires s.tStep > 0.0 && s.tLast >= s.tStep && -3 <= parIndex < 3
    ensures PeriodDynamicOf(s, v0, sw, parIndex).Ok?
  {
    BifurkationPeriodDefined(s, v0, sw, parIndex);
  }

  /** A failing solve in a prefix of the rate lists fails the whole list
      with the same exception. */
  lemma SolveEachPrefixErr(s: Setup, vs: seq<seq<real>>, j: nat)
    requires j <= |vs| && SolveEach(s, vs[..j]).Err?
    ensures SolveEach(s, vs) == SolveEach(s, vs[..j])
  {
    MapOrRaisePrefixErr(SolveRates(s), vs, j);
  }

  /** A failing entry in a prefix of the maxima lists fails the whole list
      with the same exception. */
  lemma PeriodsPrefixErr(maxi: seq<seq<seq<nat>>>, parIndex: int, grid: seq<real>, j: nat)
    requires j <= |maxi| && PeriodsOf(maxi[..j], parIndex, grid).Err?
    ensures PeriodsOf(maxi, parIndex, grid) == PeriodsOf(maxi[..j], parIndex, grid)
  {
    MapOrRaisePrefixErr(PeriodOfEntry(parIndex, grid), maxi, j);
  }

  /** The loop of `bifurkation_period`: the period of every sweep entry in
      order, the first entry without the series or with a peak beyond the
      grid raising IndexError. */
  method Periods(maxi: seq<seq<seq<nat>>>, parIndex: int, grid: seq<real>) returns (r: Result<seq<Float>>)
    ensures r == PeriodsOf(maxi, parIndex, grid)
  {
    var period: seq<Float> := [];
    var i := 0;
    while i < |maxi|
      invariant 0 <= i <= |maxi|
      invariant PeriodsOf(maxi[..i], parIndex, grid) == Ok(period)
    {
      var p := EntryPeriod(maxi[i], parIndex, grid);
      assert PeriodOfEntry(parIndex, grid)(maxi[i]) == p;
      if p.Err? {
        assert maxi[..i + 1][..i] == maxi[..i];
        PeriodsPrefixErr(maxi, parIndex, grid, i + 1);
        return Err(IndexError);
      }
      MapOrRaiseSnoc(PeriodOfEntry(parIndex, grid), maxi, i, period, p.value);
      period := period + [p.value];
      i := i + 1;
    }
    assert maxi[..i] == maxi;
    r := Ok(period);
  }

  /** The loops of `bifurcation_normalizer`: for every solution, for every
      state variable, the retained tail divided by its mean. */
  method NormalizeSolutions(sols: seq<Matrix>, keep: int, cols: nat, rows: nat) returns (norm: seq<seq<seq<Float>>>)
    requires Shaped(sols, cols, rows)
    ensures norm == NormalizeEach(sols, keep, cols, rows)
  {
    norm := [];
    var i := 0;
    while i < |sols|
      invariant 0 <= i <= |sols|
      invariant norm == NormalizeEach(sols, keep, cols, rows)[..i]
    {
      var holder: seq<seq<Float>> := [];
      var c := 0;
      while c < cols
        invariant 0 <= c <= cols
        invariant holder == NormalizeTail(sols[i], keep)[..c]
      {
        var x := NormalizeWindow(TailColumn(sols[i], keep, c));
        assert NormalizeTail(sols[i], keep)[..c + 1] == holder + [x];
        holder := holder + [x];
        c := c + 1;
      }
      assert holder == NormalizeTail(sols[i], keep);
      assert NormalizeEach(sols, keep, cols, rows)[..i + 1] == norm + [holder];
      norm := norm + [holder];
      i := i + 1;
    }
    assert NormalizeEach(sols, keep, cols, rows)[..i] == NormalizeEach(sols, keep, cols, rows);
  }

  // ---------------------------------------------------------------------
  // The Goodwin class

  /** A Goodwin model: initial state `par`, time grid `t`, the six rates `v`
      (the caller's list, which the sweep methods overwrite), the four
      constants `k`, Hill exponent `n`, and the step and length that fix how
      many trailing rows (int(tLast / tStep)) count as settled. `integ`
      stands for odeint's numerical integration. */
  class Goodwin {
    const par: seq<real>
    const t: seq<real>
    const v: array<real>
    const k: seq<real>
    const n: nat
    const tStep: real
    const tLast: real
    const integ: Integrator<GoodwinSystem>

    constructor (par: seq<real>, t: seq<real>, v: array<real>, k: seq<real>, n: nat,
                 tStep: real, tLast: real, integ: Integrator<GoodwinSystem>)
      ensures this.par == par && this.t == t && this.v == v && this.k == k && this.n == n
      ensures this.tStep == tStep && this.tLast == tLast && this.integ == integ
    {
      this.par := par;
      this.t := t;
      this.v := v;
      this.k := k;
      this.n := n;
      this.tStep := tStep;
      this.tLast := tLast;
      this.integ := integ;
    }

    /** The constants of this model. */
    function Config(): Setup {
      Setup(par, t, k, n, tStep, tLast, integ)
    }

    /** `goodwin_solver`: odeint succeeds exactly when the model is well
      formed, and returns one row of three values per time point. */
    function GoodwinSolver(): (r: Result<Matrix>)
      reads v
      ensures r.Ok? <==> |par| == 3 && v.Length == 6 && |k| == 4
      ensures r.Err? ==> r.error == ValueError
      ensures r.Ok? ==> r.value.Valid() && r.value.cols == 3 && |r.value.rows| == |t|
      ensures r.Ok? && |t| > 0 ==> r.value.rows[0] == par
    {
      Odeint(GoodwinField, integ, Plain(v[..], k, n), par, t)
    }

    /** `goodwin_normalizer`: one normalized series per state variable, each
      as long as the retained window. */
    function GoodwinNormalizer(): (r: Result<seq<seq<Float>>>)
      reads v
      ensures r.Ok? <==> |par| == 3 && v.Length == 6 && |k| == 4 && tStep != 0.0
      ensures r.Ok? ==> |r.value| == 3 && forall i :: 0 <= i < 3 ==> |r.value[i]| <= |t|
    {
      NormalizerOf(Config(), Plain(v[..], k, n))
    }

    /** `goodwin_period`: the time between the first two maxima of one
      normalized series, positive on an increasing time grid. */
    function GoodwinPeriod(parIndex: int): (r: Result<real>)
      reads v
      ensures r.Ok? ==> GoodwinNormalizer().Ok? && -3 <= parIndex < 3
      ensures r.Ok? ==> exists a, b ::
        FirstTwoPeaks(GoodwinNormalizer().value[PyIndex(3, parIndex).value], a, b) && r.value == t[b] - t[a]
      ensures GoodwinNormalizer().Ok? && !(-3 <= parIndex < 3) ==> r == Err(IndexError)
      ensures GoodwinNormalizer().Ok? && -3 <= parIndex < 3 ==>
        (r.Ok? <==> exists a, b :: FirstTwoPeaks(GoodwinNormalizer().value[PyIndex(3, parIndex).value], a, b))
      ensures GoodwinNormalizer().Err? ==> r == Err(GoodwinNormalizer().error)
      ensures GoodwinNormalizer().Ok? && r.Err? ==> r.error == IndexError
      ensures r.Ok? && (forall i, j :: 0 <= i < j < |t| ==> t[i] < t[j]) ==> r.value > 0.0
    {
      var norm :- GoodwinNormalizer();
      var idx :- PyIndex(|norm|, parIndex);
      FirstPeakGap(norm[idx], t)
    }

    /** `goodwin_positive_feedback(c)`. */
    function GoodwinPositiveFeedback(c: real): (r: Result<Matrix>)
      reads v
      ensures r.Ok? <==> |par| == 3 && v.Length == 6 && |k| == 4
      ensures r.Ok? ==> r.value.Valid() && r.value.cols == 3 && |r.value.rows| == |t|
    {
      Odeint(GoodwinField, integ, PositiveLoop(v[..], k, n, c), par, t)
    }

    /** `goodwin_positive_feedback_normalizier(c)`: with c = 0 it normalizes
      exactly like goodwin_normalizer. */
    function GoodwinPositiveFeedbackNormalizier(c: real): (r: Result<seq<seq<Float>>>)
      reads v
      ensures r.Ok? <==> |par| == 3 && v.Length == 6 && |k| == 4 && tStep != 0.0
      ensures r.Ok? ==> |r.value| == 3 && forall i :: 0 <= i < 3 ==> |r.value[i]| <= |t|
    {
      NormalizerOf(Config(), PositiveLoop(v[..], k, n, c))
    }

    /** With c = 0, goodwin_positive_feedback_normalizier normalizes exactly
      like goodwin_normalizer. */
    lemma FeedbackOffNormalizesLikeGoodwin()
      requires DependsOnlyOnField(GoodwinField, integ)
      ensures GoodwinPositiveFeedbackNormalizier(0.0) == GoodwinNormalizer()
    {
      PositiveFeedbackOffIsGoodwin(Config(), v[..], k, n);
    }

    /** `v_change`: writes each value of np.arange(vStart, vEnd, vStep) in
      turn into slot vIndex of the rate list and collects a copy after each
      write. */
    method VChange(vStart: real, vEnd: real, vStep: real, vIndex: int) returns (r: Result<seq<seq<real>>>)
      modifies v
      ensures r == VChangeOf(old(v[..]), Sweep(vStart, vEnd, vStep, vIndex))
      ensures v[..] == VAfterChange(old(v[..]), Sweep(vStart, vEnd, vStep, vIndex))
    {
      var values :- Arange(vStart, vEnd, vStep);
      var vNew: seq<seq<real>> := [];
      var j := 0;
      while j < |values|
        invariant 0 <= j <= |values|
        invariant j == 0 ==> v[..] == old(v[..]) && vNew == []
        invariant j > 0 ==> PyIndex(v.Length, vIndex).Ok?
        invariant j > 0 ==> v[..] == old(v[..])[PyIndex(v.Length, vIndex).value := values[j - 1]]
        invariant j > 0 ==> vNew == SweepVectors(old(v[..]), PyIndex(v.Length, vIndex).value, values[..j])
      {
        var idx :- PyIndex(v.Length, vIndex);
        v[idx] := values[j];
        vNew := vNew + [v[..]];
        j := j + 1;
      }
      assert values[..j] == values;
      r := Ok(vNew);
    }

    /** `bifurcation_solver`: one odeint solution per rate list of the sweep. */
    method BifurcationSolver(vStart: real, vEnd: real, vStep: real, vIndex: int) returns (r: Result<seq<Matrix>>)
      modifies v
      ensures r == BifurcationSolverOf(Config(), old(v[..]), Sweep(vStart, vEnd, vStep, vIndex))
      ensures v[..] == VAfterChange(old(v[..]), Sweep(vStart, vEnd, vStep, vIndex))
    {
      var vs :- VChange(vStart, vEnd, vStep, vIndex);
      r := SolveSweep(vs);
    }

    /** The comprehension of `bifurcation_solver`: one odeint solve per
      rate list, the first failing solve raising. */
    method SolveSweep(vs: seq<seq<real>>) returns (r: Result<seq<Matrix>>)
      ensures r == SolveEach(Config(), vs)
    {
      var sols: seq<Matrix> := [];
      var i := 0;
      while i < |vs|
        invariant 0 <= i <= |vs|
        invariant SolveEach(Config(), vs[..i]) == Ok(sols)
      {
        var sol := Odeint(GoodwinField, integ, Plain(vs[i], k, n), par, t);
        assert SolveRates(Config())(vs[i]) == sol;
        if sol.Err? {
          assert vs[..i + 1][..i] == vs[..i];
          SolveEachPrefixErr(Config(), vs, i + 1);
          return Err(sol.error);
        }
        MapOrRaiseSnoc(SolveRates(Config()), vs, i, sols, sol.value);
        sols := sols + [sol.value];
        i := i + 1;
      }
      assert vs[..i] == vs;
      r := Ok(sols);
    }

    /** `bifurcation_normalizer`: every solution of the sweep with its
      retained tail normalized column by column. */
    method BifurcationNormalizer(vStart: real, vEnd: real, vStep: real, vIndex: int) returns (r: Result<seq<seq<seq<Float>>>>)
      modifies v
      ensures r == BifurcationNormalizerOf(Config(), old(v[..]), Sweep(vStart, vEnd, vStep, vIndex))
      ensures v[..] == VAfterChange(old(v[..]), Sweep(vStart, vEnd, vStep, vIndex))
    {
      var sols :- BifurcationSolver(vStart, vEnd, vStep, vIndex);
      var keep :- TruncDiv(tLast, tStep);
      var norm := NormalizeSolutions(sols, keep, |par|, |t|);
      r := Ok(norm);
    }

    /** `bifurcation_extrema`: the maxima and the minima of every normalized
      series of the sweep. */
    method BifurcationExtrema(vStart: real, vEnd: real, vStep: real, vIndex: int)
      returns (r: Result<(seq<seq<Float>>, seq<seq<Float>>)>)
      modifies v
      ensures r == BifurcationExtremaOf(Config(), old(v[..]), Sweep(vStart, vEnd, vStep, vIndex))
      ensures v[..] == VAfterChange(old(v[..]), Sweep(vStart, vEnd, vStep, vIndex))
    {
      var norm :- BifurcationNormalizer(vStart, vEnd, vStep, vIndex);
      var maxi: seq<seq<Float>> := [];
      var mini: seq<seq<Float>> := [];
      var i := 0;
      while i < |norm|
        invariant 0 <= i <= |norm|
        invariant ExtremaOf(norm[..i]) == Ok((maxi, mini))
      {
        assert norm[..i + 1][..i] == norm[..i];
        var hi := ColumnMaxima(norm[i]);
        if hi.Err? {
          return Err(ValueError);
        }
        var lo := ColumnMinima(norm[i]).value;
        maxi := maxi + [hi.value];
        mini := mini + [lo];
        i := i + 1;
      }
      assert norm[..i] == norm;
      r := Ok((maxi, mini));
    }

    /** `bifurcation_maxima_index`: the peak indices of every normalized
      series of the sweep. */
    method BifurcationMaximaIndex(vStart: real, vEnd: real, vStep: real, vIndex: int)
      returns (r: Result<seq<seq<seq<nat>>>>)
      modifies v
      ensures r == BifurcationMaximaIndexOf(Config(), old(v[..]), Sweep(vStart, vEnd, vStep, vIndex))
      ensures v[..] == VAfterChange(old(v[..]), Sweep(vStart, vEnd, vStep, vIndex))
    {
      var norm :- BifurcationNormalizer(vStart, vEnd, vStep, vIndex);
      var maxi := MaximaIndex(norm);
      r := Ok(maxi);
    }

    /** `bifurkation_period`: for every sweep entry, the mean spacing on the
      grid np.arange(0, tLast, tStep) of the peaks of series parIndex. */
    method BifurkationPeriod(vStart: real, vEnd: real, vStep: real, vIndex: int, parIndex: int)
      returns (r: Result<seq<Float>>)
      modifies v
      ensures r == BifurkationPeriodOf(Config(), old(v[..]), Sweep(vStart, vEnd, vStep, vIndex), parIndex)
      ensures v[..] == VAfterChange(old(v[..]), Sweep(vStart, vEnd, vStep, vIndex))
    {
      var maxi :- BifurcationMaximaIndex(vStart, vEnd, vStep, vIndex);
      var grid := Arange(0.0, tLast, tStep).value;
      r := Periods(maxi, parIndex, grid);
    }

    /** The data `period_dynamic_plot` draws: the sweep values and periods,
      NaN periods filtered out. */
    method PeriodDynamic(vStart: real, vEnd: real, vStep: real, vIndex: int, parIndex: int)
      returns (r: Result<(seq<real>, seq<Float>)>)
      modifies v
      ensures r == PeriodDynamicOf(Config(), old(v[..]), Sweep(vStart, vEnd, vStep, vIndex), parIndex)
      ensures v[..] == VAfterChange(old(v[..]), Sweep(vStart, vEnd, vStep, vIndex))
    {
      var period :- BifurkationPeriod(vStart, vEnd, vStep, vIndex, parIndex);
      var values := Arange(vStart, vEnd, vStep).value;
      r := DefinedPeriods(values, period);
    }
  }
}
