/** Populations of amplitude-phase oscillators (ODE/clock_interaction.py):
    each oscillator relaxes to a circle of radius A and turns with period T;
    in the coupled model every x-derivative is driven by K times the mean
    field of the x values. */
module OdeClockInteraction {
  import opened PyNumerics
  import opened SciPy

  // ---------------------------------------------------------------------
  // Right-hand sides

  /** `meanfield(n, x)`: sum(x) / n, the mean concentration when n is the
      number of values; n == 0 raises ZeroDivisionError. */
  function MeanField(n: int, x: seq<real>): (r: Result<real>)
    ensures r.Err? <==> n == 0
    ensures r.Err? ==> r.error == ZeroDivisionError
    ensures r.Ok? ==> r.value * n as real == Sum(x)
  {
    if n == 0 then Err(ZeroDivisionError) else Ok(Sum(x) / n as real)
  }

  /** When every oscillator has the same x, the mean field over all of them
      is that value. */
  lemma MeanFieldOfEqualValues(x: seq<real>, c: real)
    requires |x| > 0 && forall i :: 0 <= i < |x| ==> x[i] == c
    ensures MeanField(|x|, x) == Ok(c)
  {
    MeanConstant(x, c);
  }

  /** 2 * np.pi / period with NumPy division. */
  function AngularFrequency(lib: NumPyMaths, period: real): Float {
    Quot(2.0 * lib.pi, period)
  }

  /** `heterogeneous_oscillator(par, t, A, period, lam)`: unpacking raises
      ValueError unless the state has two values; each derivative is finite
      exactly when the period is non-zero. */
  function HeterogeneousOscillator(lib: NumPyMaths, par: seq<real>, t: real, A: real, period: real, lam: real)
    : (r: Result<seq<Float>>)
    ensures r.Ok? <==> |par| == 2
    ensures r.Err? ==> r.error == ValueError
    ensures r.Ok? ==> |r.value| == 2
    ensures r.Ok? ==> (r.value[0].Fin? <==> period != 0.0) && (r.value[1].Fin? <==> period != 0.0)
  {
    if |par| != 2 then Err(ValueError)
    else
      var x, y := par[0], par[1];
      var radius := lib.sqrt(x * x + y * y);
      var w := AngularFrequency(lib, period);
      SubFinite(Fin(lam * x * (A - radius)), Mul(w, Fin(y)));
      AddFinite(Fin(lam * y * (A - radius)), Mul(w, Fin(x)));
      MulFinite(y, w);
      MulFinite(x, w);
      Ok([Sub(Fin(lam * x * (A - radius)), Mul(w, Fin(y))),
          Add(Fin(lam * y * (A - radius)), Mul(w, Fin(x)))])
  }

  /** `coupled_oscillator(par, t, A, period, lam, K, n, x_total)`: the
      heterogeneous oscillator with K * meanfield(n, x_total) added to dx. */
  function CoupledOscillator(lib: NumPyMaths, par: seq<real>, t: real, A: real, period: real, lam: real,
                             K: real, n: int, xTotal: seq<real>): (r: Result<seq<Float>>)
    ensures r.Ok? <==> |par| == 2 && n != 0
    ensures r.Err? ==> r.error == if |par| != 2 then ValueError else ZeroDivisionError
    ensures r.Ok? ==> |r.value| == 2
  {
    if |par| != 2 then Err(ValueError)
    else
      var x, y := par[0], par[1];
      var radius := lib.sqrt(x * x + y * y);
      var w := AngularFrequency(lib, period);
      var m :- MeanField(n, xTotal);
      Ok([Add(Sub(Fin(lam * x * (A - radius)), Mul(w, Fin(y))), Fin(K * m)),
          Add(Fin(lam * y * (A - radius)), Mul(w, Fin(x)))])
  }

  /** The coupling only drives x: dx is the heterogeneous dx plus K times
      the mean field, dy is unchanged. */
  lemma CoupledIsDrivenHeterogeneous(lib: NumPyMaths, par: seq<real>, t: real, A: real, period: real, lam: real,
                                     K: real, n: int, xTotal: seq<real>)
    requires |par| == 2 && n != 0
    ensures var c := CoupledOscillator(lib, par, t, A, period, lam, K, n, xTotal).value;
      var h := HeterogeneousOscillator(lib, par, t, A, period, lam).value;
      c[0] == Add(h[0], Fin(K * MeanField(n, xTotal).value)) && c[1] == h[1]
  {
  }

  /** With coupling strength K = 0 the coupled oscillator is the
      heterogeneous one. */
  lemma UncoupledWhenKZero(lib: NumPyMaths, par: seq<real>, t: real, A: real, period: real, lam: real,
                           n: int, xTotal: seq<real>)
    requires n != 0
    ensures CoupledOscillator(lib, par, t, A, period, lam, 0.0, n, xTotal)
      == HeterogeneousOscillator(lib, par, t, A, period, lam)
  {
    if |par| == 2 {
      AddZero(HeterogeneousOscillator(lib, par, t, A, period, lam).value[0]);
    }
  }

  /** The origin is a rest point of an oscillator with a non-zero period;
      with period 0 the angular frequency is infinite and dx there is NaN. */
  lemma OriginIsRestPoint(lib: NumPyMaths, t: real, A: real, period: real, lam: real)
    ensures period != 0.0 ==>
      HeterogeneousOscillator(lib, [0.0, 0.0], t, A, period, lam) == Ok([Fin(0.0), Fin(0.0)])
    ensures period == 0.0 ==>
      HeterogeneousOscillator(lib, [0.0, 0.0], t, A, period, lam).value[0] == NaN
  {
  }

  /** 2π / period for a non-zero period. */
  function RotationRate(lib: NumPyMaths, period: real): real
    requires period != 0.0
  {
    2.0 * lib.pi / period
  }

  /** On the circle of radius A the amplitude term vanishes and the
      oscillator turns at angular frequency 2π / period. */
  lemma LimitCycleRotation(lib: NumPyMaths, par: seq<real>, t: real, A: real, period: real, lam: real)
    requires |par| == 2 && period != 0.0
    requires lib.sqrt(par[0] * par[0] + par[1] * par[1]) == A
    ensures HeterogeneousOscillator(lib, par, t, A, period, lam).Ok?
    ensures HeterogeneousOscillator(lib, par, t, A, period, lam).value[0] == Fin(-(RotationRate(lib, period) * par[1]))
    ensures HeterogeneousOscillator(lib, par, t, A, period, lam).value[1] == Fin(RotationRate(lib, period) * par[0])
  {
    var w := RotationRate(lib, period);
    assert AngularFrequency(lib, period) == Fin(w);
    var h := HeterogeneousOscillator(lib, par, t, A, period, lam).value;
    assert lam * par[0] * (A - A) == 0.0 && lam * par[1] * (A - A) == 0.0;
    assert h[0] == Sub(Fin(0.0), Fin(w * par[1]));
    assert h[1] == Add(Fin(0.0), Fin(w * par[0]));
  }

  /** The oscillator `odeint` integrates, with its `args`. */
  datatype Oscillator =
    | Heterogeneous(A: real, period: real, lam: real)
    | Coupled(A: real, period: real, lam: real, K: real, n: int, xTotal: seq<real>)

  /** The right-hand side handed to `odeint` for an oscillator. */
  function OscillatorField(lib: NumPyMaths, o: Oscillator, state: seq<real>, time: real): Result<seq<Float>> {
    match o
    case Heterogeneous(A, period, lam) => HeterogeneousOscillator(lib, state, time, A, period, lam)
    case Coupled(A, period, lam, K, n, xTotal) => CoupledOscillator(lib, state, time, A, period, lam, K, n, xTotal)
  }

  function Field(lib: NumPyMaths): Rhs<Oscillator> {
    (o: Oscillator, state: seq<real>, time: real) => OscillatorField(lib, o, state, time)
  }

  // ---------------------------------------------------------------------
  // Solving the population

  /** The constants a `Clock_Interaction` is built with: initial x and y of
      every oscillator, time grid, amplitude, one period list per
      oscillator, relaxation rate, population size n; `lib` stands for
      NumPy's sqrt and pi and `integ` for odeint's numerical integration. */
  datatype Population = Population(
    x: seq<real>, y: seq<real>, t: seq<real>, A: real, period: seq<seq<real>>,
    lam: real, n: int, lib: NumPyMaths, integ: Integrator<Oscillator>)

  /** Free-running oscillators, or oscillators coupled through the mean
      field with strength K. */
  datatype Coupling = Autonomous | MeanFieldCoupled(K: real)

  /** The number of iterations of `range(n)`. */
  function RangeCount(n: int): nat {
    if n < 0 then 0 else n
  }

  /** The `args` of oscillator i: its own period period[i][0]; the coupled
      model passes the initial x list as x_total, so its mean field is
      fixed at the initial mean. */
  function OscillatorFor(p: Population, coupling: Coupling, i: nat): Oscillator
    requires i < |p.period| && |p.period[i]| > 0
  {
    match coupling
    case Autonomous => Heterogeneous(p.A, p.period[i][0], p.lam)
    case MeanFieldCoupled(K) => Coupled(p.A, p.period[i][0], p.lam, K, p.n, p.x)
  }

  /** One iteration of the solver loops: `odeint` from (x[i], y[i]) with
      period[i][0]; an index outside x, y, period or period[i] raises
      IndexError. */
  function SolveOscillator(p: Population, coupling: Coupling, i: nat): (r: Result<Matrix>)
    ensures r.Ok? ==> r.value.Valid() && r.value.cols == 2 && |r.value.rows| == |p.t|
  {
    if i >= |p.x| || i >= |p.y| || i >= |p.period| || |p.period[i]| == 0 then Err(IndexError)
    else Odeint(Field(p.lib), p.integ, OscillatorFor(p, coupling, i), [p.x[i], p.y[i]], p.t)
  }

  /** The oscillator right-hand sides never raise inside the loops (the
      state has two values, and the mean field divides by n only when
      range(n) is non-empty): solving oscillator i fails exactly on an
      index error, and its solution starts at (x[i], y[i]). */
  lemma SolveOscillatorDefined(p: Population, coupling: Coupling, i: nat)
    requires coupling.MeanFieldCoupled? ==> p.n != 0
    ensures SolveOscillator(p, coupling, i).Ok? <==>
      i < |p.x| && i < |p.y| && i < |p.period| && |p.period[i]| > 0
    ensures SolveOscillator(p, coupling, i).Err? ==> SolveOscillator(p, coupling, i).error == IndexError
    ensures SolveOscillator(p, coupling, i).Ok? && |p.t| > 0 ==>
      SolveOscillator(p, coupling, i).value.rows[0] == [p.x[i], p.y[i]]
  {
  }

  /** The results of iterations 0 .. count-1 of a loop whose body `step`
      may raise: the first failing iteration ends the loop with its
      exception. */
  function RunAll(step: nat -> Result<Matrix>, count: nat): (r: Result<seq<Matrix>>)
    ensures r.Ok? ==> |r.value| == count
  {
    if count == 0 then Ok([])
    else
      var prev :- RunAll(step, count - 1);
      var sol :- step(count - 1);
      Ok(prev + [sol])
  }

  /** A loop succeeds exactly when every iteration does, and entry i is
      the result of iteration i. */
  lemma {:induction false} RunAllEntries(step: nat -> Result<Matrix>, count: nat)
    ensures RunAll(step, count).Ok? <==> forall i :: 0 <= i < count ==> step(i).Ok?
    ensures RunAll(step, count).Ok? ==> forall i :: 0 <= i < count ==> step(i) == Ok(RunAll(step, count).value[i])
  {
    if count > 0 {
      RunAllEntries(step, count - 1);
    }
  }

  /** A failing prefix of a loop fails the whole loop with the same
      exception. */
  lemma {:induction false} RunAllPrefixErr(step: nat -> Result<Matrix>, j: nat, count: nat)
    requires j <= count && RunAll(step, j).Err?
    ensures RunAll(step, count) == RunAll(step, j)
    decreases count
  {
    if j < count {
      RunAllPrefixErr(step, j, count - 1);
    }
  }

  /** Two loops whose iterations agree give the same result. */
  lemma {:induction false} RunAllSame(f: nat -> Result<Matrix>, g: nat -> Result<Matrix>, count: nat)
    requires forall i :: 0 <= i < count ==> f(i) == g(i)
    ensures RunAll(f, count) == RunAll(g, count)
  {
    if count > 0 {
      RunAllSame(f, g, count - 1);
    }
  }

  /** The body of the solver loops for one coupling. */
  function Step(p: Population, coupling: Coupling): nat -> Result<Matrix> {
    (i: nat) => SolveOscillator(p, coupling, i)
  }

  /** The solutions of oscillators 0 .. count-1, in order; the first
      failing iteration raises. */
  function SolveAll(p: Population, coupling: Coupling, count: nat): (r: Result<seq<Matrix>>)
    ensures r.Ok? ==> |r.value| == count && Shaped(r.value, 2, |p.t|)
  {
    RunAllEntries(Step(p, coupling), count);
    RunAll(Step(p, coupling), count)
  }

  /** Solution i of a run is oscillator i's, and a run fails exactly when
      one of its oscillators does. */
  lemma SolveAllEntries(p: Population, coupling: Coupling, count: nat)
    ensures SolveAll(p, coupling, count).Ok? <==>
      forall i :: 0 <= i < count ==> SolveOscillator(p, coupling, i).Ok?
    ensures SolveAll(p, coupling, count).Ok? ==>
      forall i :: 0 <= i < count ==> SolveOscillator(p, coupling, i) == Ok(SolveAll(p, coupling, count).value[i])
  {
    RunAllEntries(Step(p, coupling), count);
    forall i: nat ensures Step(p, coupling)(i) == SolveOscillator(p, coupling, i) {
    }
  }

  /** A failing prefix of a run fails the whole run with the same
      exception. */
  lemma SolveAllPrefixErr(p: Population, coupling: Coupling, j: nat, count: nat)
    requires j <= count && SolveAll(p, coupling, j).Err?
    ensures SolveAll(p, coupling, count) == SolveAll(p, coupling, j)
  {
    RunAllPrefixErr(Step(p, coupling), j, count);
  }

  /** A coupled run with K = 0 is the autonomous run, provided the solver
      only sees the right-hand side's values. */
  lemma ZeroCouplingIsAutonomous(p: Population, count: nat)
    requires p.n != 0 && DependsOnlyOnField(Field(p.lib), p.integ)
    ensures SolveAll(p, MeanFieldCoupled(0.0), count) == SolveAll(p, Autonomous, count)
  {
    forall i | 0 <= i < count
      ensures Step(p, MeanFieldCoupled(0.0))(i) == Step(p, Autonomous)(i)
    {
      if i < |p.x| && i < |p.y| && i < |p.period| && |p.period[i]| > 0 {
        var a, b := OscillatorFor(p, MeanFieldCoupled(0.0), i), OscillatorFor(p, Autonomous, i);
        forall state, time ensures Field(p.lib)(a, state, time) == Field(p.lib)(b, state, time) {
          UncoupledWhenKZero(p.lib, state, time, p.A, p.period[i][0], p.lam, p.n, p.x);
        }
        OdeintSameField(Field(p.lib), p.integ, a, b, [p.x[i], p.y[i]], p.t);
      }
    }
    RunAllSame(Step(p, MeanFieldCoupled(0.0)), Step(p, Autonomous), count);
  }

  // ---------------------------------------------------------------------
  // Population means

  /** Entry (row, col) of every solution. */
  function Across(sols: seq<Matrix>, rows: nat, row: nat, col: nat): (r: seq<real>)
    requires Shaped(sols, 2, rows) && row < rows && col < 2
    ensures |r| == |sols| && forall i :: 0 <= i < |sols| ==> r[i] == sols[i].rows[row][col]
  {
    seq(|sols|, i requires 0 <= i < |sols| => sols[i].rows[row][col])
  }

  /** `np.mean(sol, axis=0)[-keep:, value]`: the mean over the oscillators
      of component `value` at every retained time point. An empty
      population averages to a NaN scalar, which cannot be sliced
      (IndexError), as cannot a component outside [-2, 2). */
  function PopulationMean(sols: seq<Matrix>, rows: nat, keep: int, value: int): (r: Result<seq<real>>)
    requires Shaped(sols, 2, rows)
    ensures r.Err? <==> |sols| == 0 || !(-2 <= value < 2)
    ensures r.Err? ==> r.error == IndexError
    ensures r.Ok? ==> |r.value| == rows - TailStart(rows, keep)
  {
    if |sols| == 0 then Err(IndexError)
    else
      var col :- PyIndex(2, value);
      var start := TailStart(rows, keep);
      Ok(seq(rows - start, j requires 0 <= j < rows - start => Mean(Across(sols, rows, start + j, col))))
  }

  /** Entry j of the population mean is `meanfield` of the oscillators'
      component at retained row j: n times it is their sum. */
  lemma PopulationMeanIsMeanField(sols: seq<Matrix>, rows: nat, keep: int, value: int, j: nat)
    requires Shaped(sols, 2, rows) && PopulationMean(sols, rows, keep, value).Ok?
    requires j < |PopulationMean(sols, rows, keep, value).value|
    ensures MeanField(|sols|, Across(sols, rows, TailStart(rows, keep) + j, PyIndex(2, value).value))
      == Ok(PopulationMean(sols, rows, keep, value).value[j])
  {
    var across := Across(sols, rows, TailStart(rows, keep) + j, PyIndex(2, value).value);
    assert PopulationMean(sols, rows, keep, value).value[j] == Mean(across);
  }

  /** Entry j of the population mean lies between any bounds on the
      oscillators' component at retained row j. */
  lemma PopulationMeanBetween(sols: seq<Matrix>, rows: nat, keep: int, value: int, j: nat, lo: real, hi: real)
    requires Shaped(sols, 2, rows) && PopulationMean(sols, rows, keep, value).Ok?
    requires j < |PopulationMean(sols, rows, keep, value).value|
    requires forall i :: 0 <= i < |sols| ==>
      lo <= sols[i].rows[TailStart(rows, keep) + j][PyIndex(2, value).value] <= hi
    ensures lo <= PopulationMean(sols, rows, keep, value).value[j] <= hi
  {
    MeanBetween(Across(sols, rows, TailStart(rows, keep) + j, PyIndex(2, value).value), lo, hi);
  }

  /** A population of identical solutions averages to that solution's
      retained column. */
  lemma PopulationMeanOfCopies(sols: seq<Matrix>, m: Matrix, keep: int, value: int)
    requires m.Valid() && m.cols == 2 && |sols| > 0 && -2 <= value < 2
    requires forall i :: 0 <= i < |sols| ==> sols[i] == m
    ensures PopulationMean(sols, |m.rows|, keep, value) == Ok(TailColumn(m, keep, PyIndex(2, value).value))
  {
    var rows := |m.rows|;
    var col := PyIndex(2, value).value;
    var start := TailStart(rows, keep);
    var r := PopulationMean(sols, rows, keep, value).value;
    var column := TailColumn(m, keep, col);
    forall j | 0 <= j < |r| ensures r[j] == column[j] {
      MeanConstant(Across(sols, rows, start + j, col), m.rows[start + j][col]);
    }
    assert r == column;
  }

  /** `autonom_mean` / `coupled_mean`: solve the population, keep the last
      int(tLast / tStep) rows and average component `value` over the
      oscillators. */
  function MeanOfRun(p: Population, coupling: Coupling, tLast: real, tStep: real, value: int): (r: Result<seq<real>>)
    ensures SolveAll(p, coupling, RangeCount(p.n)).Ok? && tStep == 0.0 ==> r == Err(ZeroDivisionError)
    ensures r.Ok? ==> tStep != 0.0 && |r.value| == |p.t| - TailStart(|p.t|, TruncDiv(tLast, tStep).value)
  {
    var sols :- SolveAll(p, coupling, RangeCount(p.n));
    var keep :- TruncDiv(tLast, tStep);
    PopulationMean(sols, |p.t|, keep, value)
  }

  /** With valid indices and a non-zero step, the mean trajectory of a
      non-empty population has min(keep, |t|) points for keep >= 1. */
  lemma MeanOfRunDefined(p: Population, coupling: Coupling, tLast: real, tStep: real, value: int)
    requires p.n > 0 && p.n <= |p.x| && p.n <= |p.y| && p.n <= |p.period|
    requires forall i :: 0 <= i < p.n ==> |p.period[i]| > 0
    requires tStep != 0.0 && -2 <= value < 2
    ensures MeanOfRun(p, coupling, tLast, tStep, value).Ok?
    ensures TruncDiv(tLast, tStep).value >= 1 ==>
      |MeanOfRun(p, coupling, tLast, tStep, value).value|
        == Min(TruncDiv(tLast, tStep).value, |p.t|)
  {
    forall i | 0 <= i < p.n ensures SolveOscillator(p, coupling, i).Ok? {
      SolveOscillatorDefined(p, coupling, i);
    }
    SolveAllEntries(p, coupling, p.n);
    TailWindowLength(|p.t|, TruncDiv(tLast, tStep).value);
  }

  // ---------------------------------------------------------------------
  // The Clock_Interaction class

  /** A population of oscillators; the methods only read the fields. */
  class ClockInteraction {
    const x: seq<real>
    const y: seq<real>
    const t: seq<real>
    const A: real
    const period: seq<seq<real>>
    const lam: real
    const n: int
    const lib: NumPyMaths
    const integ: Integrator<Oscillator>

    constructor (x: seq<real>, y: seq<real>, t: seq<real>, A: real, period: seq<seq<real>>,
                 lam: real, n: int, lib: NumPyMaths, integ: Integrator<Oscillator>)
      ensures this.x == x && this.y == y && this.t == t && this.A == A && this.period == period
      ensures this.lam == lam && this.n == n && this.lib == lib && this.integ == integ
    {
      this.x := x;
      this.y := y;
      this.t := t;
      this.A := A;
      this.period := period;
      this.lam := lam;
      this.n := n;
      this.lib := lib;
      this.integ := integ;
    }

    /** The constants of this population. */
    function Config(): Population {
      Population(x, y, t, A, period, lam, n, lib, integ)
    }

    /** The loop shared by the two solvers: oscillators 0 .. n-1 in order. */
    method Solve(coupling: Coupling) returns (r: Result<seq<Matrix>>)
      ensures r == SolveAll(Config(), coupling, RangeCount(n))
    {
      var sol: seq<Matrix> := [];
      var i := 0;
      while i < RangeCount(n)
        invariant 0 <= i <= RangeCount(n)
        invariant SolveAll(Config(), coupling, i) == Ok(sol)
      {
        var s := SolveOscillator(Config(), coupling, i);
        assert Step(Config(), coupling)(i) == s;
        if s.Err? {
          SolveAllPrefixErr(Config(), coupling, i + 1, RangeCount(n));
          return Err(s.error);
        }
        sol := sol + [s.value];
        i := i + 1;
      }
      r := Ok(sol);
    }

    /** `autonomous_solver`: one solution per free-running oscillator. */
    method AutonomousSolver() returns (r: Result<seq<Matrix>>)
      ensures r == SolveAll(Config(), Autonomous, RangeCount(n))
    {
      r := Solve(Autonomous);
    }

    /** `coupled_solver(t_last, t_step, K)`: one solution per oscillator
      coupled with strength K (t_last and t_step are not used). */
    method CoupledSolver(tLast: real, tStep: real, K: real) returns (r: Result<seq<Matrix>>)
      ensures r == SolveAll(Config(), MeanFieldCoupled(K), RangeCount(n))
    {
      r := Solve(MeanFieldCoupled(K));
    }

    /** `autonom_mean(t_last, t_step, value)`. */
    method AutonomMean(tLast: real, tStep: real, value: int) returns (r: Result<seq<real>>)
      ensures r == MeanOfRun(Config(), Autonomous, tLast, tStep, value)
    {
      var sol :- AutonomousSolver();
      var keep :- TruncDiv(tLast, tStep);
      r := PopulationMean(sol, |t|, keep, value);
    }

    /** `coupled_mean(t_last, t_step, K, value)`. */
    method CoupledMean(tLast: real, tStep: real, K: real, value: int) returns (r: Result<seq<real>>)
      ensures r == MeanOfRun(Config(), MeanFieldCoupled(K), tLast, tStep, value)
    {
      var sol :- CoupledSolver(tLast, tStep, K);
      var keep :- TruncDiv(tLast, tStep);
      r := PopulationMean(sol, |t|, keep, value);
    }
  }
}
