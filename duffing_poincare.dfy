/** The periodically forced Duffing oscillator of the Poincaré-section
    page (dashapp/ODE/duffing_poincare.py): x' = y, y' = -x - x³ - γy +
    α cos(2πz), z' = ω / 2π, where z is the phase of the forcing. */
module DashDuffingPoincare {
  import opened PyNumerics
  import opened SciPy

  /** `duffing(par, t, gamma, alpha, omega)`: unpacking raises ValueError
      unless the state is (x, y, z); the result has three finite
      components. */
  function DuffingRhs(lib: NumPyMaths, par: seq<real>, t: real, gamma: real, alpha: real, omega: real)
    : (r: Result<seq<Float>>)
    ensures r.Ok? <==> |par| == 3
    ensures r.Err? ==> r.error == ValueError
    ensures r.Ok? ==> |r.value| == 3 && forall i :: 0 <= i < 3 ==> r.value[i].Fin?
  {
    if |par| != 3 then Err(ValueError)
    else
      var x, y, z := par[0], par[1], par[2];
      Ok([Fin(y),
          Fin(-x - x * x * x - gamma * y + alpha * lib.cos(2.0 * lib.pi * z)),
          Fin(omega / (2.0 * lib.pi))])
  }

  /** x' is the velocity y, and z' is the forcing frequency ω / 2π whatever
      the state and time. */
  lemma DuffingKinematics(lib: NumPyMaths, par: seq<real>, t: real, gamma: real, alpha: real, omega: real)
    requires |par| == 3
    ensures DuffingRhs(lib, par, t, gamma, alpha, omega).value[0] == Fin(par[1])
    ensures DuffingRhs(lib, par, t, gamma, alpha, omega).value[2].val * (2.0 * lib.pi) == omega
  {
  }

  /** The forcing phase advances at the same rate from every state. */
  lemma ForcingPhaseIsUniform(lib: NumPyMaths, p: seq<real>, q: seq<real>, s: real, t: real,
                              gamma: real, alpha: real, omega: real)
    requires |p| == 3 && |q| == 3
    ensures DuffingRhs(lib, p, s, gamma, alpha, omega).value[2] == DuffingRhs(lib, q, t, gamma, alpha, omega).value[2]
  {
  }

  /** Without damping and forcing the restoring force -x - x³ is odd in x. */
  lemma UnforcedRestoringForceIsOdd(lib: NumPyMaths, x: real, y: real, z: real, y': real, z': real,
                                    t: real, omega: real)
    ensures DuffingRhs(lib, [-x, y', z'], t, 0.0, 0.0, omega).value[1]
      == Neg(DuffingRhs(lib, [x, y, z], t, 0.0, 0.0, omega).value[1])
  {
    assert (-x) * (-x) * (-x) == -(x * x * x);
  }

  /** The parameters `odeint` passes after the state: (gamma, alpha, omega). */
  datatype Forcing = Forcing(gamma: real, alpha: real, omega: real)

  function Field(lib: NumPyMaths): Rhs<Forcing> {
    (f: Forcing, state: seq<real>, time: real) => DuffingRhs(lib, state, time, f.gamma, f.alpha, f.omega)
  }

  /** A `Duffing` object: its fields are set by the constructor and never
      written again. `lib` stands for NumPy's cos and pi, `integ` for
      odeint's numerical integration. */
  datatype Duffing = Duffing(
    par: seq<real>, t: seq<real>, gamma: real, alpha: real, omega: real,
    lib: NumPyMaths, integ: Integrator<Forcing>)
  {
    /** `duffing_solver()`: the trajectory from `par` over `t`. */
    function DuffingSolver(): (r: Result<Matrix>)
      ensures r.Ok? ==> r.value.Valid() && r.value.cols == |par| && |r.value.rows| == |t|
    {
      Odeint(Field(lib), integ, Forcing(gamma, alpha, omega), par, t)
    }

    /** The solver fails (ValueError) exactly when the initial state is not
        (x, y, z); a trajectory has three columns and starts at `par`. */
    lemma DuffingSolverDefined()
      ensures DuffingSolver().Ok? <==> |par| == 3
      ensures DuffingSolver().Err? ==> DuffingSolver().error == ValueError
      ensures DuffingSolver().Ok? ==> DuffingSolver().value.cols == 3
      ensures DuffingSolver().Ok? && |t| > 0 ==> DuffingSolver().value.rows[0] == par
    {
    }

    /** `sol[-keep:, column]` of the trajectory. */
    function Solv(keep: int, column: nat): (r: Result<seq<real>>)
      requires column < 3
      ensures r.Ok? <==> DuffingSolver().Ok?
      ensures r.Ok? ==> |r.value| == |t| - TailStart(|t|, keep)
      ensures r.Ok? ==> forall i :: 0 <= i < |r.value| ==>
        r.value[i] == DuffingSolver().value.rows[TailStart(|t|, keep) + i][column]
    {
      DuffingSolverDefined();
      var sol :- DuffingSolver();
      Ok(TailColumn(sol, keep, column))
    }

    /** `x_solv(keep)`: the positions of the last `keep` time points. */
    function XSolv(keep: int): (r: Result<seq<real>>)
      ensures r.Ok? <==> DuffingSolver().Ok?
      ensures r.Ok? ==> |r.value| == |t| - TailStart(|t|, keep)
      ensures r.Ok? ==> forall i :: 0 <= i < |r.value| ==>
        r.value[i] == DuffingSolver().value.rows[TailStart(|t|, keep) + i][0]
    {
      Solv(keep, 0)
    }

    /** `y_solv(keep)`: the velocities of the last `keep` time points. */
    function YSolv(keep: int): (r: Result<seq<real>>)
      ensures r.Ok? <==> DuffingSolver().Ok?
      ensures r.Ok? ==> |r.value| == |t| - TailStart(|t|, keep)
      ensures r.Ok? ==> forall i :: 0 <= i < |r.value| ==>
        r.value[i] == DuffingSolver().value.rows[TailStart(|t|, keep) + i][1]
    {
      Solv(keep, 1)
    }

    /** `z_solv(keep)`: the forcing phases of the last `keep` time points. */
    function ZSolv(keep: int): (r: Result<seq<real>>)
      ensures r.Ok? <==> DuffingSolver().Ok?
      ensures r.Ok? ==> |r.value| == |t| - TailStart(|t|, keep)
      ensures r.Ok? ==> forall i :: 0 <= i < |r.value| ==>
        r.value[i] == DuffingSolver().value.rows[TailStart(|t|, keep) + i][2]
    {
      Solv(keep, 2)
    }

    /** The three slices for one `keep` are row-aligned: position i of each
        is a component of the same trajectory row, and together they are
        that row. */
    lemma SlicesAreRowAligned(keep: int)
      requires DuffingSolver().Ok?
      ensures XSolv(keep).Ok? && YSolv(keep).Ok? && ZSolv(keep).Ok?
      ensures |XSolv(keep).value| == |YSolv(keep).value| == |ZSolv(keep).value|
      ensures forall i :: 0 <= i < |XSolv(keep).value| ==>
        [XSolv(keep).value[i], YSolv(keep).value[i], ZSolv(keep).value[i]]
          == DuffingSolver().value.rows[TailStart(|t|, keep) + i]
    {
      DuffingSolverDefined();
      var rows := DuffingSolver().value.rows;
      var s := TailStart(|t|, keep);
      forall i | 0 <= i < |XSolv(keep).value|
        ensures [XSolv(keep).value[i], YSolv(keep).value[i], ZSolv(keep).value[i]] == rows[s + i]
      {
        assert |rows[s + i]| == 3;
      }
    }

    /** A slice holds the last min(keep, |t|) time points for keep >= 1 and
        the whole trajectory for keep == 0. */
    lemma SliceLength(keep: int, column: nat)
      requires column < 3 && DuffingSolver().Ok?
      ensures keep >= 1 ==> |Solv(keep, column).value| == Min(keep, |t|)
      ensures keep == 0 ==> |Solv(keep, column).value| == |t|
      ensures keep == 0 && |t| > 0 ==> Solv(keep, column).value[0] == par[column]
    {
      TailWindowLength(|t|, keep);
      DuffingSolverDefined();
    }
  }
}
