# Circadian oscillator models in Dafny

This project models the numerical core of a small collection of
chronobiology oscillators:

- The **Goodwin oscillator** (`ODE/goodwin.py`). This is a three-stage negative feedback loop x → y → z ⊣ x.
  - The model has its plain right-hand side and a variant with a positive loop on x.
  - The `Goodwin` class solves the system with `odeint` and normalizes each series of the settled tail to its mean.
  - It measures the period from the first two maxima.
  - It sweeps one rate constant v[i] over `np.arange(start, end, step)` for bifurcation diagrams: per-entry solutions, normalized tails, extrema, peak indices and mean peak spacings.
  - The sweep rewrites the caller's rate list in place.
  - The model also covers the NaN filter applied before the period plot.
- **Clock interaction** (`ODE/clock_interaction.py`). This is a population of amplitude–phase oscillators, free-running or coupled through the mean field `sum(x)/n`. It also computes the population mean of one state variable over the settled tail.
- The **forced Duffing oscillator** of the Poincaré-section page (`dashapp/ODE/duffing_poincare.py`). It covers the right-hand side and the tail slices of the x, y and phase-z series.
- The **Goodwill models** class of `ODE.py`, which evaluates one Goodwin-type right-hand side at a stored state.

Modules:

| module | file | content |
|---|---|---|
| `PyNumerics` | `numerics.dfy` | float64 values (`Fin`, ±inf, NaN) and NumPy's division. Python exceptions as `Result`. `int()`, `np.arange`, Python indexing and `a[-keep:]`, `sum`, `np.mean`, `np.diff`, the builtin `max`/`min`, 2-D arrays |
| `SciPy` | `scipy.dfy` | `odeint` over an abstract integrator, and `argrelmax` |
| `OdeGoodwin` | `goodwin.dfy` | `ODE/goodwin.py` |
| `OdeClockInteraction` | `clock_interaction.dfy` | `ODE/clock_interaction.py` |
| `DashDuffingPoincare` | `duffing_poincare.dfy` | `dashapp/ODE/duffing_poincare.py` |
| `OdeModels` | `ode_models.dfy` | `ODE.py` |

How the Python objects are represented:

- A value is a `Float`: a finite `real`, an infinity or NaN.
  - Division of NumPy floats follows NumPy: x/0 is ±inf and 0/0 is NaN. This covers the right-hand sides, whose operands come from odeint's float64 state or NumPy arrays.
  - Division where an operand is a plain Python number raises ZeroDivisionError for a zero divisor. This covers `meanfield`'s `sum(x)/n` on the class's list. "Left out" names the argument types each right-hand side assumes.
  - Python's `int(a / b)` raises `ZeroDivisionError` for b = 0.
- Python exceptions are `Err(ZeroDivisionError | IndexError | ValueError | RuntimeError)`. The first exception ends the computation.
- `odeint` is a function of the right-hand side, its `args`, the initial state and the time grid.
  - The numbers its adaptive solver produces come from an abstract `Integrator` parameter.
  - What is fixed: one row per time point, one column per state variable, and row 0 is the initial state.
  - It raises the right-hand side's exception when evaluating at the initial state raises. It fails when the right-hand side returns the wrong number of derivatives.
- `np.sqrt`, `np.cos` and `np.pi` are an abstract `Maths` record with π > 0.
- `Goodwin` is a class whose rate list `v` is an `array<real>`, since `v_change` writes into the caller's list.
  - Its other fields are constants.
  - Each method is proved equal to a specification function of the rate list on entry.
  - Each method also states what the list holds afterwards.
- `Clock_Interaction` is a class with constant fields whose solver loops are proved against specification functions.
- `Duffing` and `Goodwill_models` are only written by their constructors, so they are datatypes with member functions.

## Model

| member | source | states |
|---|---|---|
| `OdeGoodwin.GoodwinRhs` | ODE/goodwin.py:8-25 | ValueError unless there are 3 states, 6 rates and 4 constants; three derivatives; each derivative is finite exactly when none of its denominators (K1^n + z^n, K2 + x, K4 + y, K6 + z) is zero |
| `OdeGoodwin.GoodwinWithPositiveLoop` | ODE/goodwin.py:27-46 | same unpacking errors and length; dx is finite exactly when its two denominators are non-zero |
| `OdeGoodwin.PositiveLoopSharesYZ` | ODE/goodwin.py:27-46 | the positive loop leaves dy and dz equal to Goodwin's |
| `OdeGoodwin.PositiveLoopWithoutFeedback` | ODE/goodwin.py:27-46 | with c = 0 the positive-loop model is the Goodwin model, on every input |
| `OdeGoodwin.GoodwinAutonomous` | ODE/goodwin.py:8-46 | neither right-hand side depends on the time argument |
| `OdeGoodwin.NormalizeWindow` | ODE/goodwin.py:133 | dividing a window by its mean keeps its length |
| `OdeGoodwin.NormalizedMeanIsOne` | ODE/goodwin.py:133 | for a non-zero mean the normalized series is finite and has mean 1, and multiplying back by the mean recovers every value |
| `OdeGoodwin.ZeroMeanNormalizesToNonFinite` | ODE/goodwin.py:133 | for a zero mean no normalized value is finite (inf or NaN, no exception) |
| `OdeGoodwin.NormalizeTail` | ODE/goodwin.py:131-133 | one series per column; each is as long as the `[-keep:]` window and is that column's window divided by its mean |
| `OdeGoodwin.NormalizerOf` | ODE/goodwin.py:118-135 | one series per state variable; each is no longer than t, and exactly min(keep, len t) long when keep ≥ 1; once the solve succeeds it fails exactly when t_step = 0 |
| `OdeGoodwin.PositiveFeedbackOffIsGoodwin` | ODE/goodwin.py:469-489 | the positive-feedback normalizer with c = 0 equals the plain normalizer, provided the solver sees the right-hand side only through its values |
| `OdeGoodwin.FirstPeakGap` | ODE/goodwin.py:148-153 | succeeds exactly when the series has two strict local maxima (otherwise IndexError); the result is t[b] - t[a] for the first two maxima a < b, and is positive on an increasing grid |
| `OdeGoodwin.TwoPeaksReported` | ODE/goodwin.py:149-153 | `maxi[1]` exists exactly when the series has two strict local maxima, and then `maxi[0]`, `maxi[1]` are the first two of them |
| `OdeGoodwin.SweepVectors` | ODE/goodwin.py:228-230 | one copy of the rate list per swept value, each equal to the list with the swept slot replaced by that value |
| `OdeGoodwin.VChangeOf` | ODE/goodwin.py:224-232 | one rate list per value of np.arange, each as long as v |
| `OdeGoodwin.VAfterChange` | ODE/goodwin.py:224-229 | the caller's list keeps its length after the loop writes into it |
| `OdeGoodwin.VChangeSweeps` | ODE/goodwin.py:209-232 | fails exactly for a zero step (ZeroDivisionError) or, when the range is non-empty, an index outside [-len v, len v) (IndexError); entry j has slot idx = start + j·step and every other slot unchanged; one entry per range value; the list ends holding the last entry |
| `OdeGoodwin.VChangeRepeatable` | ODE/goodwin.py:209-232 | running the same sweep again on the list the first run left behind gives the same lists and leaves the same list |
| `OdeGoodwin.SolveEach` | ODE/goodwin.py:252 | one solution per rate list, each with 3 columns and len t rows |
| `OdeGoodwin.SolveEachEntries` | ODE/goodwin.py:252 | solution i is odeint's for rate list i; the list fails exactly when some solve fails |
| `OdeGoodwin.SolveEachPrefixErr` | ODE/goodwin.py:252 | a failing solve in a prefix fails the whole comprehension with the same exception |
| `OdeGoodwin.BifurcationSolverOf` | ODE/goodwin.py:246-254 | a zero step raises ZeroDivisionError; otherwise one solution per range value, each with 3 columns and len t rows |
| `OdeGoodwin.NormalizeEach` | ODE/goodwin.py:274-281 | one normalized entry per solution |
| `OdeGoodwin.BifurcationNormalizerOf` | ODE/goodwin.py:257-284 | a zero step raises ZeroDivisionError; once the solves succeed it fails exactly when t_step = 0; one entry per range value |
| `OdeGoodwin.BifurcationNormalizerBounded` | ODE/goodwin.py:257-284 | every entry has one series per state variable, none longer than t |
| `OdeGoodwin.BifurcationNormalizerShape` | ODE/goodwin.py:257-284 | for a well-formed model, a non-zero step, a valid index and keep ≥ 1 it succeeds, with one entry per range value and series of length min(keep, len t) |
| `OdeGoodwin.NormalizeSolutions` | ODE/goodwin.py:274-281 | the nested loops produce exactly the per-solution normalized tails |
| `OdeGoodwin.ColumnMaxima` | ODE/goodwin.py:338 | ValueError exactly when a series is empty; otherwise entry c is builtin max of series c |
| `OdeGoodwin.ColumnMinima` | ODE/goodwin.py:339 | ValueError exactly when a series is empty; otherwise entry c is builtin min of series c |
| `OdeGoodwin.ExtremaOf` | ODE/goodwin.py:333-341 | ValueError exactly when some series is empty; maxi and mini have one list per entry and one value per series, each the builtin max/min of that series |
| `OdeGoodwin.ExtremaBracket` | ODE/goodwin.py:333-341 | for an all-finite series the reported maximum and minimum are values of the series and bracket every value |
| `OdeGoodwin.BifurcationExtremaOf` | ODE/goodwin.py:320-341 | maxi and mini have one entry per range value with len(par) values each, entry (i, c) being builtin max/min of normalized series c of entry i; once the normalizer succeeds it fails exactly when some series is empty |
| `OdeGoodwin.BifurcationExtremaDefined` | ODE/goodwin.py:320-341 | for a well-formed model, a non-zero step, a valid index, keep ≥ 1 and a non-empty t it never raises, with one entry per range value |
| `OdeGoodwin.MaximaIndexOf` | ODE/goodwin.py:357-362 | one list of peak lists per sweep entry |
| `OdeGoodwin.MaximaIndex` | ODE/goodwin.py:358-362 | the loop returns exactly the peak lists of every series of every entry |
| `OdeGoodwin.PeaksOfEach` | ODE/goodwin.py:360 | one peak list per series |
| `OdeGoodwin.MaximaIndexExact` | ODE/goodwin.py:360 | the reported peaks of a series are exactly its strict local maxima, in increasing order |
| `OdeGoodwin.MaximaIndexWithinGrid` | ODE/goodwin.py:344-362 | every peak index of a sweep lies inside the time grid t |
| `OdeGoodwin.BifurcationMaximaIndexOf` | ODE/goodwin.py:344-362 | succeeds exactly when the normalizer does, with one entry per range value and len(par) peak lists per entry |
| `OdeGoodwin.PeakPeriod` | ODE/goodwin.py:438-439 | IndexError exactly when a peak index is beyond the grid; the mean spacing is finite exactly when there are at least two peaks, and NaN with fewer |
| `OdeGoodwin.PeakTimes` | ODE/goodwin.py:438 | `t[peaks]`: one grid time per peak |
| `OdeGoodwin.PeakPeriodOnGrid` | ODE/goodwin.py:433-439 | on np.arange(0, t_last, t_step) the mean spacing of two or more peaks is t_step·(last - first)/(count - 1) |
| `OdeGoodwin.PeakPeriodOnEvenGrid` | ODE/goodwin.py:438-439 | the same on any grid whose point j is j·t_step |
| `OdeGoodwin.PeriodsOf` | ODE/goodwin.py:435-441 | one period per sweep entry; only IndexError can be raised |
| `OdeGoodwin.EntryPeriod` | ODE/goodwin.py:438-439 | only IndexError can be raised |
| `OdeGoodwin.PeriodsEntries` | ODE/goodwin.py:435-441 | succeeds exactly when every entry's period is defined; entry i is that entry's period |
| `OdeGoodwin.EntryPeriodDefined` | ODE/goodwin.py:438-439 | defined exactly when par_index selects a series and every peak of it lies within the grid |
| `OdeGoodwin.PeriodsPrefixErr` | ODE/goodwin.py:437-441 | a failing entry fails the loop with the same exception |
| `OdeGoodwin.PeriodsDefined` | ODE/goodwin.py:437-441 | the loop succeeds when every entry has the series and no series is longer than the grid |
| `OdeGoodwin.Periods` | ODE/goodwin.py:435-441 | the loop returns exactly PeriodsOf: one period per entry, or IndexError at the first entry that lacks the series or has a peak beyond the grid |
| `OdeGoodwin.BifurkationPeriodOf` | ODE/goodwin.py:416-441 | one period per range value; once the maxima succeed only IndexError can be raised |
| `OdeGoodwin.BifurkationPeriodDefined` | ODE/goodwin.py:416-441 | with a positive t_step ≤ t_last, a well-formed model and valid indices the periods never raise, one per range value |
| `OdeGoodwin.DefinedPeriods` | ODE/goodwin.py:449-452 | IndexError exactly when the mask and the values differ in length; otherwise both results have one entry per non-NaN period and no NaN remains |
| `OdeGoodwin.DefinedIndices` | ODE/goodwin.py:449 | the positions `~np.isnan(period)` selects (the snoc-built list of non-NaN positions) |
| `OdeGoodwin.DefinedIndicesSelect` | ODE/goodwin.py:449 | those positions are in range, strictly increasing, and position i is listed exactly when period i is not NaN |
| `OdeGoodwin.DefinedPeriodsAtIndices` | ODE/goodwin.py:449-452 | entry j of the kept values and periods is the pair at the j-th selected position, so exactly the non-NaN pairs are kept, in input order |
| `OdeGoodwin.DefinedPeriodsSnoc` | ODE/goodwin.py:449-452 | one more pair is appended to the result exactly when its period is not NaN |
| `OdeGoodwin.DefinedPeriodsKeepsPairs` | ODE/goodwin.py:449-452 | every kept (v, period) pair is a pair of the input |
| `OdeGoodwin.DefinedPeriodsAllDefined` | ODE/goodwin.py:449-452 | with no NaN the filter changes nothing |
| `OdeGoodwin.PeriodDynamicDefined` | ODE/goodwin.py:444-452 | under the conditions of BifurkationPeriodDefined the filter never raises |
| `OdeGoodwin.PeriodDynamicOf` | ODE/goodwin.py:444-452 | succeeds exactly when the periods do; the kept values and periods have one length and no NaN period |
| `OdeGoodwin.PeriodDynamicIsFilter` | ODE/goodwin.py:444-452 | the plotted pairs are the NaN filter over the range values and the periods, which have one entry per range value |
| `OdeGoodwin.NaNEntryDropped` | ODE/goodwin.py:449-452 | a NaN period's position is not selected by the mask; the kept pairs are exactly those at the selected positions |
| `OdeGoodwin.PeriodsFewPeaksNaN` | ODE/goodwin.py:437-439 | an entry whose chosen series has fewer than two maxima gets a NaN period |
| `OdeGoodwin.FewPeaksDropped` | ODE/goodwin.py:437-452 | a sweep value whose chosen series has fewer than two maxima gets a NaN period and is not among the pairs period_dynamic_plot keeps, which are the non-NaN ones in order |
| `OdeGoodwin.Goodwin.constructor` | ODE/goodwin.py:74-100 | stores every argument; v is the caller's list itself |
| `OdeGoodwin.Goodwin.GoodwinSolver` | ODE/goodwin.py:103-115 | succeeds exactly for 3 states, 6 rates and 4 constants (otherwise ValueError); one row of 3 values per time point, starting at par |
| `OdeGoodwin.Goodwin.GoodwinNormalizer` | ODE/goodwin.py:118-135 | succeeds exactly for a well-formed model and t_step ≠ 0; three series, none longer than t |
| `OdeGoodwin.Goodwin.GoodwinPeriod` | ODE/goodwin.py:138-155 | the normalizer's exception when it raises; otherwise IndexError for par_index outside [-3, 3), and for a valid index the call succeeds exactly when the chosen normalized series has two strict maxima (IndexError otherwise), the result being t[b] - t[a] for the first two, positive on an increasing grid |
| `OdeGoodwin.Goodwin.GoodwinPositiveFeedback` | ODE/goodwin.py:469-477 | succeeds exactly for a well-formed model; one row of 3 values per time point |
| `OdeGoodwin.Goodwin.GoodwinPositiveFeedbackNormalizier` | ODE/goodwin.py:479-489 | succeeds exactly for a well-formed model and t_step ≠ 0; three series, none longer than t |
| `OdeGoodwin.Goodwin.FeedbackOffNormalizesLikeGoodwin` | ODE/goodwin.py:479-489 | with c = 0 it returns what goodwin_normalizer returns |
| `OdeGoodwin.Goodwin.VChange` | ODE/goodwin.py:209-232 | returns the sweep's rate lists (VChangeOf of the list on entry); afterwards the swept slot of the caller's list holds the last value |
| `OdeGoodwin.Goodwin.BifurcationSolver` | ODE/goodwin.py:235-254 | returns one solve per swept rate list; the rate list is left as v_change leaves it |
| `OdeGoodwin.Goodwin.SolveSweep` | ODE/goodwin.py:252 | the comprehension returns exactly SolveEach of the class constants: one odeint solve per rate list, or the first solve's exception |
| `OdeGoodwin.Goodwin.BifurcationNormalizer` | ODE/goodwin.py:257-284 | returns the normalized tails of every solve; the rate list is left as v_change leaves it |
| `OdeGoodwin.Goodwin.BifurcationExtrema` | ODE/goodwin.py:320-341 | returns the per-series maxima and minima of the sweep; the rate list is left as v_change leaves it |
| `OdeGoodwin.Goodwin.BifurcationMaximaIndex` | ODE/goodwin.py:344-362 | returns the peak indices of every normalized series; the rate list is left as v_change leaves it |
| `OdeGoodwin.Goodwin.BifurkationPeriod` | ODE/goodwin.py:416-441 | returns the mean peak spacing of series par_index for every entry; the rate list is left as v_change leaves it |
| `OdeGoodwin.Goodwin.PeriodDynamic` | ODE/goodwin.py:444-452 | returns the sweep values and periods with NaN periods dropped |
| `PyNumerics.Quot` | ODE/goodwin.py:133 | NumPy division is finite exactly when the divisor is non-zero |
| `PyNumerics.MapOrRaise` | ODE/goodwin.py:252 | a comprehension whose element may raise gives one value per element |
| `PyNumerics.MapOrRaiseEntries` | ODE/goodwin.py:252 | the comprehension succeeds exactly when every element does; entry i is element i's value; a failure is some element's exception |
| `PyNumerics.MapOrRaisePrefixErr` | ODE/goodwin.py:252 | a failing prefix fails the whole comprehension with the same exception |
| `PyNumerics.MapOrRaiseSnoc` | ODE/goodwin.py:437-439 | one more successful element appends its value to the list built so far |
| `PyNumerics.TruncDiv` | ODE/goodwin.py:131 | `int(t_last / t_step)` raises exactly when t_step = 0 |
| `PyNumerics.TruncDivBrackets` | ODE/goodwin.py:131 | for t_step > 0 and t_last ≥ 0, keep·t_step ≤ t_last < (keep + 1)·t_step |
| `PyNumerics.Arange` | ODE/goodwin.py:225 | raises exactly for a zero step; value j is start + j·step |
| `PyNumerics.ArangeIsHalfOpen` | ODE/goodwin.py:433 | with a positive step the values are exactly those below stop: none when start ≥ stop, otherwise ceil((stop - start)/step) of them |
| `PyNumerics.PyIndex` | ODE/goodwin.py:229 | Python indexing: raises exactly outside [-len, len); negative indices count from the end |
| `PyNumerics.TailWindowLength` | ODE/goodwin.py:133 | `a[-keep:]` keeps min(keep, len) rows for keep ≥ 1, all rows for keep = 0, and drops the first -keep rows for keep < 0 |
| `PyNumerics.TailColumn` | ODE/goodwin.py:133 | entry i of `m[-keep:, j]` is row TailStart + i, column j |
| `PyNumerics.NpMean` | ODE/goodwin.py:439 | np.mean is finite exactly for a non-empty array |
| `PyNumerics.Diffs` | ODE/goodwin.py:438 | np.diff: one fewer entry; entry i is s[i+1] - s[i] |
| `PyNumerics.MeanDiff` | ODE/goodwin.py:438-439 | the mean consecutive difference is (last - first)/(len - 1), and NaN below two entries |
| `PyNumerics.SumBounds` | ODE/clock_interaction.py:180 | values between lo and hi sum to between len·lo and len·hi |
| `PyNumerics.MeanBetween` | ODE/clock_interaction.py:180 | the mean of values between lo and hi lies between lo and hi |
| `PyNumerics.BuiltinMax` | ODE/goodwin.py:338 | builtin max raises ValueError exactly for an empty series |
| `PyNumerics.BuiltinMin` | ODE/goodwin.py:339 | builtin min raises ValueError exactly for an empty series |
| `PyNumerics.BuiltinExtremaBound` | ODE/goodwin.py:338-339 | on a non-empty finite series max and min are members that bound every value |
| `SciPy.Odeint` | ODE/goodwin.py:115 | succeeds exactly when the right-hand side succeeds at the initial state with one derivative per state, and otherwise raises its exception; a len t × len y0 array whose first row is y0 |
| `SciPy.OdeintSameField` | ODE/goodwin.py:115 | integrating two argument sets that give the same field gives the same result |
| `SciPy.LocalMaximaFrom` | ODE/goodwin.py:149 | the strict local maxima at or after i, all of them, increasing |
| `SciPy.ArgRelMax` | ODE/goodwin.py:149 | every reported index lies inside the series (and, via LocalMaximaFrom, they are exactly its strict interior maxima) |
| `OdeClockInteraction.MeanField` | ODE/clock_interaction.py:9-24 | ZeroDivisionError exactly for n = 0; otherwise the result times n is sum(x) |
| `OdeClockInteraction.MeanFieldOfEqualValues` | ODE/clock_interaction.py:9-24 | the mean field of n equal concentrations is that concentration |
| `OdeClockInteraction.HeterogeneousOscillator` | ODE/clock_interaction.py:27-47 | ValueError unless the state has 2 values; two derivatives, each finite exactly when period ≠ 0 |
| `OdeClockInteraction.CoupledOscillator` | ODE/clock_interaction.py:50-73 | succeeds exactly for a 2-value state and n ≠ 0; ValueError for the state, ZeroDivisionError for n = 0; two derivatives |
| `OdeClockInteraction.CoupledIsDrivenHeterogeneous` | ODE/clock_interaction.py:50-73 | dx is the free oscillator's dx plus K times the mean field of x_total; dy is the free oscillator's dy |
| `OdeClockInteraction.UncoupledWhenKZero` | ODE/clock_interaction.py:50-73 | with K = 0 the coupled oscillator is the free one |
| `OdeClockInteraction.OriginIsRestPoint` | ODE/clock_interaction.py:27-47 | for period ≠ 0 the origin is a rest point; for period = 0 the derivative is NaN there |
| `OdeClockInteraction.LimitCycleRotation` | ODE/clock_interaction.py:27-47 | on the circle of radius A the amplitude term vanishes and the flow is the rotation (-ω·y, ω·x), ω = 2π/period |
| `OdeClockInteraction.SolveOscillator` | ODE/clock_interaction.py:120-121 | one solve gives a 2-column array with one row per time point |
| `OdeClockInteraction.SolveOscillatorDefined` | ODE/clock_interaction.py:119-121 | a solve fails exactly when x[i], y[i] or period[i][0] is missing, with IndexError; the first row is (x[i], y[i]) |
| `OdeClockInteraction.RunAll` | ODE/clock_interaction.py:117-123 | a loop of count iterations whose body may raise yields count results |
| `OdeClockInteraction.RunAllEntries` | ODE/clock_interaction.py:117-123 | the loop succeeds exactly when every iteration does, and entry i is iteration i's result |
| `OdeClockInteraction.RunAllPrefixErr` | ODE/clock_interaction.py:117-123 | the first failing iteration ends the loop with its exception |
| `OdeClockInteraction.RunAllSame` | ODE/clock_interaction.py:117-123 | loops whose iterations agree give the same result |
| `OdeClockInteraction.SolveAll` | ODE/clock_interaction.py:117-123 | one 2-column solution per oscillator, each with len t rows |
| `OdeClockInteraction.SolveAllEntries` | ODE/clock_interaction.py:117-123 | a run succeeds exactly when every oscillator's solve does; entry i is oscillator i's solution |
| `OdeClockInteraction.SolveAllPrefixErr` | ODE/clock_interaction.py:117-123 | the first failing solve ends the run with its exception |
| `OdeClockInteraction.ZeroCouplingIsAutonomous` | ODE/clock_interaction.py:150-174 | the coupled run with K = 0 equals the autonomous run, provided the solver sees the field only through its values |
| `OdeClockInteraction.Across` | ODE/clock_interaction.py:180 | the (row, column) entry of every solution, in order |
| `OdeClockInteraction.PopulationMean` | ODE/clock_interaction.py:180 | IndexError exactly for no solutions or value outside [-2, 2); otherwise one mean per retained row |
| `OdeClockInteraction.PopulationMeanOfCopies` | ODE/clock_interaction.py:180 | a population of identical solutions averages to that solution's retained column |
| `OdeClockInteraction.PopulationMeanIsMeanField` | ODE/clock_interaction.py:179-180 | entry j is `meanfield(n, …)` of the n oscillators' component at retained row j |
| `OdeClockInteraction.PopulationMeanBetween` | ODE/clock_interaction.py:179-180 | entry j lies between any lower and upper bound of the oscillators' component at retained row j |
| `OdeClockInteraction.MeanOfRun` | ODE/clock_interaction.py:177-201 | once the run succeeds a zero t_step raises ZeroDivisionError; otherwise one mean per row of the `[-int(keep):]` window |
| `OdeClockInteraction.MeanOfRunDefined` | ODE/clock_interaction.py:177-201 | with n oscillators described, t_step ≠ 0 and a valid column the mean succeeds and has min(keep, len t) entries |
| `OdeClockInteraction.ClockInteraction.constructor` | ODE/clock_interaction.py:84-102 | stores every argument |
| `OdeClockInteraction.ClockInteraction.Solve` | ODE/clock_interaction.py:117-123 | the loop returns exactly the run of oscillators 0 .. n-1 |
| `OdeClockInteraction.ClockInteraction.AutonomousSolver` | ODE/clock_interaction.py:104-123 | returns the free-running run |
| `OdeClockInteraction.ClockInteraction.CoupledSolver` | ODE/clock_interaction.py:150-174 | returns the run coupled with strength K to the initial x list |
| `OdeClockInteraction.ClockInteraction.AutonomMean` | ODE/clock_interaction.py:177-182 | returns the population mean of the free-running run's retained column |
| `OdeClockInteraction.ClockInteraction.CoupledMean` | ODE/clock_interaction.py:185-201 | returns the population mean of the coupled run's retained column |
| `DashDuffingPoincare.DuffingRhs` | dashapp/ODE/duffing_poincare.py:8-15 | ValueError unless the state has 3 values; three derivatives, all finite |
| `DashDuffingPoincare.DuffingKinematics` | dashapp/ODE/duffing_poincare.py:11-13 | x' is the velocity y; z' times 2π is ω |
| `DashDuffingPoincare.ForcingPhaseIsUniform` | dashapp/ODE/duffing_poincare.py:13 | the forcing phase advances at the same rate from every state and time |
| `DashDuffingPoincare.UnforcedRestoringForceIsOdd` | dashapp/ODE/duffing_poincare.py:12 | without damping and forcing, y' at -x is the negation of y' at x |
| `DashDuffingPoincare.Duffing.DuffingSolver` | dashapp/ODE/duffing_poincare.py:27-36 | a solution has one column per state value and one row per time point |
| `DashDuffingPoincare.Duffing.DuffingSolverDefined` | dashapp/ODE/duffing_poincare.py:27-36 | the solve fails exactly when the state does not have 3 values (ValueError); 3 columns; the first row is par |
| `DashDuffingPoincare.Duffing.Solv` | dashapp/ODE/duffing_poincare.py:45-47 | succeeds exactly when the solve does; entry i is the given column at retained row i, and there are len t - TailStart of them |
| `DashDuffingPoincare.Duffing.XSolv` | dashapp/ODE/duffing_poincare.py:39-49 | succeeds exactly when the solve does; entry i is x at retained row i |
| `DashDuffingPoincare.Duffing.YSolv` | dashapp/ODE/duffing_poincare.py:52-64 | succeeds exactly when the solve does; entry i is y at retained row i |
| `DashDuffingPoincare.Duffing.ZSolv` | dashapp/ODE/duffing_poincare.py:67-79 | succeeds exactly when the solve does; entry i is z at retained row i |
| `DashDuffingPoincare.Duffing.SlicesAreRowAligned` | dashapp/ODE/duffing_poincare.py:39-79 | the three slices have one length and together form the retained rows of the solution |
| `DashDuffingPoincare.Duffing.SliceLength` | dashapp/ODE/duffing_poincare.py:47 | `sol[-keep:]` keeps min(keep, len t) points for keep ≥ 1, and all of them, starting at par, for keep = 0 |
| `OdeModels.GoodwillModels.Goodwill` | ODE.py:24-41 | IndexError unless par, v and k have at least 3, 6 and 4 entries; three derivatives |
| `OdeModels.GoodwillModels.GoodwillFiniteness` | ODE.py:37-39 | each derivative is finite exactly when its denominators (K1^n + z, K2 + x, K4 + y, K6 + z) are non-zero |
| `OdeModels.GoodwillModels.GoodwillIsGoodwinForLinearRepression` | ODE.py:37-39 | for n = 1 `goodwill` is the Goodwin right-hand side of ODE/goodwin.py |
| `OdeModels.GoodwillModels.SecondComponentIgnoresRepressor` | ODE.py:38 | y' depends on neither z nor n |
| `OdeModels.GoodwillModels.NoRepressorFullProduction` | ODE.py:37 | with z = 0 and K1 ≠ 0 x is produced at the full rate v1 |
| `OdeModels.GoodwillIntended` | ODE.py:25-31 | the formula of the docstring: same errors and length as `goodwill` |
| `OdeModels.IntendedGoodwillIsGoodwin` | ODE.py:25-31 | the intended formula is Goodwin's right-hand side of ODE/goodwin.py for every n |
| `OdeModels.GoodwillDiffersOnlyInRepression` | ODE.py:37-39 | the written and the intended x' differ only in the repression term; y' and z' are equal |
| `OdeModels.LinearRepressionAgrees` | ODE.py:37 | for n = 1 the written repression term equals the documented one |
| `OdeModels.RepressionTermsDiffer` | ODE.py:37 | at v1 = K1 = 1, z = 2, n = 2 the written repression term is 1/3 and the documented one 1/5 |
| `OdeModels.GoodwillRepressionCounterexample` | ODE.py:37 | at that state (with x = v2 = 0) `goodwill` gives x' = 1/3, the documented formula 1/5, so the two differ |

## Left out

- Plotting, the Dash pages, `action.py` and the `limitcircle_*`, `*_plot` and `bifurkacation_normalizier_plot` methods: they draw figures. Of `period_dynamic_plot`, only the NaN filter is modelled.
- `goodwill_solver` (ODE.py:44-48): it copies the fields into locals and returns None. There is nothing to model.
- The numbers `odeint` integrates: they come from an abstract integrator. Only the shape of the result, its first row and the exceptions raised by the right-hand side at the initial state are fixed. SciPy's own warnings and failures are not modelled.
- `np.sqrt`, `np.cos` and `np.pi` are uninterpreted. The only assumption is π > 0.
- Floating-point rounding and overflow: values are exact reals. Infinities and NaN appear only where a division by zero creates them. Signed zero is not distinguished.
- `find_peaks`: modelled as strict local maxima, which is what `argrelmax` reports. `find_peaks` also reports the middle of a flat plateau, and that is not modelled.
- The Hill exponent `n` is a natural number. Negative and fractional exponents are not modelled.
- `OdeClockInteraction.MeanField`: takes `x` to be a Python list of floats, as the class passes it, so `sum(x)/0` raises ZeroDivisionError. For a NumPy array, which the docstring also allows, it would give inf or NaN instead.
- `OdeClockInteraction.HeterogeneousOscillator`: takes `period` to be a NumPy float (an entry of a NumPy array), so `2 * np.pi / period` gives inf or NaN for a zero period. A plain Python float of 0 would raise ZeroDivisionError instead.
- `OdeModels.GoodwillModels.Goodwill`: divides with NumPy semantics (inf/NaN, as when the fields are NumPy arrays). Plain Python floats would raise ZeroDivisionError instead.
- `OdeClockInteraction.ClockInteraction.CoupledSolver`: follows the code. The coupling term uses the initial x list as `x_total` for the whole run, so the mean field is constant in time. It does not track the population's current x.
- `OdeGoodwin.Goodwin.GoodwinPositiveFeedbackNormalizier`, `OdeGoodwin.Goodwin.GoodwinNormalizer`: the exact series lengths are stated in `NormalizerOf` (for keep ≥ 1), not in the class members.
- `SciPy.ArgRelMax`: its own contract only bounds the indices. Exactness (every strict interior maximum, in order) is stated by `LocalMaximaFrom` and `MaximaIndexExact`.
- Aliasing of `par`, `t` and `k`: the source never writes them, so they are values. Only `v` is an array shared with the caller.

## Findings

| source | as written | input that shows it | evidently intended | confidence | as-written member | corrected member |
|---|---|---|---|---|---|---|
| ODE.py:37 | the repression of x divides by `k[0]**n + par[2]`, i.e. K1^n + z | n = 2, par = [0, 0, 2], v = [1, 0, …], k = [1, 1, …]: x' = 1·1/(1 + 2) - 0 = 1/3 | K1^n + z^n, as the docstring (ODE.py:25-31) and `goodwin` (ODE/goodwin.py:21) write it: x' = 1/(1 + 4) = 1/5 | not executed | `OdeModels.GoodwillModels.Goodwill` (shown by `OdeModels.GoodwillRepressionCounterexample`) | `OdeModels.GoodwillIntended` (proved equal to Goodwin's right-hand side by `OdeModels.IntendedGoodwillIsGoodwin`) |
