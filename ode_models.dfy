/** The Goodwill oscillator of ODE.py: a three-stage negative feedback loop
    x -> y -> z -| x, evaluated once at the stored state. */
module OdeModels {
  import opened PyNumerics
  import opened OdeGoodwin

  /** A Hill power of a non-zero base is non-zero. */
  lemma {:induction false} PowNonZero(b: real, n: nat)
    requires b != 0.0
    ensures Pow(b, n) != 0.0
  {
    if n > 0 {
      PowNonZero(b, n - 1);
    }
  }

  /** Raising to the first power is the identity. */
  lemma PowOne(b: real)
    ensures Pow(b, 1) == b
  {
  }

  /** For a linear repression (n = 1) the written term is the documented
      one. */
  lemma LinearRepressionAgrees(v1: real, k1: real, z: real)
    ensures WrittenRepression(v1, k1, z, 1) == Repression(v1, k1, z, 1)
  {
    PowOne(k1);
    PowOne(z);
  }

  /** The repression term of `goodwill` as written:
      v1 * (K1^n / (K1^n + z)). */
  function WrittenRepression(v1: real, k1: real, z: real, n: nat): Float {
    Mul(Fin(v1), Quot(Pow(k1, n), Pow(k1, n) + z))
  }

  /** The indices `goodwill` reads exist. */
  predicate Indexable(par: seq<real>, v: seq<real>, k: seq<real>) {
    |par| >= 3 && |v| >= 6 && |k| >= 4
  }

  /** `Goodwill_models(par, v, k, n)`: the constructor stores the state
      (x, y, z), the rates v1..v6, the constants K1, K2, K4, K6 and the Hill
      exponent unchanged, and nothing writes them afterwards. */
  datatype GoodwillModels = GoodwillModels(par: seq<real>, v: seq<real>, k: seq<real>, n: nat)
  {
    /** `goodwill()` as written: the repression term divides by
        K1^n + z instead of K1^n + z^n. An index beyond a list raises
        IndexError. */
    function Goodwill(): (r: Result<seq<Float>>)
      ensures r.Ok? <==> Indexable(par, v, k)
      ensures r.Err? ==> r.error == IndexError
      ensures r.Ok? ==> |r.value| == 3
    {
      if !Indexable(par, v, k) then Err(IndexError)
      else
        Ok([Sub(WrittenRepression(v[0], k[0], par[2], n), Degradation(v[1], par[0], k[1])),
            Sub(Fin(v[2] * par[0]), Degradation(v[3], par[1], k[2])),
            Sub(Fin(v[4] * par[1]), Degradation(v[5], par[2], k[3]))])
    }

    /** Each component of `goodwill` is finite exactly when none of its
        denominators vanishes (NumPy division yields inf or NaN). */
    lemma GoodwillFiniteness()
      requires Indexable(par, v, k)
      ensures Goodwill().value[0].Fin? <==> Pow(k[0], n) + par[2] != 0.0 && k[1] + par[0] != 0.0
      ensures Goodwill().value[1].Fin? <==> k[2] + par[1] != 0.0
      ensures Goodwill().value[2].Fin? <==> k[3] + par[2] != 0.0
    {
      SubFinite(WrittenRepression(v[0], k[0], par[2], n), Degradation(v[1], par[0], k[1]));
      SubFinite(Fin(v[2] * par[0]), Degradation(v[3], par[1], k[2]));
      SubFinite(Fin(v[4] * par[1]), Degradation(v[5], par[2], k[3]));
      MulFinite(v[0], Quot(Pow(k[0], n), Pow(k[0], n) + par[2]));
      MulFinite(v[1], Quot(par[0], k[1] + par[0]));
      MulFinite(v[3], Quot(par[1], k[2] + par[1]));
      MulFinite(v[5], Quot(par[2], k[3] + par[2]));
    }

    /** For n = 1 the written formula is the Goodwin right-hand side of
        ODE/goodwin.py on the first three states, six rates and four
        constants. */
    lemma GoodwillIsGoodwinForLinearRepression(t: real)
      requires Indexable(par, v, k) && n == 1
      ensures Goodwill() == GoodwinRhs(par[..3], t, v[..6], k[..4], 1)
    {
      var p, w, c := par[..3], v[..6], k[..4];
      assert p[0] == par[0] && p[1] == par[1] && p[2] == par[2];
      assert w[0] == v[0] && w[1] == v[1] && w[2] == v[2] && w[3] == v[3] && w[4] == v[4] && w[5] == v[5];
      assert c[0] == k[0] && c[1] == k[1] && c[2] == k[2] && c[3] == k[3];
      LinearRepressionAgrees(v[0], k[0], par[2]);
      var a, b := Goodwill().value, GoodwinRhs(p, t, w, c, 1).value;
      assert a[0] == b[0];
      assert a[1] == b[1];
      assert a[2] == b[2];
      assert a == b;
    }

    /** y' = v3·x - v4·y/(K4 + y) involves neither z nor the exponent. */
    lemma SecondComponentIgnoresRepressor(z: real, m: nat)
      requires Indexable(par, v, k)
      ensures GoodwillModels(par[2 := z], v, k, m).Goodwill().value[1] == Goodwill().value[1]
    {
      var other := GoodwillModels(par[2 := z], v, k, m);
      assert other.par[0] == par[0] && other.par[1] == par[1];
      other.ProductionOfY();
      ProductionOfY();
    }

    /** y' is v3·x minus the degradation of y. */
    lemma ProductionOfY()
      requires Indexable(par, v, k)
      ensures Goodwill().value[1] == Sub(Fin(v[2] * par[0]), Degradation(v[3], par[1], k[2]))
    {
    }

    /** Without repressor (z = 0) and with K1 != 0, x is produced at the
        full rate v1. */
    lemma NoRepressorFullProduction()
      requires Indexable(par, v, k) && par[2] == 0.0 && k[0] != 0.0
      ensures Goodwill().value[0] == Sub(Fin(v[0]), Degradation(v[1], par[0], k[1]))
    {
      PowNonZero(k[0], n);
      var p := Pow(k[0], n);
      assert p / p == 1.0;
      assert Quot(p, p + par[2]) == Fin(1.0);
      MulOne(Fin(v[0]));
    }
  }

  /** `goodwill` with the repression the formula in its documentation
      describes: v1 · K1^n / (K1^n + z^n). */
  function GoodwillIntended(g: GoodwillModels): (r: Result<seq<Float>>)
    ensures r.Ok? <==> Indexable(g.par, g.v, g.k)
    ensures r.Err? ==> r.error == IndexError
    ensures r.Ok? ==> |r.value| == 3
  {
    if !Indexable(g.par, g.v, g.k) then Err(IndexError)
    else
      var par, v, k := g.par, g.v, g.k;
      Ok([Sub(Repression(v[0], k[0], par[2], g.n), Degradation(v[1], par[0], k[1])),
          Sub(Fin(v[2] * par[0]), Degradation(v[3], par[1], k[2])),
          Sub(Fin(v[4] * par[1]), Degradation(v[5], par[2], k[3]))])
  }

  /** The intended Goodwill right-hand side is the Goodwin oscillator of
      ODE/goodwin.py for every exponent. */
  lemma IntendedGoodwillIsGoodwin(g: GoodwillModels, t: real)
    requires Indexable(g.par, g.v, g.k)
    ensures GoodwillIntended(g) == GoodwinRhs(g.par[..3], t, g.v[..6], g.k[..4], g.n)
  {
    var p, w, c := g.par[..3], g.v[..6], g.k[..4];
    assert p[0] == g.par[0] && p[1] == g.par[1] && p[2] == g.par[2];
    assert w[0] == g.v[0] && w[1] == g.v[1] && w[2] == g.v[2] && w[3] == g.v[3] && w[4] == g.v[4] && w[5] == g.v[5];
    assert c[0] == g.k[0] && c[1] == g.k[1] && c[2] == g.k[2] && c[3] == g.k[3];
    var a, b := GoodwillIntended(g).value, GoodwinRhs(p, t, w, c, g.n).value;
    assert a[0] == b[0];
    assert a[1] == b[1];
    assert a[2] == b[2];
    assert a == b;
  }

  /** The two repression terms differ at n = 2, z = 2, K1 = v1 = 1: the
      written one is 1/3, the documented one 1/5. */
  lemma RepressionTermsDiffer(v1: real, k1: real, z: real, n: nat)
    requires v1 == 1.0 && k1 == 1.0 && z == 2.0 && n == 2
    ensures WrittenRepression(v1, k1, z, n) == Fin(1.0 / 3.0)
    ensures Repression(v1, k1, z, n) == Fin(1.0 / 5.0)
  {
    assert Pow(k1, n - 2) == 1.0 && Pow(z, n - 2) == 1.0;
    assert Pow(k1, n - 1) == 1.0 && Pow(z, n - 1) == 2.0;
    assert Pow(k1, n) == 1.0 && Pow(z, n) == 4.0;
  }

  /** The written and the documented formulas differ only in the
      repression term of x. */
  lemma GoodwillDiffersOnlyInRepression(g: GoodwillModels)
    requires Indexable(g.par, g.v, g.k)
    ensures g.Goodwill().value[0] == Sub(WrittenRepression(g.v[0], g.k[0], g.par[2], g.n), Degradation(g.v[1], g.par[0], g.k[1]))
    ensures GoodwillIntended(g).value[0] == Sub(Repression(g.v[0], g.k[0], g.par[2], g.n), Degradation(g.v[1], g.par[0], g.k[1]))
    ensures GoodwillIntended(g).value[1..] == g.Goodwill().value[1..]
  {
    var a, b := g.Goodwill().value, GoodwillIntended(g).value;
    assert a[1] == b[1] && a[2] == b[2];
    assert b[1..] == a[1..];
  }

  /** The counterexample state: n = 2, z = 2, K1 = v1 = 1, and no
      degradation of x (v2 = 0, x = 0). */
  predicate CounterexampleState(g: GoodwillModels) {
    Indexable(g.par, g.v, g.k) && g.n == 2 &&
    g.par[0] == 0.0 && g.par[2] == 2.0 && g.v[0] == 1.0 && g.v[1] == 0.0 && g.k[0] == 1.0 && g.k[1] == 1.0
  }

  /** x is not degraded when v2 = 0 and x = 0 (kept apart from
      CounterexampleTerms so its proof runs in a small context). */
  lemma NoDegradation(v2: real, x: real, k2: real)
    requires v2 == 0.0 && x == 0.0 && k2 == 1.0
    ensures Degradation(v2, x, k2) == Fin(0.0)
  {
  }

  /** The terms of x' at the counterexample state. */
  lemma CounterexampleTerms(g: GoodwillModels)
    requires CounterexampleState(g)
    ensures WrittenRepression(g.v[0], g.k[0], g.par[2], g.n) == Fin(1.0 / 3.0)
    ensures Repression(g.v[0], g.k[0], g.par[2], g.n) == Fin(1.0 / 5.0)
    ensures Degradation(g.v[1], g.par[0], g.k[1]) == Fin(0.0)
  {
    RepressionTermsDiffer(g.v[0], g.k[0], g.par[2], g.n);
    NoDegradation(g.v[1], g.par[0], g.k[1]);
  }

  /** Subtracting the same degradation keeps the two production rates
      of the counterexample apart (kept apart from the counterexample so its
      proof runs in a small context). */
  lemma DifferentRatesOfProduction(w: Float, r: Float, d: Float)
    requires w == Fin(1.0 / 3.0) && r == Fin(1.0 / 5.0) && d == Fin(0.0)
    ensures Sub(w, d) == w && Sub(r, d) == r && Sub(w, d) != Sub(r, d)
  {
  }

  /** `goodwill` as written is not the documented Goodwill oscillator. */
  lemma GoodwillRepressionCounterexample(g: GoodwillModels)
    requires CounterexampleState(g)
    ensures g.Goodwill().Ok? && g.Goodwill().value[0] == Fin(1.0 / 3.0)
    ensures GoodwillIntended(g).Ok? && GoodwillIntended(g).value[0] == Fin(1.0 / 5.0)
    ensures g.Goodwill() != GoodwillIntended(g)
  {
    CounterexampleTerms(g);
    GoodwillDiffersOnlyInRepression(g);
    DifferentRatesOfProduction(WrittenRepression(g.v[0], g.k[0], g.par[2], g.n), Repression(g.v[0], g.k[0], g.par[2], g.n),
      Degradation(g.v[1], g.par[0], g.k[1]));
  }
}
