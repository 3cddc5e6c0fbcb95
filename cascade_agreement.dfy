/** How the Python and the JavaScript cascade relate. Both adapt their
    weights identically, sample after sample; they differ only in what
    `process` records: Python keeps the last stage's output and error,
    JavaScript keeps the final residual and d[n] minus it. */
module CascadeAgreement {
  import opened Dsp
  import Py = PyCascade
  import Js = JsCascade

  /** At one sample the two stage loops leave the same weights and hand on
      the same desired value after every stage. */
  lemma {:induction false} StagesAgree(ws: seq<seq<real>>, tap: seq<real>, d: real, mu: real, k: nat)
    requires k <= |ws| && Shaped(ws, |tap|)
    ensures Py.Stages(ws, tap, d, mu, k).weights == Js.Stages(ws, tap, d, mu, k).weights
    ensures Py.Stages(ws, tap, d, mu, k).desired == Js.Stages(ws, tap, d, mu, k).desired
  {
    if k > 0 {
      StagesAgree(ws, tap, d, mu, k - 1);
      Py.StagesNext(ws, tap, d, mu, k - 1);
      Js.StagesNext(ws, tap, d, mu, k - 1);
    }
  }

  /** Fed the same signals from the same weights, the two classes hold the
      same weights after every sample. */
  lemma {:induction false} TrajectoriesAgree(ws: seq<seq<real>>, x: seq<real>, d: seq<real>, mu: real, L: nat, n: nat)
    requires n <= |x| && Shaped(ws, L) && (L < n ==> n <= |d|)
    ensures Py.Adapted(ws, x, d, mu, L, n) == Js.Adapted(ws, x, d, mu, L, n)
  {
    if n > L {
      TrajectoriesAgree(ws, x, d, mu, L, n - 1);
      StagesAgree(Py.Adapted(ws, x, d, mu, L, n - 1), PastWindow(x, n - 1, L), d[n - 1], mu, |ws|);
    }
  }

  /** With at least one stage, JavaScript's y[n] is Python's e[n] (the last
      stage's error is the final residual) and JavaScript's e[n] is
      d[n] - Python's e[n]. */
  lemma OutputsRelate(ws: seq<seq<real>>, x: seq<real>, d: seq<real>, mu: real, L: nat, n: nat)
    requires n < |x| && Shaped(ws, L) && Covers(x, d, L) && |ws| >= 1
    ensures Js.OutY(ws, x, d, mu, L, n) == Py.OutE(ws, x, d, mu, L, n)
    ensures L <= n ==> Js.OutE(ws, x, d, mu, L, n) == d[n] - Py.OutE(ws, x, d, mu, L, n)
  {
    if L <= n {
      TrajectoriesAgree(ws, x, d, mu, L, n);
      StagesAgree(Py.Adapted(ws, x, d, mu, L, n), PastWindow(x, n, L), d[n], mu, |ws|);
    }
  }

  /** With a single stage the two classes return the same two signals in
      swapped roles: JavaScript's y is Python's e and JavaScript's e is
      Python's y. */
  lemma SingleStageSwap(ws: seq<seq<real>>, x: seq<real>, d: seq<real>, mu: real, L: nat, n: nat)
    requires n < |x| && Shaped(ws, L) && Covers(x, d, L) && |ws| == 1
    ensures Js.OutY(ws, x, d, mu, L, n) == Py.OutE(ws, x, d, mu, L, n)
    ensures Js.OutE(ws, x, d, mu, L, n) == Py.OutY(ws, x, d, mu, L, n)
  {
    OutputsRelate(ws, x, d, mu, L, n);
    if L <= n {
      Py.LastStageBalance(ws, x, d, mu, L, n);
    }
  }
}
