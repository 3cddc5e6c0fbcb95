/** The cascaded adaptive FIR filter of pcg_adaptive_filter.js: the same
    weights, taps and LMS / Sign-LMS cascade as the Python class, but each
    update REPLACES `this.weights[stage]` by a new array, only the desired
    value `d_n` is threaded through the stages, and `process` records the
    FINAL RESIDUAL as y[n] and d[n] - y[n] as e[n]. */
module JsCascade {
  import opened Dsp

  /** What the stage loop of `process` holds after its first k stages at one
      sample: the weight vectors and `d_n`. */
  datatype Pass = Pass(weights: seq<seq<real>>, desired: real)

  /** One sample's pass through stages 0 .. k-1: stage s forms
      e = d_n - dot(tap, w[s]), moves w[s] by stepSize * e * tap (s even) or
      stepSize * sign(e) * tap (s odd), and hands e on as the new `d_n`. */
  function Stages(ws: seq<seq<real>>, tap: seq<real>, d: real, mu: real, k: nat): (p: Pass)
    requires k <= |ws| && Shaped(ws, |tap|)
    ensures |p.weights| == |ws| && Shaped(p.weights, |tap|)
    ensures k == 0 ==> p.desired == d
    decreases k
  {
    if k == 0 then Pass(ws, d)
    else
      var p := Stages(ws, tap, d, mu, k - 1);
      var w := p.weights[k - 1];
      var e := p.desired - Dot(tap, w);
      Pass(p.weights[k - 1 := Adapt(w, mu, Gain(k - 1, e), tap)], e)
  }

  /** Running one more stage. */
  lemma StagesNext(ws: seq<seq<real>>, tap: seq<real>, d: real, mu: real, k: nat)
    requires k < |ws| && Shaped(ws, |tap|)
    ensures var p := Stages(ws, tap, d, mu, k);
            var e := p.desired - Dot(tap, p.weights[k]);
            Stages(ws, tap, d, mu, k + 1) == Pass(p.weights[k := Adapt(p.weights[k], mu, Gain(k, e), tap)], e)
  {
  }

  /** Running one more stage from a known state (W, dn): stage k adapts
      W[k] with the gain of its error dn - dot(tap, W[k]) and hands that
      error on. */
  lemma StagesAdvance(ws: seq<seq<real>>, tap: seq<real>, d: real, mu: real, k: nat,
                      W: seq<seq<real>>, dn: real, W': seq<seq<real>>, e: real)
    requires k < |ws| && Shaped(ws, |tap|)
    requires Stages(ws, tap, d, mu, k) == Pass(W, dn)
    requires e == dn - Dot(tap, W[k]) && W' == W[k := Adapt(W[k], mu, Gain(k, e), tap)]
    ensures Stages(ws, tap, d, mu, k + 1) == Pass(W', e)
  {
    StagesNext(ws, tap, d, mu, k);
  }

  /** The first k stages leave every later stage's weights as they were. */
  lemma {:induction false} StagesUntouched(ws: seq<seq<real>>, tap: seq<real>, d: real, mu: real, k: nat, s: nat)
    requires k <= s < |ws| && Shaped(ws, |tap|)
    ensures Stages(ws, tap, d, mu, k).weights[s] == ws[s]
  {
    if k > 0 {
      StagesUntouched(ws, tap, d, mu, k - 1, s);
    }
  }

  /** The weight vectors once `process` has adapted on samples L .. n-1,
      starting from ws. */
  function Adapted(ws: seq<seq<real>>, x: seq<real>, d: seq<real>, mu: real, L: nat, n: nat): (r: seq<seq<real>>)
    requires n <= |x| && Shaped(ws, L) && (L < n ==> n <= |d|)
    ensures |r| == |ws| && Shaped(r, L)
    decreases n
  {
    if n <= L then ws
    else Stages(Adapted(ws, x, d, mu, L, n - 1), PastWindow(x, n - 1, L), d[n - 1], mu, |ws|).weights
  }

  /** The full cascade pass at an adapted sample n. */
  function SampleAt(ws: seq<seq<real>>, x: seq<real>, d: seq<real>, mu: real, L: nat, n: nat): Pass
    requires L <= n < |x| && n < |d| && Shaped(ws, L)
  {
    Stages(Adapted(ws, x, d, mu, L, n), PastWindow(x, n, L), d[n], mu, |ws|)
  }

  /** `y[n]` as `process` returns it: the final residual `d_n`. */
  function OutY(ws: seq<seq<real>>, x: seq<real>, d: seq<real>, mu: real, L: nat, n: nat): real
    requires n < |x| && Shaped(ws, L) && Covers(x, d, L)
  {
    if n < L then 0.0 else SampleAt(ws, x, d, mu, L, n).desired
  }

  /** `e[n]` as `process` returns it: `d[n] - y[n]`. */
  function OutE(ws: seq<seq<real>>, x: seq<real>, d: seq<real>, mu: real, L: nat, n: nat): real
    requires n < |x| && Shaped(ws, L) && Covers(x, d, L)
  {
    if n < L then 0.0 else d[n] - SampleAt(ws, x, d, mu, L, n).desired
  }

  /** One more adapted sample runs the cascade once more; the outputs at
      that sample come from its final residual. */
  lemma AdaptedStep(ws: seq<seq<real>>, x: seq<real>, d: seq<real>, mu: real, L: nat, n: nat, p: Pass)
    requires L <= n < |x| && |x| <= |d| && Shaped(ws, L)
    requires p == Stages(Adapted(ws, x, d, mu, L, n), PastWindow(x, n, L), d[n], mu, |ws|)
    ensures Adapted(ws, x, d, mu, L, n + 1) == p.weights
    ensures OutY(ws, x, d, mu, L, n) == p.desired && OutE(ws, x, d, mu, L, n) == d[n] - p.desired
  {
  }

  /** ys and es hold what `process` has recorded once it has handled every
      sample before n: OutY and OutE below n, the initial zeros from n on. */
  ghost predicate Recorded(ws: seq<seq<real>>, x: seq<real>, d: seq<real>, mu: real, L: nat,
                           ys: seq<real>, es: seq<real>, n: nat)
    requires Shaped(ws, L) && Covers(x, d, L)
  {
    && |ys| == |x| && |es| == |x|
    && (forall k :: 0 <= k < |x| && k < n ==> ys[k] == OutY(ws, x, d, mu, L, k) && es[k] == OutE(ws, x, d, mu, L, k))
    && (forall k :: n <= k < |x| ==> ys[k] == 0.0 && es[k] == 0.0)
  }

  /** Before the first adapted sample the zero-filled outputs are already
      right: OutY and OutE are 0 below L. */
  lemma RecordedStart(ws: seq<seq<real>>, x: seq<real>, d: seq<real>, mu: real, L: nat)
    requires Shaped(ws, L) && Covers(x, d, L)
    ensures Recorded(ws, x, d, mu, L, Zeros(|x|), Zeros(|x|), L)
  {
  }

  /** Handling sample n runs the cascade on the weights adapted so far and
      records its outputs at index n. */
  lemma RecordedStep(ws: seq<seq<real>>, x: seq<real>, d: seq<real>, mu: real, L: nat,
                     ys: seq<real>, es: seq<real>, n: nat, p: Pass, ys': seq<real>, es': seq<real>)
    requires L <= n < |x| && |x| <= |d| && Shaped(ws, L)
    requires Recorded(ws, x, d, mu, L, ys, es, n)
    requires p == Stages(Adapted(ws, x, d, mu, L, n), PastWindow(x, n, L), d[n], mu, |ws|)
    requires ys' == ys[n := p.desired] && es' == es[n := d[n] - p.desired]
    ensures Adapted(ws, x, d, mu, L, n + 1) == p.weights
    ensures Recorded(ws, x, d, mu, L, ys', es', n + 1)
  {
    AdaptedStep(ws, x, d, mu, L, n, p);
  }

  /** Stage s runs LMS when s is even and Sign-LMS when s is odd, on the
      weights it held when the sample arrived; its desired value is d for
      stage 0 and the previous stage's error after that, and its own error
      is handed on. */
  lemma StageRule(ws: seq<seq<real>>, tap: seq<real>, d: real, mu: real, s: nat)
    requires s < |ws| && Shaped(ws, |tap|)
    ensures var p := Stages(ws, tap, d, mu, s);
            var q := Stages(ws, tap, d, mu, s + 1);
            && q.desired == p.desired - Dot(tap, ws[s])
            && (s == 0 ==> p.desired == d)
            && (s % 2 == 0 ==> q.weights[s] == Adapt(ws[s], mu, q.desired, tap))
            && (s % 2 == 1 ==> q.weights[s] == Adapt(ws[s], mu, Sign(q.desired), tap))
            && (forall t :: 0 <= t < |ws| && t != s ==> q.weights[t] == p.weights[t])
  {
    StagesNext(ws, tap, d, mu, s);
    StagesUntouched(ws, tap, d, mu, s, s);
  }

  /** Whatever the number of stages, y[n] + e[n] == d[n] at every adapted
      sample, and both are 0 before filterLength. */
  lemma ResidualBalance(ws: seq<seq<real>>, x: seq<real>, d: seq<real>, mu: real, L: nat, n: nat)
    requires n < |x| && Shaped(ws, L) && Covers(x, d, L)
    ensures L <= n ==> OutY(ws, x, d, mu, L, n) + OutE(ws, x, d, mu, L, n) == d[n]
    ensures n < L ==> OutY(ws, x, d, mu, L, n) == 0.0 && OutE(ws, x, d, mu, L, n) == 0.0
  {
  }

  /** A signal no longer than the filter is never adapted on: the weights do
      not move and both outputs are all zero. */
  lemma ShortSignalIdle(ws: seq<seq<real>>, x: seq<real>, d: seq<real>, mu: real, L: nat)
    requires Shaped(ws, L) && |x| <= L
    ensures Adapted(ws, x, d, mu, L, |x|) == ws
    ensures forall n :: 0 <= n < |x| ==> OutY(ws, x, d, mu, L, n) == 0.0 && OutE(ws, x, d, mu, L, n) == 0.0
  {
  }

  /** With no stages at all, y[n] is d[n] itself and e[n] is 0. */
  lemma NoStagesPassThrough(ws: seq<seq<real>>, x: seq<real>, d: seq<real>, mu: real, L: nat, n: nat)
    requires L <= n < |x| <= |d| && Shaped(ws, L) && |ws| == 0
    ensures OutY(ws, x, d, mu, L, n) == d[n] && OutE(ws, x, d, mu, L, n) == 0.0
  {
  }

  /** With a zero step size no stage moves its weights. */
  lemma {:induction false} StagesZeroStep(ws: seq<seq<real>>, tap: seq<real>, d: real, k: nat)
    requires k <= |ws| && Shaped(ws, |tap|)
    ensures Stages(ws, tap, d, 0.0, k).weights == ws
  {
    if k > 0 {
      StagesZeroStep(ws, tap, d, k - 1);
      StagesNext(ws, tap, d, 0.0, k - 1);
      var p := Stages(ws, tap, d, 0.0, k - 1);
      var e := p.desired - Dot(tap, p.weights[k - 1]);
      AdaptIdle(ws[k - 1], 0.0, Gain(k - 1, e), tap);
    }
  }

  /** With a zero step size `process` never changes the weights. */
  lemma {:induction false} AdaptedZeroStep(ws: seq<seq<real>>, x: seq<real>, d: seq<real>, L: nat, n: nat)
    requires n <= |x| && Shaped(ws, L) && (L < n ==> n <= |d|)
    ensures Adapted(ws, x, d, 0.0, L, n) == ws
  {
    if n > L {
      AdaptedZeroStep(ws, x, d, L, n - 1);
      StagesZeroStep(ws, PastWindow(x, n - 1, L), d[n - 1], |ws|);
    }
  }

  /** Zero weights that never move pass the desired value through every
      stage unchanged. */
  lemma {:induction false} StagesFromZero(ws: seq<seq<real>>, tap: seq<real>, d: real, k: nat)
    requires k <= |ws| && Shaped(ws, |tap|) && AllZero(ws)
    ensures Stages(ws, tap, d, 0.0, k).desired == d
  {
    if k > 0 {
      StagesFromZero(ws, tap, d, k - 1);
      StagesZeroStep(ws, tap, d, k - 1);
      StagesNext(ws, tap, d, 0.0, k - 1);
      DotZeros(tap, ws[k - 1]);
    }
  }

  /** A freshly built filter with step size 0 outputs y[n] = d[n] and
      e[n] = 0 at every adapted sample. */
  lemma ZeroStepOutputs(ws: seq<seq<real>>, x: seq<real>, d: seq<real>, L: nat, n: nat)
    requires L <= n < |x| <= |d| && Shaped(ws, L) && AllZero(ws)
    ensures OutY(ws, x, d, 0.0, L, n) == d[n] && OutE(ws, x, d, 0.0, L, n) == 0.0
  {
    AdaptedZeroStep(ws, x, d, L, n);
    StagesFromZero(ws, PastWindow(x, n, L), d[n], |ws|);
  }

  class AdaptiveFilter {
    const filterLength: nat
    const stepSize: real
    const numStages: nat
    /** `this.weights`: one array per stage; each update puts a new array in
        its stage's slot. */
    var weights: seq<seq<real>>

    ghost predicate Valid()
      reads this
    {
      |weights| == numStages && Shaped(weights, filterLength)
    }

    /** `constructor`: `numStages` arrays of `filterLength` zeros. */
    constructor (filterLength: nat, stepSize: real, numStages: nat := 1)
      ensures Valid()
      ensures this.filterLength == filterLength && this.stepSize == stepSize && this.numStages == numStages
      ensures weights == seq(numStages, _ => Zeros(filterLength))
    {
      this.filterLength := filterLength;
      this.stepSize := stepSize;
      this.numStages := numStages;
      weights := seq(numStages, _ => Zeros(filterLength));
    }

    /** `lmsUpdate`: output and error of stage `stage` on tap vector x; the
        stage's slot gets the new array w + stepSize * e * x and no other
        slot changes. */
    method LmsUpdate(x: seq<real>, d: real, stage: nat) returns (y: real, e: real)
      requires Valid() && stage < numStages && |x| == filterLength
      modifies this
      ensures Valid()
      ensures y == Dot(x, old(weights[stage])) && e == d - y
      ensures weights == old(weights)[stage := Adapt(old(weights[stage]), stepSize, e, x)]
      ensures e == 0.0 ==> weights == old(weights)
    {
      y := Dot(x, weights[stage]);
      e := d - y;
      weights := weights[stage := Adapt(weights[stage], stepSize, e, x)];
      if e == 0.0 {
        AdaptIdle(old(weights[stage]), stepSize, e, x);
      }
    }

    /** `signLmsUpdate`: as `lmsUpdate` but the step uses `Math.sign(e)`; a
        zero error leaves the weights as they were. */
    method SignLmsUpdate(x: seq<real>, d: real, stage: nat) returns (y: real, e: real)
      requires Valid() && stage < numStages && |x| == filterLength
      modifies this
      ensures Valid()
      ensures y == Dot(x, old(weights[stage])) && e == d - y
      ensures weights == old(weights)[stage := Adapt(old(weights[stage]), stepSize, Sign(e), x)]
      ensures e == 0.0 ==> weights == old(weights)
    {
      y := Dot(x, weights[stage]);
      e := d - y;
      weights := weights[stage := Adapt(weights[stage], stepSize, Sign(e), x)];
      if e == 0.0 {
        AdaptIdle(old(weights[stage]), stepSize, Sign(e), x);
      }
    }

    /** The stage loop of `process` at one sample (lines 32-37): returns the
        final `d_n`. */
    method RunStages(tap: seq<real>, d0: real) returns (dn: real)
      requires Valid() && |tap| == filterLength
      modifies this
      ensures Valid()
      ensures Stages(old(weights), tap, d0, stepSize, numStages) == Pass(weights, dn)
    {
      ghost var W0 := weights;
      dn := d0;
      var stage := 0;
      while stage < numStages
        invariant stage <= numStages
        invariant Valid() && |W0| == numStages && Shaped(W0, |tap|)
        invariant Stages(W0, tap, d0, stepSize, stage) == Pass(weights, dn)
      {
        ghost var before := weights;
        var yn, en;
        if stage % 2 == 0 {
          yn, en := LmsUpdate(tap, dn, stage);
          assert Gain(stage, en) == en;
        } else {
          yn, en := SignLmsUpdate(tap, dn, stage);
          assert Gain(stage, en) == Sign(en);
        }
        StagesAdvance(W0, tap, d0, stepSize, stage, before, dn, weights, en);
        dn := en;
        stage := stage + 1;
      }
    }

    /** `process`: adapts on samples filterLength .. N-1, continuing from the
        weights left by earlier calls, and returns y and e of length N whose
        entries before filterLength stay 0. */
    method Process(x: seq<real>, d: seq<real>) returns (y: seq<real>, e: seq<real>)
      requires Valid()
      requires Covers(x, d, filterLength)
      modifies this
      ensures Valid()
      ensures weights == Adapted(old(weights), x, d, stepSize, filterLength, |x|)
      ensures |y| == |x| && |e| == |x|
      ensures forall n :: 0 <= n < |x| ==>
                y[n] == OutY(old(weights), x, d, stepSize, filterLength, n) &&
                e[n] == OutE(old(weights), x, d, stepSize, filterLength, n)
    {
      var N := |x|;
      var ya := Zeros(N);
      var ea := Zeros(N);
      ghost var W0 := weights;
      RecordedStart(W0, x, d, stepSize, filterLength);
      var n := filterLength;
      while n < N
        invariant filterLength <= n && (n <= N || n == filterLength)
        invariant Valid()
        invariant weights == Adapted(W0, x, d, stepSize, filterLength, if n < N then n else N)
        invariant Recorded(W0, x, d, stepSize, filterLength, ya, ea, n)
      {
        var tap := PastWindow(x, n, filterLength);
        ghost var p := Stages(weights, tap, d[n], stepSize, numStages);
        var dn := RunStages(tap, d[n]);
        assert p == Pass(weights, dn);
        ghost var ys, es := ya, ea;
        ya, ea := ya[n := dn], ea[n := d[n] - dn];
        RecordedStep(W0, x, d, stepSize, filterLength, ys, es, n, p, ya, ea);
        n := n + 1;
      }
      y, e := ya, ea;
    }
  }
}
