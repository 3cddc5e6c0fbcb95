/** The cascaded adaptive FIR filter of pcg_adaptive_filter.py: one numpy
    weight vector per stage, updated in place; even stages adapt by LMS, odd
    stages by Sign-LMS, each stage's error is the next stage's desired
    value, and `process` records the LAST stage's output and error. */
module PyCascade {
  import opened Dsp

  /** What the stage loop of `process` holds after its first k stages at one
      sample: the weight vectors, the last stage's `y_n` and `e_n`, and
      `d_n`, the desired value handed to the next stage. */
  datatype Pass = Pass(weights: seq<seq<real>>, y: real, e: real, desired: real)

  /** One sample's pass through stages 0 .. k-1. Stage s computes
      y = dot(tap, w[s]) and e = desired - y, then moves w[s] by
      mu * e * tap when s is even and by mu * sign(e) * tap when s is odd;
      e becomes the next desired value. Before the first stage `y_n` and
      `e_n` are unbound in Python; the model holds 0 there, and `process`
      never reads them in that state. */
  function Stages(ws: seq<seq<real>>, tap: seq<real>, d: real, mu: real, k: nat): (p: Pass)
    requires k <= |ws| && Shaped(ws, |tap|)
    ensures |p.weights| == |ws| && Shaped(p.weights, |tap|)
    ensures k == 0 ==> p.desired == d
    ensures k > 0 ==> p.desired == p.e
    decreases k
  {
    if k == 0 then Pass(ws, 0.0, 0.0, d)
    else
      var p := Stages(ws, tap, d, mu, k - 1);
      var w := p.weights[k - 1];
      var y := Dot(tap, w);
      var e := p.desired - y;
      Pass(p.weights[k - 1 := Adapt(w, mu, Gain(k - 1, e), tap)], y, e, e)
  }

  /** Running one more stage: stage k reads the weights and desired value the
      first k stages left. */
  lemma StagesNext(ws: seq<seq<real>>, tap: seq<real>, d: real, mu: real, k: nat)
    requires k < |ws| && Shaped(ws, |tap|)
    ensures var p := Stages(ws, tap, d, mu, k);
            var y := Dot(tap, p.weights[k]);
            var e := p.desired - y;
            Stages(ws, tap, d, mu, k + 1) == Pass(p.weights[k := Adapt(p.weights[k], mu, Gain(k, e), tap)], y, e, e)
  {
  }

  /** Running one more stage from a known state: stage k reads W[k], forms
      y and e from the desired value dn, adapts W[k] with the gain of e and
      hands e on. */
  lemma StagesAdvance(ws: seq<seq<real>>, tap: seq<real>, d: real, mu: real, k: nat,
                      W: seq<seq<real>>, y0: real, e0: real, dn: real, W': seq<seq<real>>, y: real, e: real)
    requires k < |ws| && Shaped(ws, |tap|)
    requires Stages(ws, tap, d, mu, k) == Pass(W, y0, e0, dn)
    requires y == Dot(tap, W[k]) && e == dn - y && W' == W[k := Adapt(W[k], mu, Gain(k, e), tap)]
    ensures Stages(ws, tap, d, mu, k + 1) == Pass(W', y, e, e)
  {
    StagesNext(ws, tap, d, mu, k);
  }

  /** The first k stages leave every later stage's weights as they were. */
  lemma {:induction false} StagesUntouched(ws: seq<seq<real>>, tap: seq<real>, d: real, mu: real, k: nat, s: nat)
    requires k <= s < |ws| && Shaped(ws, |tap|)
    ensures Stages(ws, tap, d, mu, k).weights[s] == ws[s]
  {
    if k > 0 {
      StagesUntouched(ws, tap, d, mu, k - 1, s);
    }
  }

  /** The weight vectors once `process` has adapted on samples L .. n-1,
      starting from ws. */
  function Adapted(ws: seq<seq<real>>, x: seq<real>, d: seq<real>, mu: real, L: nat, n: nat): (r: seq<seq<real>>)
    requires n <= |x| && Shaped(ws, L) && (L < n ==> n <= |d|)
    ensures |r| == |ws| && Shaped(r, L)
    decreases n
  {
    if n <= L then ws
    else Stages(Adapted(ws, x, d, mu, L, n - 1), PastWindow(x, n - 1, L), d[n - 1], mu, |ws|).weights
  }

  /** The full cascade pass at an adapted sample n. */
  function SampleAt(ws: seq<seq<real>>, x: seq<real>, d: seq<real>, mu: real, L: nat, n: nat): Pass
    requires L <= n < |x| && n < |d| && Shaped(ws, L)
  {
    Stages(Adapted(ws, x, d, mu, L, n), PastWindow(x, n, L), d[n], mu, |ws|)
  }

  /** `y[n]` as `process` returns it. */
  function OutY(ws: seq<seq<real>>, x: seq<real>, d: seq<real>, mu: real, L: nat, n: nat): real
    requires n < |x| && Shaped(ws, L) && Covers(x, d, L)
  {
    if n < L then 0.0 else SampleAt(ws, x, d, mu, L, n).y
  }

  /** `e[n]` as `process` returns it. */
  function OutE(ws: seq<seq<real>>, x: seq<real>, d: seq<real>, mu: real, L: nat, n: nat): real
    requires n < |x| && Shaped(ws, L) && Covers(x, d, L)
  {
    if n < L then 0.0 else SampleAt(ws, x, d, mu, L, n).e
  }

  /** Adapting on one more sample runs the whole cascade once more, and the
      outputs at that sample are the last stage's. */
  lemma AdaptedStep(ws: seq<seq<real>>, x: seq<real>, d: seq<real>, mu: real, L: nat, n: nat, p: Pass)
    requires L <= n < |x| && |x| <= |d| && Shaped(ws, L)
    requires p == Stages(Adapted(ws, x, d, mu, L, n), PastWindow(x, n, L), d[n], mu, |ws|)
    ensures Adapted(ws, x, d, mu, L, n + 1) == p.weights
    ensures OutY(ws, x, d, mu, L, n) == p.y && OutE(ws, x, d, mu, L, n) == p.e
  {
  }

  /** ys and es hold what `process` has recorded once it has handled every
      sample before n: OutY and OutE below n, the initial zeros from n on. */
  ghost predicate Recorded(ws: seq<seq<real>>, x: seq<real>, d: seq<real>, mu: real, L: nat,
                           ys: seq<real>, es: seq<real>, n: nat)
    requires Shaped(ws, L) && Covers(x, d, L)
  {
    && |ys| == |x| && |es| == |x|
    && (forall k :: 0 <= k < |x| && k < n ==> ys[k] == OutY(ws, x, d, mu, L, k) && es[k] == OutE(ws, x, d, mu, L, k))
    && (forall k :: n <= k < |x| ==> ys[k] == 0.0 && es[k] == 0.0)
  }

  /** Before the first adapted sample the zero-filled outputs are already
      right: OutY and OutE are 0 below L. */
  lemma RecordedStart(ws: seq<seq<real>>, x: seq<real>, d: seq<real>, mu: real, L: nat)
    requires Shaped(ws, L) && Covers(x, d, L)
    ensures Recorded(ws, x, d, mu, L, Zeros(|x|), Zeros(|x|), L)
  {
  }

  /** Handling sample n runs the cascade on the weights adapted so far and
      records its outputs at index n. */
  lemma RecordedStep(ws: seq<seq<real>>, x: seq<real>, d: seq<real>, mu: real, L: nat,
                     ys: seq<real>, es: seq<real>, n: nat, p: Pass, ys': seq<real>, es': seq<real>)
    requires L <= n < |x| && |x| <= |d| && Shaped(ws, L)
    requires Recorded(ws, x, d, mu, L, ys, es, n)
    requires p == Stages(Adapted(ws, x, d, mu, L, n), PastWindow(x, n, L), d[n], mu, |ws|)
    requires ys' == ys[n := p.y] && es' == es[n := p.e]
    ensures Adapted(ws, x, d, mu, L, n + 1) == p.weights
    ensures Recorded(ws, x, d, mu, L, ys', es', n + 1)
  {
    AdaptedStep(ws, x, d, mu, L, n, p);
  }

  /** Stage s runs LMS when s is even and Sign-LMS when s is odd: its output
      is dot(tap, w[s]) on the weights stage s held when the sample arrived,
      its desired value is d for stage 0 and stage s-1's error after that,
      and no other stage's weights move. */
  lemma StageRule(ws: seq<seq<real>>, tap: seq<real>, d: real, mu: real, s: nat)
    requires s < |ws| && Shaped(ws, |tap|)
    ensures var p := Stages(ws, tap, d, mu, s);
            var q := Stages(ws, tap, d, mu, s + 1);
            && q.y == Dot(tap, ws[s])
            && q.e == (if s == 0 then d else p.e) - q.y
            && (s % 2 == 0 ==> q.weights[s] == Adapt(ws[s], mu, q.e, tap))
            && (s % 2 == 1 ==> q.weights[s] == Adapt(ws[s], mu, Sign(q.e), tap))
            && (forall t :: 0 <= t < |ws| && t != s ==> q.weights[t] == p.weights[t])
  {
    StagesNext(ws, tap, d, mu, s);
    StagesUntouched(ws, tap, d, mu, s, s);
  }

  /** A Sign-LMS stage can only move its weights to one of three points,
      w + mu*tap, w or w - mu*tap, however large the error is. */
  lemma SignStageStep(ws: seq<seq<real>>, tap: seq<real>, d: real, mu: real, s: nat)
    requires s < |ws| && Shaped(ws, |tap|) && s % 2 == 1
    ensures Stages(ws, tap, d, mu, s + 1).weights[s] in {Adapt(ws[s], mu, 1.0, tap), ws[s], Adapt(ws[s], mu, -1.0, tap)}
  {
    StageRule(ws, tap, d, mu, s);
    var g := Sign(Stages(ws, tap, d, mu, s + 1).e);
    if g == 0.0 {
      AdaptIdle(ws[s], mu, g, tap);
    }
  }

  /** A stage whose error is zero leaves every weight as it was, under
      either rule. */
  lemma ZeroErrorStage(ws: seq<seq<real>>, tap: seq<real>, d: real, mu: real, s: nat)
    requires s < |ws| && Shaped(ws, |tap|)
    requires Stages(ws, tap, d, mu, s + 1).e == 0.0
    ensures Stages(ws, tap, d, mu, s + 1).weights == Stages(ws, tap, d, mu, s).weights
  {
    var p := Stages(ws, tap, d, mu, s);
    StagesNext(ws, tap, d, mu, s);
    AdaptIdle(p.weights[s], mu, 0.0, tap);
    assert p.weights[s := p.weights[s]] == p.weights;
  }

  /** `y[n]` and `e[n]` are the last stage's output and error, so they add
      up to the last stage's desired value; with one stage that is `d[n]`. */
  lemma LastStageBalance(ws: seq<seq<real>>, x: seq<real>, d: seq<real>, mu: real, L: nat, n: nat)
    requires L <= n < |x| <= |d| && Shaped(ws, L) && |ws| >= 1
    ensures OutY(ws, x, d, mu, L, n) + OutE(ws, x, d, mu, L, n)
            == Stages(Adapted(ws, x, d, mu, L, n), PastWindow(x, n, L), d[n], mu, |ws| - 1).desired
    ensures |ws| == 1 ==> OutY(ws, x, d, mu, L, n) + OutE(ws, x, d, mu, L, n) == d[n]
  {
    StagesNext(Adapted(ws, x, d, mu, L, n), PastWindow(x, n, L), d[n], mu, |ws| - 1);
  }

  /** A signal no longer than the filter is never adapted on: the weights do
      not move and both outputs are all zero. */
  lemma ShortSignalIdle(ws: seq<seq<real>>, x: seq<real>, d: seq<real>, mu: real, L: nat)
    requires Shaped(ws, L) && |x| <= L
    ensures Adapted(ws, x, d, mu, L, |x|) == ws
    ensures forall n :: 0 <= n < |x| ==> OutY(ws, x, d, mu, L, n) == 0.0 && OutE(ws, x, d, mu, L, n) == 0.0
  {
  }

  /** With a zero step size no stage moves its weights. */
  lemma {:induction false} StagesZeroStep(ws: seq<seq<real>>, tap: seq<real>, d: real, k: nat)
    requires k <= |ws| && Shaped(ws, |tap|)
    ensures Stages(ws, tap, d, 0.0, k).weights == ws
  {
    if k > 0 {
      StagesZeroStep(ws, tap, d, k - 1);
      StagesNext(ws, tap, d, 0.0, k - 1);
      var p := Stages(ws, tap, d, 0.0, k - 1);
      var e := p.desired - Dot(tap, p.weights[k - 1]);
      AdaptIdle(ws[k - 1], 0.0, Gain(k - 1, e), tap);
    }
  }

  /** With a zero step size `process` never changes the weights. */
  lemma {:induction false} AdaptedZeroStep(ws: seq<seq<real>>, x: seq<real>, d: seq<real>, L: nat, n: nat)
    requires n <= |x| && Shaped(ws, L) && (L < n ==> n <= |d|)
    ensures Adapted(ws, x, d, 0.0, L, n) == ws
  {
    if n > L {
      AdaptedZeroStep(ws, x, d, L, n - 1);
      StagesZeroStep(ws, PastWindow(x, n - 1, L), d[n - 1], |ws|);
    }
  }

  /** Zero weights that never move predict nothing: every stage outputs 0
      and passes its desired value on unchanged. */
  lemma {:induction false} StagesFromZero(ws: seq<seq<real>>, tap: seq<real>, d: real, k: nat)
    requires k <= |ws| && Shaped(ws, |tap|) && AllZero(ws)
    ensures var p := Stages(ws, tap, d, 0.0, k);
            p.desired == d && (k > 0 ==> p.y == 0.0 && p.e == d)
  {
    if k > 0 {
      StagesFromZero(ws, tap, d, k - 1);
      StagesZeroStep(ws, tap, d, k - 1);
      StagesNext(ws, tap, d, 0.0, k - 1);
      DotZeros(tap, ws[k - 1]);
    }
  }

  /** A freshly built filter with step size 0 outputs y[n] = 0 and
      e[n] = d[n] at every adapted sample, whatever the number of stages. */
  lemma ZeroStepOutputs(ws: seq<seq<real>>, x: seq<real>, d: seq<real>, L: nat, n: nat)
    requires L <= n < |x| <= |d| && Shaped(ws, L) && AllZero(ws) && |ws| >= 1
    ensures OutY(ws, x, d, 0.0, L, n) == 0.0 && OutE(ws, x, d, 0.0, L, n) == d[n]
  {
    AdaptedZeroStep(ws, x, d, L, n);
    StagesFromZero(ws, PastWindow(x, n, L), d[n], |ws|);
  }

  class AdaptiveFilter {
    const filterLength: nat
    const stepSize: real
    const numStages: nat
    /** `self.weights`: one numpy array per stage, updated in place. */
    const weights: seq<array<real>>
    /** The contents of `self.weights`, stage by stage. */
    ghost var W: seq<seq<real>>

    ghost predicate Valid()
      reads this, weights
    {
      && |weights| == numStages
      && |W| == numStages
      && (forall s :: 0 <= s < |weights| ==> weights[s].Length == filterLength && weights[s][..] == W[s])
      && (forall s, t :: 0 <= s < t < |weights| ==> weights[s] != weights[t])
    }

    /** `__init__`: `num_stages` distinct zero vectors of length `filter_length`. */
    constructor (filterLength: nat, stepSize: real, numStages: nat := 1)
      ensures Valid()
      ensures this.filterLength == filterLength && this.stepSize == stepSize && this.numStages == numStages
      ensures forall s :: 0 <= s < |weights| ==> fresh(weights[s])
      ensures W == seq(numStages, _ => Zeros(filterLength))
    {
      var ws: seq<array<real>> := [];
      while |ws| < numStages
        invariant |ws| <= numStages
        invariant forall s :: 0 <= s < |ws| ==> fresh(ws[s]) && ws[s].Length == filterLength && ws[s][..] == Zeros(filterLength)
        invariant forall s, t :: 0 <= s < t < |ws| ==> ws[s] != ws[t]
      {
        var a := new real[filterLength](_ => 0.0);
        ws := ws + [a];
      }
      this.filterLength := filterLength;
      this.stepSize := stepSize;
      this.numStages := numStages;
      this.weights := ws;
      W := seq(numStages, _ => Zeros(filterLength));
    }

    /** `lms_update`: output and error of stage `stage` on tap vector x, then
        w[stage] += step_size * e * x in place; no other stage changes. */
    method LmsUpdate(x: seq<real>, d: real, stage: nat) returns (y: real, e: real)
      requires Valid() && stage < numStages && |x| == filterLength
      modifies weights[stage], this`W
      ensures Valid()
      ensures y == Dot(x, old(W[stage])) && e == d - y
      ensures W == old(W)[stage := Adapt(old(W[stage]), stepSize, e, x)]
      ensures e == 0.0 ==> W == old(W)
    {
      var w := weights[stage];
      ghost var before := w[..];
      y := Dot(x, w[..]);
      e := d - y;
      forall i | 0 <= i < w.Length {
        w[i] := w[i] + stepSize * e * x[i];
      }
      assert forall i :: 0 <= i < w.Length ==> w[..][i] == Adapt(before, stepSize, e, x)[i];
      assert w[..] == Adapt(before, stepSize, e, x);
      W := W[stage := w[..]];
      if e == 0.0 {
        AdaptIdle(old(W[stage]), stepSize, 0.0, x);
      }
    }

    /** `sign_lms_update`: as `lms_update` but the step uses sign(e); a zero
        error leaves the weights exactly as they were. */
    method SignLmsUpdate(x: seq<real>, d: real, stage: nat) returns (y: real, e: real)
      requires Valid() && stage < numStages && |x| == filterLength
      modifies weights[stage], this`W
      ensures Valid()
      ensures y == Dot(x, old(W[stage])) && e == d - y
      ensures W == old(W)[stage := Adapt(old(W[stage]), stepSize, Sign(e), x)]
      ensures e == 0.0 ==> W == old(W)
    {
      var w := weights[stage];
      ghost var before := w[..];
      y := Dot(x, w[..]);
      e := d - y;
      forall i | 0 <= i < w.Length {
        w[i] := w[i] + stepSize * Sign(e) * x[i];
      }
      assert forall i :: 0 <= i < w.Length ==> w[..][i] == Adapt(before, stepSize, Sign(e), x)[i];
      assert w[..] == Adapt(before, stepSize, Sign(e), x);
      W := W[stage := w[..]];
      if e == 0.0 {
        AdaptIdle(old(W[stage]), stepSize, Sign(e), x);
      }
    }

    /** The stage loop of `process` at one sample (lines 30-37): stage s
        runs `lms_update` when s is even and `sign_lms_update` when s is odd
        on the shared tap vector, and its error becomes `d_n` for stage s+1.
        Returns the last stage's `y_n` and `e_n`. */
    method RunStages(tap: seq<real>, d0: real) returns (yn: real, en: real)
      requires Valid() && |tap| == filterLength
      modifies weights, this`W
      ensures Valid()
      ensures Stages(old(W), tap, d0, stepSize, numStages) == Pass(W, yn, en, if numStages == 0 then d0 else en)
    {
      ghost var W0 := W;
      var dn := d0;
      yn, en := 0.0, 0.0;
      var stage := 0;
      while stage < numStages
        invariant stage <= numStages
        invariant Valid() && Shaped(W, filterLength) && Shaped(W0, |tap|) && |W0| == numStages
        invariant Stages(W0, tap, d0, stepSize, stage) == Pass(W, yn, en, dn)
      {
        ghost var before, y0, e0 := W, yn, en;
        if stage % 2 == 0 {
          yn, en := LmsUpdate(tap, dn, stage);
          assert Gain(stage, en) == en;
        } else {
          yn, en := SignLmsUpdate(tap, dn, stage);
          assert Gain(stage, en) == Sign(en);
        }
        StagesAdvance(W0, tap, d0, stepSize, stage, before, y0, e0, dn, W, yn, en);
        dn := en;
        stage := stage + 1;
      }
    }

    /** `process`: adapts on samples filter_length .. N-1, starting from the
        weights left by earlier calls, and returns y and e of length N whose
        entries before filter_length stay 0. Python needs a stage to bind
        `y_n` and a desired value at every adapted index. */
    method Process(x: seq<real>, d: seq<real>) returns (y: seq<real>, e: seq<real>)
      requires Valid()
      requires filterLength < |x| ==> numStages >= 1 && |x| <= |d|
      modifies weights, this`W
      ensures Valid()
      ensures W == Adapted(old(W), x, d, stepSize, filterLength, |x|)
      ensures |y| == |x| && |e| == |x|
      ensures forall n :: 0 <= n < |x| ==>
                y[n] == OutY(old(W), x, d, stepSize, filterLength, n) &&
                e[n] == OutE(old(W), x, d, stepSize, filterLength, n)
    {
      var N := |x|;
      var ya := Zeros(N);
      var ea := Zeros(N);
      ghost var W0 := W;
      RecordedStart(W0, x, d, stepSize, filterLength);
      var n := filterLength;
      while n < N
        invariant filterLength <= n && (n <= N || n == filterLength)
        invariant Valid()
        invariant W == Adapted(W0, x, d, stepSize, filterLength, if n < N then n else N)
        invariant Recorded(W0, x, d, stepSize, filterLength, ya, ea, n)
      {
        var tap := PastWindow(x, n, filterLength);
        ghost var p := Stages(W, tap, d[n], stepSize, numStages);
        var yn, en := RunStages(tap, d[n]);
        assert p == Pass(W, yn, en, en);
        ghost var ys, es := ya, ea;
        ya, ea := ya[n := yn], ea[n := en];
        RecordedStep(W0, x, d, stepSize, filterLength, ys, es, n, p, ya, ea);
        n := n + 1;
      }
      y, e := ya, ea;
    }
  }
}
