/** The command-line side of the project (main.py): the single-stage LMS
    and Leaky-LMS filters `lms` and `llms` with their argument checks, the
    int16 clipping of the filtered signal before it is written as WAV, and
    the name of the output file. Unlike the cascade classes, these filters
    read a tap window that INCLUDES the current sample and step by
    2 * mu * e * x1. */
module PcgMain {
  import opened Dsp

  datatype Option<T> = None | Some(value: T)

  /** The `ValueError`s `lms` and `llms` raise, in the order they check,
      each carrying the values its message prints. */
  datatype FilterError =
    | LengthMismatch(xLength: nat, dnLength: nat)
    | NonPositiveStep(mu: real)
    | NonPositiveLength(m: int)
    | LengthExceedsSignal(m: int, signalLength: nat)
    | NegativeLeakage(lambda: real)

  datatype Result<T> = Ok(value: T) | Err(error: FilterError)

  /** The `(w, y, e)` triple both filters return. */
  datatype Filtered = Filtered(w: seq<real>, y: seq<real>, e: seq<real>)

  /** The checks shared by `lms` and `llms`, first failure wins. */
  function LmsCheck(x: seq<real>, dn: seq<real>, mu: real, M: int): (r: Option<FilterError>)
    ensures r.None? <==> Accepted(x, dn, mu, M)
  {
    if |x| != |dn| then Some(LengthMismatch(|x|, |dn|))
    else if mu <= 0.0 then Some(NonPositiveStep(mu))
    else if M <= 0 then Some(NonPositiveLength(M))
    else if M > |x| then Some(LengthExceedsSignal(M, |x|))
    else None
  }

  /** `llms` runs the same checks and then the leakage check. */
  function LlmsCheck(x: seq<real>, dn: seq<real>, mu: real, M: int, lambda: real): (r: Option<FilterError>)
    ensures r.None? <==> Accepted(x, dn, mu, M) && lambda >= 0.0
    ensures LmsCheck(x, dn, mu, M).Some? ==> r == LmsCheck(x, dn, mu, M)
  {
    var c := LmsCheck(x, dn, mu, M);
    if c.Some? then c
    else if lambda < 0.0 then Some(NegativeLeakage(lambda))
    else None
  }

  /** The arguments both filters accept: equal lengths, a positive step and
      a filter length in 1 .. |x|. */
  predicate Accepted(x: seq<real>, dn: seq<real>, mu: real, M: int)
  {
    |x| == |dn| && mu > 0.0 && 0 < M <= |x|
  }

  /** `lms`'s weights once it has adapted on samples M .. n-1: each step
      forms e = dn[k] - dot(w, x1) on the window x1 ending at x[k] and moves
      w by 2 * mu * e * x1. */
  function LmsWeights(x: seq<real>, dn: seq<real>, mu: real, M: nat, n: nat): (w: seq<real>)
    requires M <= n <= |x| == |dn|
    ensures |w| == M
    decreases n
  {
    if n == M then Zeros(M)
    else
      var w := LmsWeights(x, dn, mu, M, n - 1);
      var x1 := CurrentWindow(x, n - 1, M);
      Adapt(w, 2.0 * mu, dn[n - 1] - Dot(w, x1), x1)
  }

  /** `llms`'s weights: as `lms`, but the old weights are first scaled by
      the leakage factor 1 - mu * lambda (the error still uses the unscaled
      weights). */
  function LeakyWeights(x: seq<real>, dn: seq<real>, mu: real, lambda: real, M: nat, n: nat): (w: seq<real>)
    requires M <= n <= |x| == |dn|
    ensures |w| == M
    decreases n
  {
    if n == M then Zeros(M)
    else
      var w := LeakyWeights(x, dn, mu, lambda, M, n - 1);
      var x1 := CurrentWindow(x, n - 1, M);
      Adapt(Scale(1.0 - mu * lambda, w), 2.0 * mu, dn[n - 1] - Dot(w, x1), x1)
  }

  /** `lms`'s y[n]: 0 below M, then dot(w, x1) on the weights held before
      sample n. */
  function LmsY(x: seq<real>, dn: seq<real>, mu: real, M: nat, n: nat): real
    requires n < |x| == |dn| && M <= |x|
  {
    if n < M then 0.0 else Dot(LmsWeights(x, dn, mu, M, n), CurrentWindow(x, n, M))
  }

  /** `lms`'s e[n]: 0 below M, then dn[n] - y[n]. */
  function LmsE(x: seq<real>, dn: seq<real>, mu: real, M: nat, n: nat): real
    requires n < |x| == |dn| && M <= |x|
  {
    if n < M then 0.0 else dn[n] - LmsY(x, dn, mu, M, n)
  }

  /** `llms`'s y[n]. */
  function LlmsY(x: seq<real>, dn: seq<real>, mu: real, lambda: real, M: nat, n: nat): real
    requires n < |x| == |dn| && M <= |x|
  {
    if n < M then 0.0 else Dot(LeakyWeights(x, dn, mu, lambda, M, n), CurrentWindow(x, n, M))
  }

  /** `llms`'s e[n]. */
  function LlmsE(x: seq<real>, dn: seq<real>, mu: real, lambda: real, M: nat, n: nat): real
    requires n < |x| == |dn| && M <= |x|
  {
    if n < M then 0.0 else dn[n] - LlmsY(x, dn, mu, lambda, M, n)
  }

  /** `lms`'s result for accepted arguments. */
  function LmsRun(x: seq<real>, dn: seq<real>, mu: real, M: nat): Filtered
    requires M <= |x| == |dn|
  {
    var N := |x|;
    Filtered(LmsWeights(x, dn, mu, M, N),
             seq(N, n requires 0 <= n < N => LmsY(x, dn, mu, M, n)),
             seq(N, n requires 0 <= n < N => LmsE(x, dn, mu, M, n)))
  }

  /** `llms`'s result for accepted arguments. */
  function LlmsRun(x: seq<real>, dn: seq<real>, mu: real, lambda: real, M: nat): Filtered
    requires M <= |x| == |dn|
  {
    var N := |x|;
    Filtered(LeakyWeights(x, dn, mu, lambda, M, N),
             seq(N, n requires 0 <= n < N => LlmsY(x, dn, mu, lambda, M, n)),
             seq(N, n requires 0 <= n < N => LlmsE(x, dn, mu, lambda, M, n)))
  }

  /** What `lms(x, dn, mu, M)` returns or raises. */
  function LmsReference(x: seq<real>, dn: seq<real>, mu: real, M: int): Result<Filtered>
  {
    match LmsCheck(x, dn, mu, M)
    case Some(err) => Err(err)
    case None => Ok(LmsRun(x, dn, mu, M))
  }

  /** What `llms(x, dn, mu, M, lambda_)` returns or raises. */
  function LlmsReference(x: seq<real>, dn: seq<real>, mu: real, M: int, lambda: real): Result<Filtered>
  {
    match LlmsCheck(x, dn, mu, M, lambda)
    case Some(err) => Err(err)
    case None => Ok(LlmsRun(x, dn, mu, lambda, M))
  }

  /** `lms`: validates, then adapts on samples M .. N-1, writing y[n] and
      e[n] into zero-filled arrays and rebinding w after each sample. */
  method Lms(x: seq<real>, dn: seq<real>, mu: real, M: int) returns (r: Result<Filtered>)
    ensures r == LmsReference(x, dn, mu, M)
  {
    if |x| != |dn| {
      return Err(LengthMismatch(|x|, |dn|));
    }
    if mu <= 0.0 {
      return Err(NonPositiveStep(mu));
    }
    if M <= 0 {
      return Err(NonPositiveLength(M));
    }
    if M > |x| {
      return Err(LengthExceedsSignal(M, |x|));
    }
    var N := |x|;
    var w := Zeros(M);
    var y := Zeros(N);
    var e := Zeros(N);
    var n := M;
    while n < N
      invariant M <= n <= N
      invariant w == LmsWeights(x, dn, mu, M, n)
      invariant |y| == N && |e| == N
      invariant forall k :: 0 <= k < n ==> y[k] == LmsY(x, dn, mu, M, k) && e[k] == LmsE(x, dn, mu, M, k)
      invariant forall k :: n <= k < N ==> y[k] == 0.0 && e[k] == 0.0
    {
      var x1 := CurrentWindow(x, n, M);
      y := y[n := Dot(w, x1)];
      e := e[n := dn[n] - y[n]];
      w := Adapt(w, 2.0 * mu, e[n], x1);
      n := n + 1;
    }
    assert y == LmsRun(x, dn, mu, M).y && e == LmsRun(x, dn, mu, M).e;
    r := Ok(Filtered(w, y, e));
  }

  /** `llms`: the same checks plus the leakage check, then the same loop
      with the leaky update. */
  method Llms(x: seq<real>, dn: seq<real>, mu: real, M: int, lambda: real) returns (r: Result<Filtered>)
    ensures r == LlmsReference(x, dn, mu, M, lambda)
  {
    if |x| != |dn| {
      return Err(LengthMismatch(|x|, |dn|));
    }
    if mu <= 0.0 {
      return Err(NonPositiveStep(mu));
    }
    if M <= 0 {
      return Err(NonPositiveLength(M));
    }
    if M > |x| {
      return Err(LengthExceedsSignal(M, |x|));
    }
    if lambda < 0.0 {
      return Err(NegativeLeakage(lambda));
    }
    var N := |x|;
    var w := Zeros(M);
    var y := Zeros(N);
    var e := Zeros(N);
    var n := M;
    while n < N
      invariant M <= n <= N
      invariant w == LeakyWeights(x, dn, mu, lambda, M, n)
      invariant |y| == N && |e| == N
      invariant forall k :: 0 <= k < n ==> y[k] == LlmsY(x, dn, mu, lambda, M, k) && e[k] == LlmsE(x, dn, mu, lambda, M, k)
      invariant forall k :: n <= k < N ==> y[k] == 0.0 && e[k] == 0.0
    {
      var x1 := CurrentWindow(x, n, M);
      y := y[n := Dot(w, x1)];
      e := e[n := dn[n] - y[n]];
      w := Adapt(Scale(1.0 - mu * lambda, w), 2.0 * mu, e[n], x1);
      n := n + 1;
    }
    assert y == LlmsRun(x, dn, mu, lambda, M).y && e == LlmsRun(x, dn, mu, lambda, M).e;
    r := Ok(Filtered(w, y, e));
  }

  /** `lms` returns a result exactly when its arguments are accepted, and
      otherwise raises the error of the first check that fails, in the
      order: lengths, step size, filter length, filter length against the
      signal. */
  lemma LmsOutcome(x: seq<real>, dn: seq<real>, mu: real, M: int)
    ensures LmsReference(x, dn, mu, M).Ok? <==> Accepted(x, dn, mu, M)
    ensures |x| != |dn| ==> LmsReference(x, dn, mu, M) == Err(LengthMismatch(|x|, |dn|))
    ensures |x| == |dn| && mu <= 0.0 ==> LmsReference(x, dn, mu, M) == Err(NonPositiveStep(mu))
    ensures |x| == |dn| && mu > 0.0 && M <= 0 ==> LmsReference(x, dn, mu, M) == Err(NonPositiveLength(M))
    ensures |x| == |dn| && mu > 0.0 && M > |x| ==> LmsReference(x, dn, mu, M) == Err(LengthExceedsSignal(M, |x|))
  {
  }

  /** `llms` accepts what `lms` accepts with a non-negative leakage; it
      raises `lms`'s error whenever `lms` would, and the leakage error only
      once every shared check has passed. */
  lemma LlmsOutcome(x: seq<real>, dn: seq<real>, mu: real, M: int, lambda: real)
    ensures LlmsReference(x, dn, mu, M, lambda).Ok? <==> Accepted(x, dn, mu, M) && lambda >= 0.0
    ensures LmsReference(x, dn, mu, M).Err? ==>
              LlmsReference(x, dn, mu, M, lambda) == LmsReference(x, dn, mu, M)
    ensures Accepted(x, dn, mu, M) && lambda < 0.0 ==> LlmsReference(x, dn, mu, M, lambda) == Err(NegativeLeakage(lambda))
  {
  }

  /** For accepted arguments `lms` returns the final weights, M of them,
      and y, e as long as x, both 0 below M. */
  lemma LmsShape(x: seq<real>, dn: seq<real>, mu: real, M: int)
    requires Accepted(x, dn, mu, M)
    ensures var f := LmsReference(x, dn, mu, M).value;
            && f.w == LmsWeights(x, dn, mu, M, |x|) && |f.w| == M
            && |f.y| == |x| && |f.e| == |x|
            && (forall n :: 0 <= n < M ==> f.y[n] == 0.0 && f.e[n] == 0.0)
  {
  }

  /** For accepted arguments and a non-negative leakage, `llms` returns
      the final weights, M of them, and y, e as long as x, both 0 below M. */
  lemma LlmsShape(x: seq<real>, dn: seq<real>, mu: real, M: int, lambda: real)
    requires Accepted(x, dn, mu, M) && lambda >= 0.0
    ensures var f := LlmsReference(x, dn, mu, M, lambda).value;
            && f.w == LeakyWeights(x, dn, mu, lambda, M, |x|) && |f.w| == M
            && |f.y| == |x| && |f.e| == |x|
            && (forall n :: 0 <= n < M ==> f.y[n] == 0.0 && f.e[n] == 0.0)
  {
  }

  /** At an adapted sample n, `lms`'s y[n] is the dot product of the weights
      held before sample n with the window x[n], x[n-1], .., x[n-M+1];
      e[n] is dn[n] - y[n]; and the weights after sample n are the old ones
      moved by 2 * mu * e[n] along that window. */
  lemma LmsSample(x: seq<real>, dn: seq<real>, mu: real, M: int, n: nat)
    requires Accepted(x, dn, mu, M) && M <= n < |x|
    ensures var f := LmsReference(x, dn, mu, M).value;
            var x1 := CurrentWindow(x, n, M);
            && f.y[n] == Dot(LmsWeights(x, dn, mu, M, n), x1)
            && f.e[n] == dn[n] - f.y[n]
            && LmsWeights(x, dn, mu, M, n + 1) == Adapt(LmsWeights(x, dn, mu, M, n), 2.0 * mu, f.e[n], x1)
  {
  }

  /** At an adapted sample n, `llms` computes y[n] and e[n] as `lms` does
      but on its own weights, and its next weights shrink the old ones by
      1 - mu * lambda before the 2 * mu * e[n] step along the window. */
  lemma LlmsSample(x: seq<real>, dn: seq<real>, mu: real, M: int, lambda: real, n: nat)
    requires Accepted(x, dn, mu, M) && lambda >= 0.0 && M <= n < |x|
    ensures var f := LlmsReference(x, dn, mu, M, lambda).value;
            var x1 := CurrentWindow(x, n, M);
            var w := LeakyWeights(x, dn, mu, lambda, M, n);
            && f.y[n] == Dot(w, x1)
            && f.e[n] == dn[n] - f.y[n]
            && LeakyWeights(x, dn, mu, lambda, M, n + 1) == Adapt(Scale(1.0 - mu * lambda, w), 2.0 * mu, f.e[n], x1)
  {
    var w := LeakyWeights(x, dn, mu, lambda, M, n);
    var x1 := CurrentWindow(x, n, M);
    assert LeakyWeights(x, dn, mu, lambda, M, n + 1) == Adapt(Scale(1.0 - mu * lambda, w), 2.0 * mu, dn[n] - Dot(w, x1), x1);
  }

  /** A filter as long as the signal never adapts: `lms` and `llms` return
      zero weights and all-zero y and e. */
  lemma FullLengthIsIdle(x: seq<real>, dn: seq<real>, mu: real, M: int, lambda: real)
    requires Accepted(x, dn, mu, M) && M == |x| && lambda >= 0.0
    ensures LmsReference(x, dn, mu, M).value == Filtered(Zeros(M), Zeros(M), Zeros(M))
    ensures LlmsReference(x, dn, mu, M, lambda).value == Filtered(Zeros(M), Zeros(M), Zeros(M))
  {
    var f := LmsReference(x, dn, mu, M).value;
    var g := LlmsReference(x, dn, mu, M, lambda).value;
    assert f.y == Zeros(M) && f.e == Zeros(M);
    assert g.y == Zeros(M) && g.e == Zeros(M);
  }

  /** Without leakage the leaky weights are the plain LMS weights. */
  lemma {:induction false} LeakFreeWeights(x: seq<real>, dn: seq<real>, mu: real, M: nat, n: nat)
    requires M <= n <= |x| == |dn|
    ensures LeakyWeights(x, dn, mu, 0.0, M, n) == LmsWeights(x, dn, mu, M, n)
  {
    if n > M {
      LeakFreeWeights(x, dn, mu, M, n - 1);
      ScaleByOne(LmsWeights(x, dn, mu, M, n - 1));
    }
  }

  /** `llms` with leakage 0 returns exactly what `lms` returns, errors
      included. */
  lemma LeakFreeIsLms(x: seq<real>, dn: seq<real>, mu: real, M: int)
    ensures LlmsReference(x, dn, mu, M, 0.0) == LmsReference(x, dn, mu, M)
  {
    if Accepted(x, dn, mu, M) {
      forall n | M <= n <= |x| {
        LeakFreeWeights(x, dn, mu, M, n);
      }
      assert LlmsRun(x, dn, mu, 0.0, M).y == LmsRun(x, dn, mu, M).y;
      assert LlmsRun(x, dn, mu, 0.0, M).e == LmsRun(x, dn, mu, M).e;
    }
  }

  /** Every window of a silent signal is silent. */
  lemma SilentWindow(x: seq<real>, n: nat, M: nat)
    requires M <= n < |x|
    requires forall i :: 0 <= i < |x| ==> x[i] == 0.0
    ensures forall i :: 0 <= i < M ==> CurrentWindow(x, n, M)[i] == 0.0
  {
    forall i | 0 <= i < M
      ensures CurrentWindow(x, n, M)[i] == 0.0
    {
      CurrentWindowAt(x, n, M, i);
    }
  }

  /** A silent reference input never moves the weights off zero. */
  lemma {:induction false} SilentInputWeights(x: seq<real>, dn: seq<real>, mu: real, M: nat, n: nat)
    requires M <= n <= |x| == |dn|
    requires forall i :: 0 <= i < |x| ==> x[i] == 0.0
    ensures LmsWeights(x, dn, mu, M, n) == Zeros(M)
  {
    if n > M {
      SilentInputWeights(x, dn, mu, M, n - 1);
      var x1 := CurrentWindow(x, n - 1, M);
      SilentWindow(x, n - 1, M);
      var g := dn[n - 1] - Dot(Zeros(M), x1);
      AdaptZeroRegressor(Zeros(M), 2.0 * mu, g, x1);
      assert LmsWeights(x, dn, mu, M, n) == Adapt(Zeros(M), 2.0 * mu, g, x1);
    }
  }

  /** With a silent reference input `lms` removes nothing: y stays 0 and
      e[n] is dn[n] for every adapted sample. */
  lemma SilentInputPassesDesired(x: seq<real>, dn: seq<real>, mu: real, M: int)
    requires Accepted(x, dn, mu, M)
    requires forall i :: 0 <= i < |x| ==> x[i] == 0.0
    ensures var f := LmsReference(x, dn, mu, M).value;
            f.w == Zeros(M) &&
            forall n :: M <= n < |x| ==> f.y[n] == 0.0 && f.e[n] == dn[n]
  {
    SilentInputWeights(x, dn, mu, M, |x|);
    forall n | M <= n < |x|
      ensures LmsY(x, dn, mu, M, n) == 0.0
    {
      SilentInputWeights(x, dn, mu, M, n);
      DotZeros(Zeros(M), CurrentWindow(x, n, M));
    }
  }

  // ---------------------------------------------------------------------
  // Writing the filtered signal: `np.clip(e, -32768, 32767).astype(np.int16)`

  const Int16Min: int := -32768
  const Int16Max: int := 32767

  /** `np.clip` of one sample to the int16 range: `min(max(v, lo), hi)`. */
  function Clip(v: real): (r: real)
    ensures Int16Min as real <= r <= Int16Max as real
    ensures Int16Min as real <= v <= Int16Max as real ==> r == v
    ensures v < Int16Min as real ==> r == Int16Min as real
    ensures v > Int16Max as real ==> r == Int16Max as real
  {
    var lo := if v < Int16Min as real then Int16Min as real else v;
    if lo > Int16Max as real then Int16Max as real else lo
  }

  /** Clipping twice is clipping once. */
  lemma ClipIdempotent(v: real)
    ensures Clip(Clip(v)) == Clip(v)
  {
  }

  /** Clipping keeps the order of samples. */
  lemma ClipMonotone(v: real, u: real)
    requires v <= u
    ensures Clip(v) <= Clip(u)
  {
  }

  /** numpy's float-to-integer cast, which truncates toward zero. */
  function TruncateTowardZero(v: real): (i: int)
    ensures v >= 0.0 ==> 0 <= i && i as real <= v < i as real + 1.0
    ensures v < 0.0 ==> i <= 0 && i as real - 1.0 < v <= i as real
  {
    if v >= 0.0 then v.Floor else -((-v).Floor)
  }

  /** One written sample: the clipped value cast to int16. */
  function WavSample(v: real): (s: int)
    ensures Int16Min <= s <= Int16Max
    ensures v == v.Floor as real && Int16Min as real <= v <= Int16Max as real ==> s == v.Floor
  {
    TruncateTowardZero(Clip(v))
  }

  /** The samples written to the output file: one int16 per sample of e,
      each within range, and every integral in-range sample kept as is. */
  function WavSamples(e: seq<real>): (r: seq<int>)
    ensures |r| == |e|
    ensures forall n :: 0 <= n < |e| ==> Int16Min <= r[n] <= Int16Max
    ensures forall n :: 0 <= n < |e| && e[n] == e[n].Floor as real && Int16Min as real <= e[n] <= Int16Max as real ==> r[n] == e[n].Floor
  {
    seq(|e|, n requires 0 <= n < |e| => WavSample(e[n]))
  }

  /** A sample within (-1, 1) is written as 0, so residual noise smaller
      than one quantisation step vanishes from the file. */
  lemma SmallSampleIsSilent(v: real)
    requires -1.0 < v < 1.0
    ensures WavSample(v) == 0
  {
  }

  // ---------------------------------------------------------------------
  // The output file name
  // `f"{signal_name}_{algorithm.replace(' ', '_')}_{timestamp}_output.wav"`

  /** `s.split('.')[0]`: everything before the first '.', or all of s. */
  function BeforeFirstDot(s: string): (r: string)
    ensures r <= s
    ensures '.' !in r
    ensures |r| < |s| ==> s[|r|] == '.'
  {
    if |s| == 0 || s[0] == '.' then "" else [s[0]] + BeforeFirstDot(s[1..])
  }

  /** The name of the selected signal file without its extension; the
      source takes `split('.')[0]` only when the name holds a '.'. */
  function SignalName(answer: string): string
  {
    if '.' in answer then BeforeFirstDot(answer) else answer
  }

  /** The guard on '.' changes nothing: without a dot, `split('.')[0]` is
      already the whole name. */
  lemma {:induction false} SignalNameIsBeforeFirstDot(answer: string)
    ensures SignalName(answer) == BeforeFirstDot(answer)
  {
    if '.' !in answer {
      NoDotKept(answer);
    }
  }

  /** A name without '.' is its own part before the first dot. */
  lemma {:induction false} NoDotKept(s: string)
    requires '.' !in s
    ensures BeforeFirstDot(s) == s
  {
    if |s| > 0 {
      NoDotKept(s[1..]);
    }
  }

  /** `algorithm.replace(' ', '_')`. */
  function ReplaceSpaces(s: string): (r: string)
    ensures |r| == |s|
    ensures forall i :: 0 <= i < |s| ==> r[i] == (if s[i] == ' ' then '_' else s[i])
  {
    if |s| == 0 then "" else [if s[0] == ' ' then '_' else s[0]] + ReplaceSpaces(s[1..])
  }

  /** The algorithm part of the name holds no space, and replacing again
      changes nothing. */
  lemma ReplaceSpacesClean(s: string)
    ensures ' ' !in ReplaceSpaces(s)
    ensures ReplaceSpaces(ReplaceSpaces(s)) == ReplaceSpaces(s)
  {
    assert forall i :: 0 <= i < |s| ==> ReplaceSpaces(s)[i] != ' ';
  }

  /** The output file name; the timestamp (`%Y-%m-%d_%H-%M-%S` of the
      current time) is a parameter. */
  function OutputName(answer: string, algorithm: string, timestamp: string): string
  {
    SignalName(answer) + "_" + ReplaceSpaces(algorithm) + "_" + timestamp + "_output.wav"
  }

  /** The name starts with the signal's name and an underscore, ends with
      `_output.wav`, and when neither the algorithm nor the timestamp
      holds a '.', its only '.' is the one before `wav`. */
  lemma OutputNameShape(answer: string, algorithm: string, timestamp: string)
    ensures var name := OutputName(answer, algorithm, timestamp);
            var stem := SignalName(answer);
            && name[..|stem| + 1] == stem + "_"
            && name[|name| - 11..] == "_output.wav"
            && ('.' !in algorithm && '.' !in timestamp ==>
                  forall i :: 0 <= i < |name| && name[i] == '.' ==> i == |name| - 4)
  {
    var name := OutputName(answer, algorithm, timestamp);
    var stem := SignalName(answer);
    SignalNameIsBeforeFirstDot(answer);
    var algo := ReplaceSpaces(algorithm);
    assert name == stem + "_" + algo + "_" + timestamp + "_output.wav";
    if '.' !in algorithm && '.' !in timestamp {
      assert '.' !in algo;
      var k := |stem| + 1 + |algo| + 1 + |timestamp|;
      assert name[k..] == "_output.wav";
      forall i | 0 <= i < |name| && i != |name| - 4
        ensures name[i] != '.'
      {
        if i < |stem| {
          assert name[i] == stem[i];
        } else if i == |stem| {
        } else if i < |stem| + 1 + |algo| {
          assert name[i] == algo[i - |stem| - 1];
        } else if i == |stem| + 1 + |algo| {
        } else if i < k {
          assert name[i] == timestamp[i - |stem| - 2 - |algo|];
        } else {
          assert name[i] == "_output.wav"[i - k];
        }
      }
    }
  }

  /** The part before the first dot of `stem + rest` is stem when stem has
      no dot and rest starts with one. */
  lemma {:induction false} BeforeFirstDotSplit(stem: string, rest: string)
    requires '.' !in stem && |rest| > 0 && rest[0] == '.'
    ensures BeforeFirstDot(stem + rest) == stem
  {
    if |stem| > 0 {
      assert (stem + rest)[1..] == stem[1..] + rest;
      BeforeFirstDotSplit(stem[1..], rest);
    }
  }

  /** A name without spaces is kept by `replace(' ', '_')`. */
  lemma NoSpaceKept(s: string)
    requires ' ' !in s
    ensures ReplaceSpaces(s) == s
  {
    assert forall i :: 0 <= i < |s| ==> ReplaceSpaces(s)[i] == s[i];
  }

  /** For a file `stem.ext` whose stem has no dot, and an algorithm name
      without spaces, the output name is `stem_algorithm_timestamp_output.wav`
      (for example `pcg_LMS_<timestamp>_output.wav` for `pcg.mp3`). */
  lemma OutputNameOfFile(stem: string, ext: string, algorithm: string, timestamp: string)
    requires '.' !in stem && ' ' !in algorithm
    ensures OutputName(stem + "." + ext, algorithm, timestamp)
            == stem + "_" + algorithm + "_" + timestamp + "_output.wav"
  {
    var answer := stem + "." + ext;
    assert answer == stem + ("." + ext);
    BeforeFirstDotSplit(stem, "." + ext);
    assert answer[|stem|] == '.';
    NoSpaceKept(algorithm);
  }
}
