/** Vector arithmetic shared by the three filter implementations. Samples,
    weights and tap windows are finite sequences of exact reals; the numpy,
    d3 and JavaScript array operations the sources use are written out here
    once. */
module Dsp {

  /** An all-zero vector (`np.zeros(n)`, `new Array(n).fill(0)`). */
  function Zeros(n: nat): (r: seq<real>)
    ensures |r| == n
    ensures forall i :: 0 <= i < n ==> r[i] == 0.0
  {
    seq(n, _ => 0.0)
  }

  /** A bank of weight vectors, one per filter stage, each of length L. */
  predicate Shaped(ws: seq<seq<real>>, L: nat)
  {
    forall i :: 0 <= i < |ws| ==> |ws[i]| == L
  }

  /** The desired signal d covers every sample a length-L adaptive filter
      adapts on (indices L .. |x|-1 of the input x). */
  predicate Covers(x: seq<real>, d: seq<real>, L: nat)
  {
    L < |x| ==> |x| <= |d|
  }

  /** Every coefficient of every stage is zero. */
  predicate AllZero(ws: seq<seq<real>>)
  {
    forall s :: 0 <= s < |ws| ==> forall i :: 0 <= i < |ws[s]| ==> ws[s][i] == 0.0
  }

  /** Inner product (`np.dot`, `d3.sum` of the element-wise products). */
  function Dot(a: seq<real>, b: seq<real>): real
    requires |a| == |b|
  {
    if |a| == 0 then 0.0 else a[0] * b[0] + Dot(a[1..], b[1..])
  }

  /** A zero vector on either side makes the inner product zero. */
  lemma {:induction false} DotZeros(a: seq<real>, b: seq<real>)
    requires |a| == |b|
    requires (forall i :: 0 <= i < |a| ==> a[i] == 0.0) || (forall i :: 0 <= i < |b| ==> b[i] == 0.0)
    ensures Dot(a, b) == 0.0
  {
    if |a| > 0 {
      DotZeros(a[1..], b[1..]);
    }
  }

  /** `np.sign` and `Math.sign` on a finite number: the sign as -1, 0 or 1. */
  function Sign(v: real): (s: real)
    ensures s == -1.0 || s == 0.0 || s == 1.0
    ensures s == 0.0 <==> v == 0.0
    ensures s > 0.0 <==> v > 0.0
  {
    if v > 0.0 then 1.0 else if v < 0.0 then -1.0 else 0.0
  }

  /** The gain cascade stage k adapts with on error e: the error itself at
      even stages (LMS), its sign at odd stages (Sign-LMS). */
  function Gain(k: nat, e: real): real
  {
    if k % 2 == 0 then e else Sign(e)
  }

  /** The coefficient step `w + mu * g * x` of every adaptive rule here:
      step size mu, gain g (the error, its sign, or the error again for
      main.py's factor-2 rule) and regressor x. */
  function Adapt(w: seq<real>, mu: real, g: real, x: seq<real>): (r: seq<real>)
    requires |w| == |x|
    ensures |r| == |w|
  {
    seq(|w|, i requires 0 <= i < |w| => w[i] + mu * g * x[i])
  }

  /** A zero step size or a zero gain leaves the weights as they were. */
  lemma AdaptIdle(w: seq<real>, mu: real, g: real, x: seq<real>)
    requires |w| == |x| && (mu == 0.0 || g == 0.0)
    ensures Adapt(w, mu, g, x) == w
  {
    assert forall i :: 0 <= i < |w| ==> Adapt(w, mu, g, x)[i] == w[i];
  }

  /** A zero regressor leaves the weights as they were. */
  lemma AdaptZeroRegressor(w: seq<real>, mu: real, g: real, x: seq<real>)
    requires |w| == |x| && forall i :: 0 <= i < |x| ==> x[i] == 0.0
    ensures Adapt(w, mu, g, x) == w
  {
    assert forall i :: 0 <= i < |w| ==> Adapt(w, mu, g, x)[i] == w[i];
  }

  /** `c * w`, element by element. */
  function Scale(c: real, w: seq<real>): (r: seq<real>)
    ensures |r| == |w|
    ensures forall i :: 0 <= i < |w| ==> r[i] == c * w[i]
  {
    seq(|w|, i requires 0 <= i < |w| => c * w[i])
  }

  /** Scaling by one changes nothing. */
  lemma ScaleByOne(w: seq<real>)
    ensures Scale(1.0, w) == w
  {
    assert forall i :: 0 <= i < |w| ==> Scale(1.0, w)[i] == w[i];
  }

  /** `s[::-1]` in Python, `s.reverse()` in JavaScript. */
  function Reverse(s: seq<real>): (r: seq<real>)
    ensures |r| == |s|
  {
    if |s| == 0 then [] else [s[|s| - 1]] + Reverse(s[..|s| - 1])
  }

  /** Element k of a reversed sequence is element |s| - 1 - k of the original. */
  lemma {:induction false} ReverseAt(s: seq<real>, k: nat)
    requires k < |s|
    ensures Reverse(s)[k] == s[|s| - 1 - k]
  {
    if k > 0 {
      ReverseAt(s[..|s| - 1], k - 1);
    }
  }

  /** The tap window of both cascade classes at sample n: the L samples
      before n, most recent first (`x[n-L:n][::-1]`, `x.slice(n-L, n).reverse()`). */
  function PastWindow(x: seq<real>, n: nat, L: nat): (r: seq<real>)
    requires L <= n <= |x|
    ensures |r| == L
  {
    Reverse(x[n - L..n])
  }

  /** The cascade tap window holds x[n-1], ..., x[n-L] and never x[n]. */
  lemma PastWindowAt(x: seq<real>, n: nat, L: nat, i: nat)
    requires L <= n <= |x| && i < L
    ensures PastWindow(x, n, L)[i] == x[n - 1 - i]
  {
    ReverseAt(x[n - L..n], i);
  }

  /** The tap window of main.py's filters at sample n: Python's
      `x[n:n-M:-1]`, which for M <= n walks from index n down to index
      n - M + 1, that is the reversal of x[n-M+1 .. n]. */
  function CurrentWindow(x: seq<real>, n: nat, M: nat): (r: seq<real>)
    requires M <= n < |x|
    ensures |r| == M
  {
    Reverse(x[n - M + 1..n + 1])
  }

  /** main.py's tap window holds x[n], ..., x[n-M+1]: it includes x[n]. */
  lemma CurrentWindowAt(x: seq<real>, n: nat, M: nat, i: nat)
    requires M <= n < |x| && i < M
    ensures CurrentWindow(x, n, M)[i] == x[n - i]
  {
    ReverseAt(x[n - M + 1..n + 1], i);
  }
}
