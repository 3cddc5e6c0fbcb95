# PCG adaptive noise cancellation: a verified model

This project models the filtering core of a phonocardiogram (PCG)
denoising tool in Dafny. It covers three things.

- **The cascaded adaptive filter `AdaptiveFilter`, in two implementations.**
  - Each stage keeps one FIR weight vector.
  - At every sample n ≥ filterLength, all stages read the same tap window x[n-1], …, x[n-filterLength].
  - Even stages adapt by LMS, w ← w + μ·e·x. Odd stages adapt by Sign-LMS, w ← w + μ·sign(e)·x.
  - Each stage's error becomes the next stage's desired value.
  - The two implementations differ in how the weights are stored and in what `process` records:
    - `pcg_adaptive_filter_py.dfy` (module `PyCascade`) follows the Python class. Each weight vector is an `array<real>` updated in place. `process` records the **last stage's** output and error.
    - `pcg_adaptive_filter_js.dfy` (module `JsCascade`) follows the JavaScript class. `weights[stage]` is replaced by a new vector on every update. `process` records the **final residual** as y[n] and d[n] − y[n] as e[n].
  - `cascade_agreement.dfy` proves the two classes adapt identically and states exactly how their outputs relate.
- **The command-line filters `lms` and `llms` of main.py** (`pcg_main.dfy`, module `PcgMain`).
  - Both are single-stage LMS filters.
  - Their window x[n], …, x[n−M+1] includes the current sample.
  - Their update is w ← w + 2μ·e·x1. `llms` first scales w by the leakage factor 1 − μλ.
  - Both validate their arguments eagerly and report errors as a `Result`.
- **Two helpers of main.py** (also in `pcg_main.dfy`): the int16 clip-and-cast of the filtered signal, and the output file name.

`dsp.dfy` (module `Dsp`) holds the vector operations all three implementations share: zero vectors, the dot product, sign, the parity-selected stage gain, the weight step, and reversal and tap windows.

Each imperative operation is a Dafny method proved against a specification function:
- `Stages` is one sample's pass through the cascade.
- `Adapted` is the weights after the first n samples.
- `OutY` and `OutE` are the recorded outputs.
- `LmsReference` and `LlmsReference` are the whole result of `lms` and `llms`.

The lemmas state the properties of those functions.

Samples and weights are exact reals.

Two behaviours of the classes deserve a note:
- **What `process` records.** The two classes differ here. Python keeps the last stage's `y_n` and `e_n` (pcg_adaptive_filter.py:39-40). JavaScript keeps the final `d_n` and `d[n] − d_n` (pcg_adaptive_filter.js:39-40). `CascadeAgreement.OutputsRelate` and `CascadeAgreement.SingleStageSwap` state how the two results relate.
- **Validation.** Neither class validates its arguments (pcg_adaptive_filter.py:5-9, 23-28; pcg_adaptive_filter.js:4-9, 25-30). The model accepts every argument on which the code neither raises nor produces NaN; the exceptions are listed under "## Left out". For example, filterLength ≥ N gives all-zero outputs and unchanged weights (`ShortSignalIdle`).

## Model

| member | source | states |
|---|---|---|
| Dsp.Zeros | pcg_adaptive_filter.py:9 | a zero vector of the requested length |
| Dsp.DotZeros | pcg_adaptive_filter.py:12 | the dot product with an all-zero vector is 0 |
| Dsp.Dot | pcg_adaptive_filter.py:12 | definition: `np.dot` / `d3.sum` of the elementwise products (pcg_adaptive_filter.js:12), as a sum over the two vectors |
| Dsp.Sign | pcg_adaptive_filter.py:20 | np.sign / Math.sign is −1, 0 or 1, is 0 exactly for 0 and positive exactly for positive input |
| Dsp.Gain | pcg_adaptive_filter.py:33-36 | definition: stage k adapts with the error itself when k is even (LMS) and with its sign when k is odd (Sign-LMS), as pcg_adaptive_filter.js:35 selects |
| Dsp.Adapt | pcg_adaptive_filter.js:14 | the weight step returns a vector as long as the old weights |
| Dsp.AdaptIdle | pcg_adaptive_filter.py:14 | a zero step size or a zero gain leaves the weights unchanged |
| Dsp.AdaptZeroRegressor | main.py:60 | a zero regressor leaves the weights unchanged |
| Dsp.Scale | main.py:113 | scaling by c multiplies every coefficient by c |
| Dsp.ScaleByOne | main.py:113 | a leakage factor of 1 changes nothing |
| Dsp.Reverse | pcg_adaptive_filter.py:29 | reversal keeps the length |
| Dsp.ReverseAt | pcg_adaptive_filter.py:29 | element k of the reversal is element len−1−k of the original |
| Dsp.PastWindow | pcg_adaptive_filter.js:31 | `x.slice(n-L, n).reverse()` has length L |
| Dsp.PastWindowAt | pcg_adaptive_filter.py:29 | the cascade tap window is x[n-1], …, x[n-L]: it never contains x[n] |
| Dsp.CurrentWindow | main.py:57 | `x[n:n-M:-1]` has length M for n ≥ M |
| Dsp.CurrentWindowAt | main.py:110 | main.py's window is x[n], …, x[n-M+1]: it contains x[n] |
| PyCascade.Stages | pcg_adaptive_filter.py:32-37 | one sample's pass keeps the number and length of the weight vectors; stage 0 starts from d, and every later desired value is the previous stage's error |
| PyCascade.StagesNext | pcg_adaptive_filter.py:32-37 | proof step of the loop proofs, not a separate promise of the source: stage k reads the weights and desired value the first k stages left, outputs dot(tap, w), errs by desired − output, adapts with the parity-selected gain and forwards its error |
| PyCascade.StagesAdvance | pcg_adaptive_filter.py:32-37 | proof step of the loop proofs, not a separate promise of the source: the same step, from any known state of the loop |
| PyCascade.StagesUntouched | pcg_adaptive_filter.py:32-37 | the first k stages never touch a later stage's weights |
| PyCascade.Adapted | pcg_adaptive_filter.py:28-37 | adapting keeps the number and length of the weight vectors |
| PyCascade.OutY | pcg_adaptive_filter.py:39 | definition: y[n] is 0 below filter_length and otherwise the last stage's output `y_n` on sample n |
| PyCascade.OutE | pcg_adaptive_filter.py:40 | definition: e[n] is 0 below filter_length and otherwise the last stage's error `e_n` on sample n |
| PyCascade.AdaptedStep | pcg_adaptive_filter.py:28-40 | proof step of the loop proofs, not a separate promise of the source: each adapted sample runs the whole cascade once on the weights left so far; y[n], e[n] are that pass's last output and error |
| PyCascade.RecordedStart | pcg_adaptive_filter.py:24-28 | proof step of the loop proofs, not a separate promise of the source: the zero-filled outputs are already correct below filter_length |
| PyCascade.RecordedStep | pcg_adaptive_filter.py:28-40 | proof step of the loop proofs, not a separate promise of the source: handling sample n records exactly OutY and OutE at n and leaves later entries 0 |
| PyCascade.StageRule | pcg_adaptive_filter.py:30-37 | stage s uses LMS iff s is even and Sign-LMS otherwise, on the weights it held when the sample arrived; its desired value is d for stage 0 and stage s−1's error after that; no other stage moves |
| PyCascade.SignStageStep | pcg_adaptive_filter.py:17-21 | a Sign-LMS stage moves its weights only to w + μ·tap, w or w − μ·tap, whatever the error |
| PyCascade.ZeroErrorStage | pcg_adaptive_filter.py:11-21 | a stage whose error is zero leaves all weights unchanged under either rule |
| PyCascade.LastStageBalance | pcg_adaptive_filter.py:39-40 | y[n] + e[n] equals the last stage's desired value; with one stage it equals d[n] |
| PyCascade.ShortSignalIdle | pcg_adaptive_filter.py:24-28 | with N ≤ filter_length nothing adapts and both outputs are all zero |
| PyCascade.StagesZeroStep | pcg_adaptive_filter.py:30-37 | with step size 0 no stage moves |
| PyCascade.AdaptedZeroStep | pcg_adaptive_filter.py:28-37 | with step size 0 `process` never changes the weights |
| PyCascade.StagesFromZero | pcg_adaptive_filter.py:30-37 | from zero weights with step 0 every stage outputs 0 and errs by d |
| PyCascade.ZeroStepOutputs | pcg_adaptive_filter.py:23-42 | a fresh filter with step 0 gives y[n] = 0 and e[n] = d[n] at every adapted n |
| PyCascade.AdaptiveFilter.constructor | pcg_adaptive_filter.py:5-9 | num_stages distinct zero vectors of length filter_length, parameters stored |
| PyCascade.AdaptiveFilter.LmsUpdate | pcg_adaptive_filter.py:11-15 | returns y = dot(x, w[stage]), e = d − y; w[stage] becomes w + step·e·x in place; other stages unchanged; e = 0 changes nothing |
| PyCascade.AdaptiveFilter.SignLmsUpdate | pcg_adaptive_filter.py:17-21 | as LmsUpdate with sign(e); e = 0 leaves the weights exactly as they were |
| PyCascade.AdaptiveFilter.RunStages | pcg_adaptive_filter.py:32-37 | the stage loop leaves the weights, y_n and e_n that `Stages` describes |
| PyCascade.AdaptiveFilter.Process | pcg_adaptive_filter.py:23-42 | y, e have length N; each entry is OutY/OutE; the weights end as `Adapted` from the weights before the call (earlier calls' adaptation persists) |
| JsCascade.Stages | pcg_adaptive_filter.js:34-37 | one sample's pass keeps the number and length of the weight vectors and starts from d |
| JsCascade.StagesNext | pcg_adaptive_filter.js:34-37 | proof step of the loop proofs, not a separate promise of the source: stage k errs by d_n − dot(tap, w), adapts with the parity-selected gain, and its error becomes d_n |
| JsCascade.StagesAdvance | pcg_adaptive_filter.js:34-37 | proof step of the loop proofs, not a separate promise of the source: the same step, from any known state of the loop |
| JsCascade.StagesUntouched | pcg_adaptive_filter.js:34-37 | the first k stages never touch a later stage's weights |
| JsCascade.Adapted | pcg_adaptive_filter.js:30-37 | adapting keeps the number and length of the weight vectors |
| JsCascade.OutY | pcg_adaptive_filter.js:39 | definition: y[n] is 0 below filterLength and otherwise the final `d_n` left by the stage loop on sample n |
| JsCascade.OutE | pcg_adaptive_filter.js:40 | definition: e[n] is 0 below filterLength and otherwise d[n] − y[n] |
| JsCascade.AdaptedStep | pcg_adaptive_filter.js:30-40 | proof step of the loop proofs, not a separate promise of the source: each adapted sample runs the cascade once; y[n] is the final d_n and e[n] = d[n] − y[n] |
| JsCascade.RecordedStart | pcg_adaptive_filter.js:26-30 | proof step of the loop proofs, not a separate promise of the source: the zero-filled outputs are already correct below filterLength |
| JsCascade.RecordedStep | pcg_adaptive_filter.js:30-40 | proof step of the loop proofs, not a separate promise of the source: handling sample n records exactly OutY and OutE at n and leaves later entries 0 |
| JsCascade.StageRule | pcg_adaptive_filter.js:34-37 | stage s uses lmsUpdate iff s is even, on the weights it held when the sample arrived; its error is handed on as d_n; no other stage moves |
| JsCascade.ResidualBalance | pcg_adaptive_filter.js:39-40 | y[n] + e[n] = d[n] at every adapted n whatever the stage count; both are 0 below filterLength |
| JsCascade.ShortSignalIdle | pcg_adaptive_filter.js:26-30 | with N ≤ filterLength nothing adapts and both outputs are all zero |
| JsCascade.NoStagesPassThrough | pcg_adaptive_filter.js:34-40 | with no stages y[n] = d[n] and e[n] = 0 |
| JsCascade.StagesZeroStep | pcg_adaptive_filter.js:34-37 | with stepSize 0 no stage moves |
| JsCascade.AdaptedZeroStep | pcg_adaptive_filter.js:30-37 | with stepSize 0 `process` never changes the weights |
| JsCascade.StagesFromZero | pcg_adaptive_filter.js:34-37 | from zero weights with step 0 the desired value passes every stage unchanged |
| JsCascade.ZeroStepOutputs | pcg_adaptive_filter.js:25-43 | a fresh filter with stepSize 0 gives y[n] = d[n] and e[n] = 0 at every adapted n |
| JsCascade.AdaptiveFilter.constructor | pcg_adaptive_filter.js:4-9 | numStages zero arrays of length filterLength, parameters stored |
| JsCascade.AdaptiveFilter.LmsUpdate | pcg_adaptive_filter.js:11-16 | returns [y, e] with y = dot(x, w), e = d − y; weights[stage] is replaced by w + stepSize·e·x; e = 0 changes nothing |
| JsCascade.AdaptiveFilter.SignLmsUpdate | pcg_adaptive_filter.js:18-23 | as LmsUpdate with Math.sign(e); e = 0 leaves the weights unchanged |
| JsCascade.AdaptiveFilter.RunStages | pcg_adaptive_filter.js:34-37 | the stage loop leaves the weights and final d_n that `Stages` describes |
| JsCascade.AdaptiveFilter.Process | pcg_adaptive_filter.js:25-43 | y, e have length N; each entry is OutY/OutE; the weights end as `Adapted` from the weights before the call |
| CascadeAgreement.StagesAgree | pcg_adaptive_filter.js:34-37 | per sample, the Python and JavaScript stage loops leave identical weights and desired values |
| CascadeAgreement.TrajectoriesAgree | pcg_adaptive_filter.js:30-37 | fed the same signals from the same weights, both classes hold identical weights after every sample |
| CascadeAgreement.OutputsRelate | pcg_adaptive_filter.js:39-40 | with at least one stage the JavaScript y[n] is the Python e[n], and the JavaScript e[n] is d[n] minus it |
| CascadeAgreement.SingleStageSwap | pcg_adaptive_filter.py:39-40 | with one stage the two classes return the same two signals with y and e swapped |
| PcgMain.LmsWeights | main.py:51-60 | `lms` keeps M weights throughout |
| PcgMain.LeakyWeights | main.py:104-113 | `llms` keeps M weights throughout |
| PcgMain.LmsCheck | main.py:38-48 | the shared checks report nothing exactly when len(x) = len(dn), μ > 0 and 0 < M ≤ len(x); otherwise the first failing one, with its values |
| PcgMain.LlmsCheck | main.py:88-101 | `llms`'s checks pass exactly when the shared ones pass and λ ≥ 0; a failing shared check is reported before the leakage check |
| PcgMain.LmsY | main.py:56-58 | definition: y[n] is 0 below M, otherwise dot(w, x1) with the weights held before sample n |
| PcgMain.LmsE | main.py:59 | definition: e[n] is 0 below M, otherwise dn[n] − y[n] |
| PcgMain.LlmsY | main.py:109-111 | definition: `llms`'s y[n], on the leaky weights |
| PcgMain.LlmsE | main.py:112 | definition: `llms`'s e[n] = dn[n] − y[n] |
| PcgMain.LmsRun | main.py:50-64 | definition: the returned (w, y, e) for accepted arguments: the weights after sample N−1 and y, e entry by entry |
| PcgMain.LlmsRun | main.py:103-117 | definition: the same for `llms` |
| PcgMain.LmsReference | main.py:38-64 | definition: the first failing check's error, otherwise `LmsRun` |
| PcgMain.LlmsReference | main.py:88-117 | definition: the first failing check's error, otherwise `LlmsRun` |
| PcgMain.Lms | main.py:18-64 | the method returns exactly `LmsReference`: the first failing check's error, otherwise the weights and outputs of the loop |
| PcgMain.Llms | main.py:67-117 | the method returns exactly `LlmsReference` |
| PcgMain.LmsOutcome | main.py:38-48 | `lms` succeeds iff len(x) = len(dn), μ > 0 and 0 < M ≤ len(x); otherwise it raises the first failing check, in source order, carrying the values its message prints |
| PcgMain.LlmsOutcome | main.py:88-101 | `llms` succeeds iff those hold and λ ≥ 0; it raises `lms`'s error whenever `lms` would, and the leakage error only after the shared checks pass |
| PcgMain.LmsShape | main.py:50-56 | M final weights, y and e of length N, both 0 below M |
| PcgMain.LlmsShape | main.py:103-109 | M final weights, y and e of length N, both 0 below M |
| PcgMain.LmsSample | main.py:57-60 | y[n] = dot(pre-update w, window); e[n] = dn[n] − y[n]; the next weights move by 2μ·e[n] along the window |
| PcgMain.LlmsSample | main.py:110-113 | the same for `llms`, with the old weights first scaled by 1 − μλ |
| PcgMain.FullLengthIsIdle | main.py:50-56 | M = len(x) gives zero weights and all-zero y and e for both filters |
| PcgMain.LeakFreeWeights | main.py:113 | with λ = 0 the leaky weights are the LMS weights at every sample |
| PcgMain.LeakFreeIsLms | main.py:113 | `llms` with λ = 0 returns exactly what `lms` returns, errors included |
| PcgMain.SilentWindow | main.py:57 | every window of a silent input is silent |
| PcgMain.SilentInputWeights | main.py:60 | a silent reference input keeps the weights at zero |
| PcgMain.SilentInputPassesDesired | main.py:56-60 | with a silent reference, y[n] = 0 and e[n] = dn[n] at every adapted n |
| PcgMain.Clip | main.py:297 | the clipped sample lies in [−32768, 32767], equals the input inside that range and the nearer bound outside it |
| PcgMain.ClipIdempotent | main.py:297 | clipping twice is clipping once |
| PcgMain.ClipMonotone | main.py:297 | clipping preserves order |
| PcgMain.TruncateTowardZero | main.py:298 | the float-to-int cast truncates toward zero |
| PcgMain.WavSample | main.py:297-298 | every written sample is a valid int16; integral in-range samples are written unchanged |
| PcgMain.WavSamples | main.py:297-298 | one int16 per sample of e, each in range, integral in-range samples kept |
| PcgMain.SmallSampleIsSilent | main.py:298 | a sample strictly between −1 and 1 is written as 0 |
| PcgMain.SignalName | main.py:292 | definition: `split('.')[0]` when the name holds a '.', otherwise the whole name |
| PcgMain.BeforeFirstDot | main.py:292 | `split('.')[0]` is a prefix with no '.', followed by '.' when shorter than the name |
| PcgMain.SignalNameIsBeforeFirstDot | main.py:292 | the `'.' in` guard is redundant: the signal name is always the part before the first dot |
| PcgMain.NoDotKept | main.py:292 | a name without a dot is kept whole |
| PcgMain.BeforeFirstDotSplit | main.py:292 | for stem + ".ext" with a dot-free stem, the part before the first dot is the stem |
| PcgMain.ReplaceSpaces | main.py:293 | `replace(' ', '_')` keeps the length and turns exactly the spaces into underscores |
| PcgMain.ReplaceSpacesClean | main.py:293 | the result holds no space, and replacing again changes nothing |
| PcgMain.NoSpaceKept | main.py:293 | a name without spaces is kept |
| PcgMain.OutputName | main.py:293 | definition: signal name, '_', algorithm with spaces replaced, '_', timestamp and `_output.wav` |
| PcgMain.OutputNameShape | main.py:292-293 | the file name starts with the signal name and '_', ends with `_output.wav`, and when algorithm and timestamp hold no '.' its only '.' is the extension's |
| PcgMain.OutputNameOfFile | main.py:292-293 | for `stem.ext` and a space-free algorithm the name is `stem_algorithm_timestamp_output.wav` |

## Left out

- Floating point is not modelled: samples and weights are exact reals, so IEEE rounding, NaN and infinities are out of scope. This includes `d3.sum` skipping NaN entries.
- The Python class's `y_n` and `e_n` are unbound until the first stage has run. `PyCascade.Stages` holds 0 in that state, and no recorded output reads it.
- PyCascade.AdaptiveFilter.Process requires at least one stage and a `d` at least as long as `x` whenever some sample is adapted. The source fails there instead: line 39 reads the unbound `y_n` (UnboundLocalError), and line 30 indexes past the end of `d` (IndexError).
- JsCascade.AdaptiveFilter.Process requires a `d` at least as long as `x` whenever some sample is adapted. The source reads `undefined` there and fills the outputs with NaN.
- PyCascade.AdaptiveFilter.LmsUpdate and PyCascade.AdaptiveFilter.SignLmsUpdate require 0 ≤ stage < num_stages and a tap vector of length filter_length. Python also accepts negative stage indices, which count from the end, and numpy broadcasts or raises on mismatched lengths. `process` never makes such calls.
- JsCascade.AdaptiveFilter.LmsUpdate and JsCascade.AdaptiveFilter.SignLmsUpdate have the same requirements. The source behaves differently outside them:
  - an out-of-range stage makes `this.weights[stage]` undefined, so line 12 (or line 14 for an empty x) throws a TypeError;
  - a tap vector longer than filterLength gives NaN for the extra products, which `d3.sum` skips, and line 14 maps over the weights only, so the call uses just the first filterLength entries of x;
  - a shorter tap vector turns the weights it does not reach into NaN.
- Python's `num_stages < 0` is not modelled: `range(num_stages)` is then empty (pcg_adaptive_filter.py:9) and the filter behaves as with no stages. The model's stage count is a `nat`, and zero stages are covered by `PyCascade.ShortSignalIdle` and the requires of `PyCascade.AdaptiveFilter.Process`.
- In both `process` methods, the output buffers `y` and `e` are local sequences rather than arrays. They are created, filled and returned by the method alone and are never aliased, so nothing observable is lost.
- The stage loop of each `process` is written as a separate method, `RunStages`, which `Process` calls once per sample.
- The JavaScript weights are a sequence field that `LmsUpdate` and `SignLmsUpdate` reassign, just as the source reassigns `this.weights[stage]`. The Python weights are distinct arrays that are updated in place.
- The `isinstance` TypeError checks of `lms` and `llms` are not modelled (main.py:35-36, 85-86): Dafny's types already rule out those inputs.
- The type tests inside the ValueError checks of `lms` and `llms` are not modelled (main.py:41, 44, 91, 94, 100). Python raises ValueError for a μ or λ that is not an `int` or `float` (an `np.float32`, say) and for an M that is not an `int` (a float or an `np.int64`). The model takes μ and λ as reals and M as an integer, and judges only their values.
- The `try`/`except` RuntimeError wrapper is not modelled (main.py:55-62, 108-115). It only relabels runtime exceptions, and none can occur for accepted arguments.
- The `else x[:n+1][::-1]` branch of the window expression (main.py:57, 110) is not modelled. The loop starts at n = M, so that branch never runs.
- The rest of main.py's `main` is not modelled:
  - directory handling, `get_signal_files`, prompts, audio decoding and WAV writing;
  - Gaussian noise;
  - the fixed parameters μ = 0.1, M = 2 and λ = 0.0001;
  - the choice between `lms` and `llms`;
  - plotting.

  These are I/O or random.
- The timestamp is a parameter of `PcgMain.OutputName`, because `datetime.now()` reads the clock. Its `%Y-%m-%d_%H-%M-%S` formatting is not modelled, and neither is `os.path.join` with the output directory.
- Signal generation, noise injection, SNR and the plotting `main` functions of both filter files are not modelled: they use transcendental or random floating-point numerics, or do only presentation. The web client is presentation only.
- The error messages of `lms` and `llms` are not modelled as text: each `FilterError` records which check failed and the values its message prints.
