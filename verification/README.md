# jack-ir capture core in Dafny

`jack-ir` measures an impulse response (IR) through JACK. It plays an
exponential sine sweep out of one or two playback ports and records one or
two capture ports. It then deconvolves the recording with the inverse sweep
and writes the trimmed, normalised IR to a sound file. This project models the
sequential, index-heavy core of that tool and proves properties about it.

- `configuration.dfy` (module `Configuration`): the port-count checks of
  `main` and the choice of the number of IR channels `n_ir`.
- `capture.dfy` (module `CaptureScheduler`): the real-time capture scheduler.
  - Class `Scheduler` holds the process-wide globals `proc_pos`, `proc_tot`,
    `true_stereo_pass`, `client_state` and `roundtrip_latency` as fields, and
    the capture buffers `ir` as an `array2<real>` (channel, sample).
  - The JACK callback `jack_process` and the two capture policies are methods.
    The JACK port buffers are arrays passed in as parameters.
  - The abort setters (x-run, shutdown, signal) and the graph-order latency
    callback are methods too. The port latencies are passed in as sequences.
  - The counter part of one callback is the value function `Advance` over a
    `Cursor`. `Iterate` applies it once per block; it is the basis of the
    block-count lemmas for single-pass and true-stereo sessions.
- `deconvolution.dfy` (module `Deconvolution`): `convolv`. This covers the
  engine setup protocol and its error codes, and the block-stepping loop that
  feeds zero-padded partitions to the engine and writes each block's output
  back in place.
  - The zita-convolver engine is an opaque value `Engine`: the return codes of
    its setup calls, plus a function from the blocks fed so far to an output
    sample.
  - Its partition size `MAXPART` is the parameter `part`.
- `postprocessing.dfy` (module `PostProcessing`): the rest of the pipeline.
  - `digital_peak`, `normalize_peak` and `trim_end` (its silence detector, its
    fade-out and its zero-fill).
  - From the end of `main`: the latency selection, the output window, and the
    post-processing sequence with its clip gate.
- `sweep.dfy` (module `Sweep`): the index structure of `gensweep`. One pass
  fills the forward sweep front to back and the inverse sweep back to front,
  and the fade region of each sample is chosen as in the source. The waveform
  itself is a parameter.

Samples are `real`. The level constants of the post-processing are
parameters of its methods:
- the clip level 0.98, a literal in the source (`in_peak >= .98`,
  `jack-ir.cc:812`);
- the normalisation target of -3 dBFS and the trim thresholds of -20 dBFS
  and -60 dBFS, which the tool computes with `exp10f` (`jack-ir.cc:309-310`
  and `jack-ir.cc:377`).

## Behaviour worth noting

Some behaviour of `jack-ir.cc` is easy to misread. The model reproduces each
of these as written:
- **Latency** (`jack-ir.cc:829-840`). With no explicit latency, a measured
  round trip above 3 samples is reduced by 4. A round trip of 0 to 3 samples
  is used unchanged (`EffectiveLatency`). So a round trip of 3 gives a latency
  of 3, while a round trip of 4 gives 0.
- **Trim cut** (`jack-ir.cc:331-333`). The cut is the first sample at which
  more than `rate / 20` consecutive silent samples have been seen. That is the
  start of the silent run plus `rate / 20`. The fade therefore covers the
  first `rate / 20` samples of the silent run.
- **Normalisation direction** (`jack-ir.cc:379`). The peak is raised to the
  target only when it is non-zero and at most the target. A peak above the
  target is left alone with gain 1.
- **Single-pass block count** (`jack-ir.cc:134`). A single pass ends after
  `irrecLen / B + 1` blocks of `B` samples, because the test is
  `proc_pos > irrec_len`. This equals `ceil(irrecLen / B)` only when `B` does
  not divide `irrecLen`.
- **Empty window** (`jack-ir.cc:842-849`). When the trimmed length equals the
  sweep length plus the latency, a window of length 0 is handed to the writer.
  Only a strictly shorter trimmed length is reported as too short.

## Model

| member | source | states |
|---|---|---|
| Configuration.ValidatePorts | jack-ir.cc:626-659 | Validation succeeds exactly when 1 <= outputs <= inputs <= 2 and true-stereo is only asked with 2 x 2 ports. A bad count is reported as InvalidPortCount before the true-stereo check. On success `n_ir` is 4 in true-stereo mode and the number of capture ports otherwise. |
| Configuration.AcceptedLayouts | jack-ir.cc:629-659 | The accepted configurations are exactly mono, mono-to-stereo, stereo and true-stereo, with 1, 2, 2 and 4 IR channels. |
| CaptureScheduler.Advance | jack-ir.cc:99-108 | One block outside Run changes nothing. In Run, `proc_tot` grows by the block size and the cursor advances by it. A single pass (lines 132-136) moves to Exit exactly when the cursor passes `irrec_len`. In true-stereo mode, crossing `irrec_len + true_stereo_pass` in the first pass resets the cursor and the pass word to 0 and stays in Run. Exit is reached only in the second pass, past `irrec_len`. |
| CaptureScheduler.TerminalIsFinal | jack-ir.cc:147-149 | Once the client has left Run, any number of further callbacks leaves the counters unchanged. |
| CaptureScheduler.SecondPassIsLast | jack-ir.cc:101-104 | Once the pass word is 0 it stays 0, so the true-stereo reset happens at most once. |
| CaptureScheduler.WithinPass | jack-ir.cc:99-101 | Until a pass crosses its threshold, every block moves the cursor and the total by exactly the block size. |
| CaptureScheduler.RunsUntil | jack-ir.cc:99-101 | A pass that starts at cursor 0 and whose threshold is at least `q * B` is in Run with cursor and total moved by `k * B` after each of the first q blocks. |
| CaptureScheduler.PassOfBlocks | jack-ir.cc:99-108 | When `q * B <= threshold < q * B + B`, a pass from cursor 0 is at `k * B` in Run for k <= q, and block q + 1 is the one step of `Advance` from cursor `q * B` that crosses the threshold. |
| CaptureScheduler.SinglePassBlockCount | jack-ir.cc:132-136 | A single-pass session with block size B is in Run with cursor `k * B` for k <= `irrec_len / B`, and is in Exit after `irrec_len / B + 1` blocks. |
| CaptureScheduler.FirstPassEnds | jack-ir.cc:99-104 | The first true-stereo pass runs `(irrec_len + gap) / B + 1` blocks and ends with cursor and pass word reset to 0, still in Run. |
| CaptureScheduler.SecondPassEnds | jack-ir.cc:99-107 | The second true-stereo pass runs `irrec_len / B + 1` blocks from cursor 0 and ends in Exit. |
| CaptureScheduler.SecondPassAfter | jack-ir.cc:99-107 | Once a session has reached cursor 0 with pass word 0 in Run, it runs `irrec_len / B + 1` more blocks, at `k * B` in Run for the first ones, and ends in Exit. |
| CaptureScheduler.TrueStereoBlockCount | jack-ir.cc:79-109 | A true-stereo session has a first pass of `(irrec_len + gap) / B + 1` blocks, at cursor `k * B` with the pass word kept, which ends with cursor and pass word reset to 0 in Run. A second pass of `irrec_len / B + 1` blocks follows at cursor `k * B`. The session stays in Run until the last of those blocks, which enters Exit. |
| CaptureScheduler.WorstIsMaximum | jack-ir.cc:178-194 | The worst latency is at least every port's maximum latency, and equals one of them (or 0 when there are no ports). |
| CaptureScheduler.Scheduler.constructor | jack-ir.cc:739-745 | The capture buffers are `n_ir` channels of `sweep_len + irrec_len` zeroed samples. The counters start at 0 in Initialize. The pass word is the silence length in true-stereo mode (line 690) and 1 otherwise. |
| CaptureScheduler.Scheduler.Start | jack-ir.cc:780-781 | The controlling thread puts the client in Run, whatever state it was in. |
| CaptureScheduler.Scheduler.StartUnlessAborted | jack-ir.cc:776-781 | The corrected start: an Abort set before it is kept, any other state becomes Run. |
| CaptureScheduler.Scheduler.SignalBeforeStart | jack-ir.cc:776-781 | A signal caught during the one-second wait is followed by `Start`, and the session ends up in Run. |
| CaptureScheduler.Scheduler.SignalBeforeGuardedStart | jack-ir.cc:776-781 | With the corrected start, the same signal leaves the session in Abort. |
| CaptureScheduler.Scheduler.JackXrun | jack-ir.cc:161-167 | An x-run forces Abort and returns 0. |
| CaptureScheduler.Scheduler.JackShutdown | jack-ir.cc:169-174 | A server shutdown forces Abort. |
| CaptureScheduler.Scheduler.CatchSignal | jack-ir.cc:446-451 | SIGHUP/SIGINT force Abort. |
| CaptureScheduler.Scheduler.GraphOrder | jack-ir.cc:176-197 | The round-trip latency becomes the worst capture latency plus the worst playback latency. |
| CaptureScheduler.Scheduler.PlaySweep | jack-ir.cc:116-122 | Each output port that plays in this pass gets `min(n, sweep_len - proc_pos)` sweep samples from the cursor. `sweep_sin` is never read at or beyond `sweep_len`, and nothing else in the ports changes. |
| CaptureScheduler.Scheduler.RecordInputs | jack-ir.cc:124-130 | Each IR slot recorded in this pass gets `min(n, irrec_len - proc_pos)` samples of its capture port at the cursor. Nothing at or beyond `irrec_len` is written, and other slots and samples are untouched. |
| CaptureScheduler.Scheduler.ProcessSinglePass | jack-ir.cc:111-137 | Every output plays the clamped sweep slice and every input lands in its own slot. The counters move as `Advance` says for a single pass. |
| CaptureScheduler.Scheduler.ProcessMultiPass | jack-ir.cc:79-109 | While the pass word is non-zero only port 0 plays and inputs 0/1 land in slots 0/1; afterwards only port 1 plays and they land in slots 2/3. Slots of the other pass are not written. The counters move as `Advance` says for true-stereo. |
| CaptureScheduler.Scheduler.Process | jack-ir.cc:139-159 | Every output is zeroed first, then holds the sweep slice only for the ports playing in Run. Outside Run the counters and `ir` are untouched. In Run `proc_tot` grows by the block size. `ir` is never written at or beyond `irrec_len`. The counters follow `Advance`. |
| Deconvolution.Setup | jack-ir.cc:242-277 | Setup succeeds exactly when configure, loading tap (0,0), every diagonal link and the start succeed and the engine is processing. A configure failure returns its code, then a load failure returns its code; any later failure returns -1. |
| Deconvolution.BlocksCover | jack-ir.cc:279-302 | The blocks tile `[0, n_samples)` in order. The first b blocks cover `min(b * MAXPART, n_samples)` samples. Every block that starts below `n_samples` has between 1 and `MAXPART` samples and is full unless it is the last. After `ceil(n_samples / MAXPART)` blocks everything is covered. |
| Deconvolution.ReadBlock | jack-ir.cc:285-291 | The engine input for a block is each channel's n samples at the offset, with the rest of the partition zeroed. |
| Deconvolution.WriteBlock | jack-ir.cc:295-298 | Each channel's n samples at the offset are overwritten with the engine's output for the block. Nothing else changes. |
| Deconvolution.BlockOutput | jack-ir.cc:293-298 | The samples of block b, written at `b * MAXPART`, hold the engine's output at their position `k % MAXPART` after it was fed blocks 0 to `k / MAXPART`. |
| Deconvolution.Stream | jack-ir.cc:279-302 | Every sample k < `n_samples` of every channel ends up holding the engine's output at position `k % MAXPART` after it has been fed blocks 0 to `k / MAXPART`. Samples at or beyond `n_samples` are untouched. |
| Deconvolution.Convolv | jack-ir.cc:237-304 | The result is 0 exactly when setup succeeds, and a failed setup leaves `data` untouched. Otherwise the block-stepping result of `Stream` holds. |
| PostProcessing.PeakIsPeak | jack-ir.cc:358-371 | The scan order of `digital_peak` yields a value that is at least the magnitude of every sample and equals one of them (or 0 for silent data). |
| PostProcessing.PeakUnique | jack-ir.cc:358-371 | The peak is determined by the samples alone. |
| PostProcessing.DigitalPeak | jack-ir.cc:358-371 | The loop returns the digital peak over all channels' first `n_samples` samples. |
| PostProcessing.ScaledIsPeak | jack-ir.cc:383-388 | Multiplying every sample by one gain g > 0 multiplies the peak by g. |
| PostProcessing.NormalizationGain | jack-ir.cc:379-383 | When 0 < peak <= target, the gain `target / peak` is at least 1 and brings the peak exactly to the target. |
| PostProcessing.Scale | jack-ir.cc:384-388 | Every channel's first `n_samples` samples are multiplied by the same gain, in place. |
| PostProcessing.NormalizePeak | jack-ir.cc:373-390 | When the peak is 0 or above the target, the gain is 1 and the data is unchanged. Otherwise every sample is multiplied by `target / peak` and the new peak is the target. The gain is never below 1. |
| PostProcessing.AnyAboveMeans | jack-ir.cc:321-329 | The per-channel scan finds a sample above a level exactly when some channel exceeds it at that sample. |
| PostProcessing.ArmedMeans | jack-ir.cc:320-325 | The detector is armed before sample m exactly when some earlier sample of some channel exceeded -20 dBFS. |
| PostProcessing.FindCut | jack-ir.cc:315-340 | The cut is at least `tme_min` and at most `n_samples`. Below `n_samples` it ends a run of `tme_min + 1` silent samples, each preceded by arming and with no channel above -60 dBFS. No earlier sample ends such a run. It is `n_samples` when no sample does. |
| PostProcessing.FadeGainFalls | jack-ir.cc:344-345 | The fade gain `1 - n / tme_min` starts at 1, never increases and stays positive. |
| PostProcessing.ScaleColumn | jack-ir.cc:346-348 | One sample index of every channel is multiplied by the fade gain. |
| PostProcessing.TrimEnd | jack-ir.cc:306-356 | The cut is the one `FindCut` finds. Samples before `cut - tme_min` and at or beyond `n_samples` are unchanged. The `tme_min` samples before the cut are multiplied by the fade gain. Every sample from the cut to `n_samples` is zero. |
| PostProcessing.ClipGate | jack-ir.cc:812-815 | For a positive clip level, the input peak reaches it exactly when some sample of some channel does. |
| PostProcessing.EffectiveLatency | jack-ir.cc:829-840 | A positive explicit latency is used as given. Otherwise the latency is within 4 samples below the measured round trip, exactly 4 below it once the round trip exceeds 3, and equal to it for round trips of 0 to 3. |
| PostProcessing.OutputWindow | jack-ir.cc:842-850 | Nothing is written exactly when the trimmed length is below sweep length plus latency. Otherwise the window starts at sweep length plus latency and ends at the trimmed length. |
| PostProcessing.NormalizeAndTrim | jack-ir.cc:822-827 | The IR is normalised as `NormalizePeak` does, with the reported gain at least 1. The trim point is the one the silence detector finds in the normalised IR. The result is the normalised IR kept before the fade, faded over `rate / 20` samples and zero from the trim point on. |
| PostProcessing.DeconvolveAndTrim | jack-ir.cc:817-827 | A failed engine setup returns a non-zero code with `ir` untouched. Otherwise the deconvolved IR is the engine's block output, and it is normalised and trimmed as `NormalizeAndTrim` states. |
| PostProcessing.PostProcess | jack-ir.cc:804-851 | Post-processing runs only after Exit. A raw peak at or above the clip level stops it with `ir` untouched. A failed engine setup stops it with `ir` untouched and a non-zero code. Otherwise the deconvolved IR is the engine's block output, it is normalised with the reported gain and trimmed at the point the silence detector finds in the normalised IR. The window is exactly `OutputWindow` of that trim point, the sweep length and the effective latency: too short when the trim point is before sweep length plus latency, otherwise from there to the trim point. |
| Sweep.FadeAt | jack-ir.cc:412-420 | The first `n_samples_pre` samples fade in. Of the rest, those within `n_samples_end` of the end (counted by `j = n - 1 - i`) fade out, and the others have unit gain. |
| Sweep.GenSweep | jack-ir.cc:392-430 | Both arrays have `pre + sin + end` samples. `fwd[i]` is the ramped sample i times the amplitude, and `inv[j]` is the same sample of index `n - 1 - j` times the inverse weight, so each index of both arrays is written once. |

## Left out

- I/O is not part of this model: libsndfile output (`sf_write`) and its return code, the progress printouts, every dB figure computed with `log`, and the diagnostics on stderr. Those are the messages of the x-run, shutdown and signal handlers (`jack-ir.cc:164`, `172`, `449`), the two port-count messages (`630`, `636`), "Input signal clipped!" (`813`), "Deconvolution failed" (`818`) and "IR is too short or empty" (`843`). `PostProcess` returns the window to write instead of writing it.
- The JACK client is not modelled: opening and activating it, registering and connecting ports, `jack_port_get_buffer` and `jack_port_get_latency_range`. Port buffers and port latencies are parameters instead. The model assumes (`PortsOk`) that no output port buffer is also an input port buffer. JACK can hand a client its own output buffer as an input, for example with `-c ir:sweep_1`; then the zeroing at `jack-ir.cc:142-145` and the sweep copy would reach the recorded input, which the model does not capture.
- getopt parsing, `print_usage`, `print_version`, `file_exists`, `cleanup` and the frees are not modelled.
- The float range check on the capture length (`jack-ir.cc:641`), the integer sample-rate check `44100 <= rate <= 96000` (`jack-ir.cc:684`) and the clamp of the silence length to 1-10 s (`jack-ir.cc:593`, which clamps and never rejects) are not modelled. `irrec_len` and the true-stereo gap are given as integers. The clamp together with `rate >= 44100` is what makes the gap `rate * t_silence` positive, which `FirstPassEnds` and `TrueStereoBlockCount` require.
- Concurrency is not modelled. The `sleep` polling loop in `main`, the progress estimate `n_max`, and the race on the `volatile client_state` between the real-time thread and the handlers are all left out. State transitions are modelled one call at a time.
- The numerics of zita-convolver (`Convproc`) are not modelled. The engine is an opaque response function of the blocks fed so far, so the model proves the block bookkeeping but not that the output is a deconvolution.
- Sweep.GenSweep: the waveform is not modelled. The logarithmic frequency law, the sine ramps and the inverse weighting (`log`, `exp`, `sin`, `floor`) are opaque parameters, and the float-to-int truncation of the three section lengths is replaced by given lengths.
- Floating point is modelled as exact real arithmetic. `exp10f` thresholds, IEEE rounding of `target / peak` and of the fade gains, and `fabsf` on NaN are not modelled.
- Fixed-width overflow is not modelled. Counters and lengths are unbounded naturals, so a uint32 wrap-around of `proc_pos + n_samples`, `proc_tot` or `sweep_len + lat` is not captured.
- CaptureScheduler.Scheduler.constructor: port registration and the out-of-memory exits around the allocation are not modelled.

## Findings

| source | as written | input that shows it | evidently intended | confidence | as-written member | corrected member |
|---|---|---|---|---|---|---|
| jack-ir.cc:776-781 | The SIGHUP/SIGINT handlers are installed before `sleep (1)`, and `client_state = Run` follows unconditionally. | A SIGINT/SIGHUP or an x-run of the already active client during that second: the handler sets Abort, then line 781 sets Run, the abort is lost and the capture proceeds. A JACK shutdown in that second also sets Abort and is overwritten, but no process callback runs again, so `Run` is never left and the poll loop at lines 791-799 never ends: the program hangs. | An abort that arrives before the capture starts is kept, and the capture loop is not entered. | medium, not executed | CaptureScheduler.Scheduler.SignalBeforeStart | CaptureScheduler.Scheduler.StartUnlessAborted |
