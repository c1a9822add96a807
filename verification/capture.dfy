/**
 * The real-time capture scheduler: the per-block JACK process callback, the
 * single-pass and true-stereo (two-pass) capture policies, the abort setters
 * and the round-trip latency aggregation of the graph-order callback.
 *
 * The process-wide globals (`proc_pos`, `proc_tot`, `true_stereo_pass`,
 * `client_state`, `roundtrip_latency`, the capture buffers `ir`) are the
 * fields of class `Scheduler`; the JACK port buffers are parameters.
 */
module CaptureScheduler {
  import Configuration
  import Arithmetic

  datatype ClientState = Initialize | Run | Exit | Abort

  /**
   * The scheduler's counters: cursor (`proc_pos`), the true-stereo pass
   * word (`true_stereo_pass`: silence length while the first pass runs,
   * 0 in the second), the client state and the total processed (`proc_tot`).
   */
  datatype Cursor = Cursor(pos: nat, pass: nat, state: ClientState, total: nat)

  /** The position past which the current pass ends. */
  function Threshold(c: Cursor, trueStereo: bool, irrecLen: nat): nat {
    if trueStereo then irrecLen + c.pass else irrecLen
  }

  /** How one block of `n` samples moves the counters. */
  function Advance(c: Cursor, n: nat, trueStereo: bool, irrecLen: nat): (r: Cursor)
    // outside Run a block changes nothing
    ensures c.state != Run ==> r == c
    ensures c.state == Run ==> r.total == c.total + n && (r.state == Run || r.state == Exit)
    // the pass word only ever drops, and only to 0
    ensures r.pass == c.pass || r.pass == 0
    // the single-pass policy: advance by n, Exit exactly once past irrecLen
    ensures c.state == Run && !trueStereo ==>
      r.pos == c.pos + n && r.pass == c.pass && (r.state == Exit <==> c.pos + n > irrecLen)
    // true-stereo: the boundary resets the cursor and clears the pass word, in the first pass only
    ensures c.state == Run && trueStereo && r.pass != c.pass ==>
      c.pass > 0 && c.pos + n > irrecLen + c.pass && r.pos == 0 && r.state == Run
    // true-stereo: Exit only in the second pass, once past irrecLen
    ensures c.state == Run && trueStereo && r.state == Exit ==>
      c.pass == 0 && r.pos == c.pos + n && r.pos > irrecLen
    ensures c.state == Run && r.state == Run && r.pass == c.pass ==>
      r.pos == c.pos + n && r.pos <= Threshold(c, trueStereo, irrecLen)
  {
    if c.state != Run then c
    else
      var pos := c.pos + n;
      if pos > Threshold(c, trueStereo, irrecLen) then
        if trueStereo && c.pass > 0 then Cursor(0, 0, Run, c.total + n)
        else Cursor(pos, c.pass, Exit, c.total + n)
      else Cursor(pos, c.pass, Run, c.total + n)
  }

  /** The counters after `k` blocks of `n` samples each. */
  function Iterate(c: Cursor, n: nat, trueStereo: bool, irrecLen: nat, k: nat): Cursor
    decreases k
  {
    if k == 0 then c else Iterate(Advance(c, n, trueStereo, irrecLen), n, trueStereo, irrecLen, k - 1)
  }

  lemma {:induction false} IterateSplit(c: Cursor, n: nat, trueStereo: bool, irrecLen: nat, a: nat, b: nat)
    ensures Iterate(c, n, trueStereo, irrecLen, a + b) ==
            Iterate(Iterate(c, n, trueStereo, irrecLen, a), n, trueStereo, irrecLen, b)
    decreases a
  {
    if a > 0 {
      IterateSplit(Advance(c, n, trueStereo, irrecLen), n, trueStereo, irrecLen, a - 1, b);
    }
  }

  /** Once the session has left Run, further blocks change nothing. */
  lemma {:induction false} TerminalIsFinal(c: Cursor, n: nat, trueStereo: bool, irrecLen: nat, k: nat)
    requires c.state != Run
    ensures Iterate(c, n, trueStereo, irrecLen, k) == c
    decreases k
  {
    if k > 0 {
      TerminalIsFinal(Advance(c, n, trueStereo, irrecLen), n, trueStereo, irrecLen, k - 1);
    }
  }

  /** Once the pass word is 0 it stays 0: the true-stereo boundary happens at most once. */
  lemma {:induction false} SecondPassIsLast(c: Cursor, n: nat, trueStereo: bool, irrecLen: nat, k: nat)
    requires c.pass == 0
    ensures Iterate(c, n, trueStereo, irrecLen, k).pass == 0
    decreases k
  {
    if k > 0 {
      SecondPassIsLast(Advance(c, n, trueStereo, irrecLen), n, trueStereo, irrecLen, k - 1);
    }
  }

  /** While a pass has not crossed its threshold, every block moves the cursor by exactly `n`. */
  lemma {:induction false} WithinPass(c: Cursor, n: nat, trueStereo: bool, irrecLen: nat, k: nat)
    requires c.state == Run
    requires c.pos + k * n <= Threshold(c, trueStereo, irrecLen)
    ensures Iterate(c, n, trueStereo, irrecLen, k) == Cursor(c.pos + k * n, c.pass, Run, c.total + k * n)
    decreases k
  {
    if k > 0 {
      Arithmetic.MulSucc(k - 1, n);
      WithinPass(Advance(c, n, trueStereo, irrecLen), n, trueStereo, irrecLen, k - 1);
    }
  }

  /** A pass that starts at cursor 0 and does not cross its threshold within `q` blocks is at `k * n` after block `k <= q`. */
  lemma RunsUntil(c: Cursor, n: nat, trueStereo: bool, irrecLen: nat, q: nat)
    requires c.state == Run && c.pos == 0 && q * n <= Threshold(c, trueStereo, irrecLen)
    ensures forall k :: 0 <= k <= q ==>
      Iterate(c, n, trueStereo, irrecLen, k) == Cursor(k * n, c.pass, Run, c.total + k * n)
  {
    forall k | 0 <= k <= q
      ensures Iterate(c, n, trueStereo, irrecLen, k) == Cursor(k * n, c.pass, Run, c.total + k * n)
    {
      Arithmetic.MulMonotone(k, q, n);
      WithinPass(c, n, trueStereo, irrecLen, k);
    }
  }

  /** A pass of `q + 1` blocks: `q` blocks stay within the threshold and the next one crosses it. */
  lemma PassOfBlocks(c: Cursor, n: nat, trueStereo: bool, irrecLen: nat, q: nat)
    requires c.state == Run && c.pos == 0
    requires q * n <= Threshold(c, trueStereo, irrecLen) < q * n + n
    ensures forall k :: 0 <= k <= q ==>
      Iterate(c, n, trueStereo, irrecLen, k) == Cursor(k * n, c.pass, Run, c.total + k * n)
    ensures Iterate(c, n, trueStereo, irrecLen, q + 1) ==
      Advance(Cursor(q * n, c.pass, Run, c.total + q * n), n, trueStereo, irrecLen)
  {
    RunsUntil(c, n, trueStereo, irrecLen, q);
    var last := Cursor(q * n, c.pass, Run, c.total + q * n);
    assert Iterate(c, n, trueStereo, irrecLen, q) == last;
    IterateSplit(c, n, trueStereo, irrecLen, q, 1);
    assert Iterate(last, n, trueStereo, irrecLen, 1) == Advance(last, n, trueStereo, irrecLen);
  }

  /**
   * A single-pass session with blocks of `n` samples runs for exactly
   * `irrecLen / n + 1` blocks: before that the cursor is `k * n` and the
   * state is Run, at that block the state becomes Exit.
   */
  lemma SinglePassBlockCount(n: nat, irrecLen: nat, pass: nat)
    requires n > 0
    ensures var start := Cursor(0, pass, Run, 0);
      && (forall k :: 0 <= k <= irrecLen / n ==>
            Iterate(start, n, false, irrecLen, k) == Cursor(k * n, pass, Run, k * n))
      && Iterate(start, n, false, irrecLen, irrecLen / n + 1).state == Exit
  {
    var q := irrecLen / n;
    Arithmetic.DivBounds(irrecLen, n);
    PassOfBlocks(Cursor(0, pass, Run, 0), n, false, irrecLen, q);
    assert Advance(Cursor(q * n, pass, Run, q * n), n, false, irrecLen).state == Exit;
  }

  /** The first true-stereo pass ends in the reset of cursor and pass word, still in Run. */
  lemma FirstPassEnds(n: nat, irrecLen: nat, gap: nat)
    requires n > 0 && gap > 0
    ensures var start := Cursor(0, gap, Run, 0);
      var q := (irrecLen + gap) / n;
      && (forall k :: 0 <= k <= q ==>
            Iterate(start, n, true, irrecLen, k) == Cursor(k * n, gap, Run, k * n))
      && Iterate(start, n, true, irrecLen, q + 1) == Cursor(0, 0, Run, q * n + n)
  {
    Arithmetic.DivBounds(irrecLen + gap, n);
    PassOfBlocks(Cursor(0, gap, Run, 0), n, true, irrecLen, (irrecLen + gap) / n);
  }

  /** The second true-stereo pass (pass word 0) runs `irrecLen / n + 1` blocks and ends in Exit. */
  lemma SecondPassEnds(c: Cursor, n: nat, irrecLen: nat)
    requires n > 0 && c.state == Run && c.pos == 0 && c.pass == 0
    ensures forall k :: 0 <= k <= irrecLen / n ==>
      Iterate(c, n, true, irrecLen, k) == Cursor(k * n, 0, Run, c.total + k * n)
    ensures Iterate(c, n, true, irrecLen, irrecLen / n + 1).state == Exit
  {
    var q := irrecLen / n;
    Arithmetic.DivBounds(irrecLen, n);
    PassOfBlocks(c, n, true, irrecLen, q);
    assert Advance(Cursor(q * n, 0, Run, c.total + q * n), n, true, irrecLen).state == Exit;
  }

  /** A session that enters the second pass at cursor 0 after `first` blocks runs `irrecLen / n + 1` more and ends in Exit. */
  lemma SecondPassAfter(c: Cursor, n: nat, irrecLen: nat, first: nat)
    requires n > 0
    requires var mid := Iterate(c, n, true, irrecLen, first); mid.state == Run && mid.pos == 0 && mid.pass == 0
    ensures var mid := Iterate(c, n, true, irrecLen, first);
      && (forall k :: 0 <= k <= irrecLen / n ==>
            Iterate(c, n, true, irrecLen, first + k) == Cursor(k * n, 0, Run, mid.total + k * n))
      && Iterate(c, n, true, irrecLen, first + irrecLen / n + 1).state == Exit
  {
    var mid := Iterate(c, n, true, irrecLen, first);
    SecondPassEnds(mid, n, irrecLen);
    forall k | 0 <= k <= irrecLen / n
      ensures Iterate(c, n, true, irrecLen, first + k) == Cursor(k * n, 0, Run, mid.total + k * n)
    {
      IterateSplit(c, n, true, irrecLen, first, k);
    }
    IterateSplit(c, n, true, irrecLen, first, irrecLen / n + 1);
  }

  /**
   * A true-stereo session with silence gap `gap > 0`: the first pass runs
   * `(irrecLen + gap) / n + 1` blocks and ends by resetting the cursor and the
   * pass word to 0; the second pass then runs `irrecLen / n + 1` blocks and
   * ends in Exit. No block before that leaves Run.
   */
  lemma TrueStereoBlockCount(n: nat, irrecLen: nat, gap: nat)
    requires n > 0 && gap > 0
    ensures var start := Cursor(0, gap, Run, 0);
      var first := (irrecLen + gap) / n + 1;
      var mid := Iterate(start, n, true, irrecLen, first);
      && (forall k :: 0 <= k < first ==>
            Iterate(start, n, true, irrecLen, k) == Cursor(k * n, gap, Run, k * n))
      && mid.pos == 0 && mid.pass == 0 && mid.state == Run
      && (forall k :: 0 <= k <= irrecLen / n ==>
            Iterate(start, n, true, irrecLen, first + k) == Cursor(k * n, 0, Run, mid.total + k * n))
      && Iterate(start, n, true, irrecLen, first + irrecLen / n + 1).state == Exit
  {
    FirstPassEnds(n, irrecLen, gap);
    SecondPassAfter(Cursor(0, gap, Run, 0), n, irrecLen, (irrecLen + gap) / n + 1);
  }

  /** The largest of the latencies, 0 for none (the `worst_*` accumulators). */
  function Worst(s: seq<nat>): nat
    decreases |s|
  {
    if s == [] then 0
    else
      var w := Worst(s[..|s| - 1]);
      if s[|s| - 1] > w then s[|s| - 1] else w
  }

  /** `Worst` bounds every port latency and is one of them (or 0). */
  lemma {:induction false} WorstIsMaximum(s: seq<nat>)
    ensures forall i :: 0 <= i < |s| ==> s[i] <= Worst(s)
    ensures Worst(s) == 0 || exists i :: 0 <= i < |s| && s[i] == Worst(s)
    decreases |s|
  {
    if s != [] {
      var init := s[..|s| - 1];
      WorstIsMaximum(init);
      assert forall i :: 0 <= i < |init| ==> s[i] == init[i];
    }
  }

  class Scheduler {
    // configuration, fixed before the client is activated
    const nInputs: nat
    const nOutputs: nat
    const trueStereo: bool
    const nIr: nat
    const sweep: array<real>   // `sweep_sin`
    const sweepLen: nat
    const irrecLen: nat
    const ir: array2<real>     // `ir[c][i]` as `ir[c, i]`

    // state shared with the real-time callback
    var procPos: nat
    var procTot: nat
    var trueStereoPass: nat
    var state: ClientState
    var roundtripLatency: nat

    /** The configuration invariants the two capture policies assert. */
    predicate Valid()
    {
      && sweep.Length == sweepLen
      && ir.Length0 == nIr
      && ir.Length1 == sweepLen + irrecLen
      && 1 <= nOutputs <= nInputs <= 2
      && (trueStereo ==> nInputs == 2 && nOutputs == 2 && nIr == 4)
      && (!trueStereo ==> nIr == nInputs)
    }

    function Counters(): Cursor
      reads this
    {
      Cursor(procPos, trueStereoPass, state, procTot)
    }

    /** Does output port `p` carry the sweep in the current pass? */
    predicate Plays(p: nat)
      reads this
    {
      if trueStereo then p == (if trueStereoPass > 0 then 0 else 1) else true
    }

    /** Is IR slot `s` recorded in the current pass? */
    predicate Records(s: nat)
      reads this
    {
      if trueStereo then (s < 2 <==> trueStereoPass > 0) else true
    }

    /** The capture port that feeds IR slot `s`. */
    function SlotInput(s: nat): nat
    {
      if trueStereo then s % 2 else s
    }

    /** The JACK port buffers of one callback: one per port, `nSamples` long, no two the same. */
    predicate PortsOk(nSamples: nat, outputs: seq<array<real>>, inputs: seq<array<real>>)
    {
      && |outputs| == nOutputs
      && |inputs| == nInputs
      && (forall p :: 0 <= p < |outputs| ==> outputs[p].Length == nSamples)
      && (forall p :: 0 <= p < |inputs| ==> inputs[p].Length == nSamples)
      && (forall p, q :: 0 <= p < q < |outputs| ==> outputs[p] != outputs[q])
      && (forall p, q :: 0 <= p < |outputs| && 0 <= q < |inputs| ==> outputs[p] != inputs[q])
      && (forall p :: 0 <= p < |outputs| ==> outputs[p] != sweep)
    }

    /**
     * Set up the session: validated port counts, the sweep, the capture
     * length and (true-stereo only) the silence gap in samples; the capture
     * buffers are allocated zeroed, `sweepLen + irrecLen` samples each.
     */
    constructor (nInputs: nat, nOutputs: nat, trueStereo: bool, sweep: array<real>, irrecLen: nat, silence: nat)
      requires Configuration.ValidatePorts(nInputs, nOutputs, trueStereo).Ok?
      ensures Valid()
      ensures this.nInputs == nInputs && this.nOutputs == nOutputs && this.trueStereo == trueStereo
      ensures this.sweep == sweep && this.irrecLen == irrecLen && sweepLen == sweep.Length
      ensures nIr == Configuration.ValidatePorts(nInputs, nOutputs, trueStereo).value
      ensures fresh(ir)
      ensures forall s, i :: 0 <= s < ir.Length0 && 0 <= i < ir.Length1 ==> ir[s, i] == 0.0
      ensures Counters() == Cursor(0, if trueStereo then silence else 1, Initialize, 0)
      ensures roundtripLatency == 0
    {
      this.nInputs := nInputs;
      this.nOutputs := nOutputs;
      this.trueStereo := trueStereo;
      this.sweep := sweep;
      this.sweepLen := sweep.Length;
      this.irrecLen := irrecLen;
      var n := Configuration.ValidatePorts(nInputs, nOutputs, trueStereo).value;
      this.nIr := n;
      this.ir := new real[n, sweep.Length + irrecLen]((s, i) => 0.0);
      procPos := 0;
      procTot := 0;
      trueStereoPass := if trueStereo then silence else 1;
      state := Initialize;
      roundtripLatency := 0;
    }

    /** The controlling thread starts the capture. */
    method Start()
      modifies this`state
      ensures state == Run
    {
      state := Run;
    }

    /** An x-run forces Abort (the callback returns 0). */
    method JackXrun() returns (rv: int)
      modifies this`state
      ensures state == Abort && rv == 0
    {
      state := Abort;
      rv := 0;
    }

    /** The JACK server went away: Abort. */
    method JackShutdown()
      modifies this`state
      ensures state == Abort
    {
      state := Abort;
    }

    /** SIGHUP or SIGINT: Abort. */
    method CatchSignal()
      modifies this`state
      ensures state == Abort
    {
      state := Abort;
    }

    /**
     * `Start` as the abort setters evidently need it: an abort that arrived
     * while the controlling thread waited is kept, anything else becomes Run.
     */
    method StartUnlessAborted()
      modifies this`state
      ensures old(state) == Abort ==> state == Abort
      ensures old(state) != Abort ==> state == Run
    {
      if state != Abort {
        state := Run;
      }
    }

    /**
     * The handlers are installed before the one-second wait and `Start`
     * follows it unconditionally, so a signal in that second is lost and
     * the capture runs anyway.
     */
    method SignalBeforeStart()
      modifies this`state
      ensures state == Run
    {
      CatchSignal();
      Start();
    }

    /** With the corrected start, the same signal stops the session before any block is captured. */
    method SignalBeforeGuardedStart()
      modifies this`state
      ensures state == Abort
    {
      CatchSignal();
      StartUnlessAborted();
    }

    /**
     * Recompute the round-trip latency from the ports' maximum capture and
     * playback latencies: the worst capture plus the worst playback.
     */
    method GraphOrder(captureMax: seq<nat>, playbackMax: seq<nat>) returns (rv: int)
      requires |captureMax| == nInputs && |playbackMax| == nOutputs
      modifies this`roundtripLatency
      ensures roundtripLatency == Worst(captureMax) + Worst(playbackMax) && rv == 0
    {
      var worstCapture := 0;
      var n := 0;
      while n < |captureMax|
        invariant 0 <= n <= |captureMax|
        invariant worstCapture == Worst(captureMax[..n])
      {
        assert captureMax[..n + 1][..n] == captureMax[..n];
        if captureMax[n] > worstCapture {
          worstCapture := captureMax[n];
        }
        n := n + 1;
      }
      assert captureMax[..n] == captureMax;
      var worstPlayback := 0;
      n := 0;
      while n < |playbackMax|
        invariant 0 <= n <= |playbackMax|
        invariant worstPlayback == Worst(playbackMax[..n])
      {
        assert playbackMax[..n + 1][..n] == playbackMax[..n];
        if playbackMax[n] > worstPlayback {
          worstPlayback := playbackMax[n];
        }
        n := n + 1;
      }
      assert playbackMax[..n] == playbackMax;
      roundtripLatency := worstCapture + worstPlayback;
      rv := 0;
    }

    /**
     * Copy `min(nSamples, sweepLen - procPos)` sweep samples from the cursor
     * into every output port `p` with `Plays(p)`.
     */
    method PlaySweep(nSamples: nat, outputs: seq<array<real>>, inputs: seq<array<real>>)
      requires Valid() && PortsOk(nSamples, outputs, inputs)
      modifies outputs
      ensures forall p, k :: 0 <= p < |outputs| && 0 <= k < nSamples ==>
        outputs[p][k] == (if Plays(p) && procPos + k < sweepLen then sweep[procPos + k] else old(outputs[p][k]))
    {
      if procPos < sweepLen {
        var nPlay := if procPos + nSamples < sweepLen then nSamples else sweepLen - procPos;
        var p := 0;
        while p < nOutputs
          invariant 0 <= p <= nOutputs
          invariant forall q, k :: 0 <= q < p && 0 <= k < nSamples ==>
            outputs[q][k] == (if Plays(q) && k < nPlay then sweep[procPos + k] else old(outputs[q][k]))
          invariant forall q, k :: p <= q < nOutputs && 0 <= k < nSamples ==> outputs[q][k] == old(outputs[q][k])
        {
          if Plays(p) {
            var out := outputs[p];
            forall k | 0 <= k < nPlay {
              out[k] := sweep[procPos + k];
            }
          }
          p := p + 1;
        }
      }
    }

    /**
     * Copy `min(nSamples, irrecLen - procPos)` samples of each capture port
     * into the IR slots recorded in the current pass, at the cursor.
     */
    method RecordInputs(nSamples: nat, outputs: seq<array<real>>, inputs: seq<array<real>>)
      requires Valid() && PortsOk(nSamples, outputs, inputs)
      modifies ir
      ensures forall s, i :: 0 <= s < nIr && 0 <= i < ir.Length1 ==>
        ir[s, i] == (if Records(s) && procPos <= i < irrecLen && i < procPos + nSamples
                     then inputs[SlotInput(s)][i - procPos] else old(ir[s, i]))
    {
      if procPos < irrecLen {
        var nRec := if procPos + nSamples < irrecLen then nSamples else irrecLen - procPos;
        var s := 0;
        while s < nIr
          invariant 0 <= s <= nIr
          invariant forall t, i :: 0 <= t < nIr && 0 <= i < ir.Length1 ==>
            ir[t, i] == (if t < s && Records(t) && procPos <= i < procPos + nRec
                         then inputs[SlotInput(t)][i - procPos] else old(ir[t, i]))
        {
          if Records(s) {
            var inp := inputs[SlotInput(s)];
            forall k | 0 <= k < nRec {
              ir[s, procPos + k] := inp[k];
            }
          }
          s := s + 1;
        }
      }
    }

    /** `process_single_pass`: play, record, advance; Exit once past `irrecLen`. */
    method ProcessSinglePass(nSamples: nat, outputs: seq<array<real>>, inputs: seq<array<real>>)
      requires Valid() && !trueStereo && PortsOk(nSamples, outputs, inputs)
      requires state == Run
      modifies this`procPos, this`state, ir, outputs
      ensures Counters() == Advance(old(Counters()), nSamples, false, irrecLen).(total := procTot)
      ensures procTot == old(procTot)
      ensures forall p, k :: 0 <= p < |outputs| && 0 <= k < nSamples ==>
        outputs[p][k] == (if old(procPos) + k < sweepLen then sweep[old(procPos) + k] else old(outputs[p][k]))
      ensures forall s, i :: 0 <= s < nIr && 0 <= i < ir.Length1 ==>
        ir[s, i] == (if old(procPos) <= i < irrecLen && i < old(procPos) + nSamples
                     then inputs[s][i - old(procPos)] else old(ir[s, i]))
    {
      PlaySweep(nSamples, outputs, inputs);
      RecordInputs(nSamples, outputs, inputs);
      procPos := procPos + nSamples;
      if procPos > irrecLen {
        state := Exit;
      }
    }

    /**
     * `process_multi_pass`: while the pass word is non-zero, port 0 plays and
     * the inputs land in slots 0 and 1; afterwards port 1 plays and they land
     * in slots 2 and 3. Past `irrecLen + pass word` the first pass resets the
     * cursor and clears the pass word, the second sets Exit.
     */
    method ProcessMultiPass(nSamples: nat, outputs: seq<array<real>>, inputs: seq<array<real>>)
      requires Valid() && trueStereo && PortsOk(nSamples, outputs, inputs)
      requires state == Run
      modifies this`procPos, this`state, this`trueStereoPass, ir, outputs
      ensures Counters() == Advance(old(Counters()), nSamples, true, irrecLen).(total := procTot)
      ensures procTot == old(procTot)
      ensures forall p, k :: 0 <= p < |outputs| && 0 <= k < nSamples ==>
        outputs[p][k] == (if p == (if old(trueStereoPass) > 0 then 0 else 1) && old(procPos) + k < sweepLen
                          then sweep[old(procPos) + k] else old(outputs[p][k]))
      ensures forall s, i :: 0 <= s < 4 && 0 <= i < ir.Length1 ==>
        ir[s, i] == (if (s < 2 <==> old(trueStereoPass) > 0) && old(procPos) <= i < irrecLen && i < old(procPos) + nSamples
                     then inputs[s % 2][i - old(procPos)] else old(ir[s, i]))
    {
      var fp := trueStereoPass > 0;
      PlaySweep(nSamples, outputs, inputs);
      RecordInputs(nSamples, outputs, inputs);
      procPos := procPos + nSamples;
      if procPos > irrecLen + trueStereoPass {
        if fp {
          procPos := 0;
          trueStereoPass := 0;
        } else {
          state := Exit;
        }
      }
    }

    /**
     * `jack_process`: silence every output; outside Run stop there;
     * in Run apply the capture policy and count the block in `procTot`.
     */
    method Process(nSamples: nat, outputs: seq<array<real>>, inputs: seq<array<real>>) returns (rv: int)
      requires Valid() && PortsOk(nSamples, outputs, inputs)
      modifies this`procPos, this`procTot, this`trueStereoPass, this`state, ir, outputs
      ensures rv == 0
      ensures Counters() == Advance(old(Counters()), nSamples, trueStereo, irrecLen)
      ensures roundtripLatency == old(roundtripLatency)
      ensures forall p, k :: 0 <= p < |outputs| && 0 <= k < nSamples ==>
        outputs[p][k] == (if old(state) == Run && old(Plays(p)) && old(procPos) + k < sweepLen
                          then sweep[old(procPos) + k] else 0.0)
      ensures forall s, i :: 0 <= s < nIr && 0 <= i < ir.Length1 ==>
        ir[s, i] == (if old(state) == Run && old(Records(s)) && old(procPos) <= i < irrecLen && i < old(procPos) + nSamples
                     then inputs[SlotInput(s)][i - old(procPos)] else old(ir[s, i]))
      // never a capture write at or beyond irrecLen
      ensures forall s, i :: 0 <= s < nIr && irrecLen <= i < ir.Length1 ==> ir[s, i] == old(ir[s, i])
      // outside Run the capture buffers and counters are untouched
      ensures old(state) != Run ==>
        Counters() == old(Counters()) &&
        forall s, i :: 0 <= s < nIr && 0 <= i < ir.Length1 ==> ir[s, i] == old(ir[s, i])
    {
      var p := 0;
      while p < nOutputs
        invariant 0 <= p <= nOutputs
        invariant forall q, k :: 0 <= q < p && 0 <= k < nSamples ==> outputs[q][k] == 0.0
        invariant forall q, k :: p <= q < nOutputs && 0 <= k < nSamples ==> outputs[q][k] == old(outputs[q][k])
        invariant Counters() == old(Counters()) && roundtripLatency == old(roundtripLatency)
        invariant forall s, i :: 0 <= s < nIr && 0 <= i < ir.Length1 ==> ir[s, i] == old(ir[s, i])
      {
        var out := outputs[p];
        forall k | 0 <= k < nSamples {
          out[k] := 0.0;
        }
        p := p + 1;
      }
      rv := 0;
      if state != Run {
        return;
      }
      if trueStereo {
        ProcessMultiPass(nSamples, outputs, inputs);
      } else {
        ProcessSinglePass(nSamples, outputs, inputs);
      }
      procTot := procTot + nSamples;
    }
  }
}
