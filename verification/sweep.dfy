/**
 * The index structure of `gensweep`: one pass over the sweep writes the
 * forward sweep front to back and its time-reversed inverse back to front.
 *
 * The transcendental parts (the logarithmic frequency law, the sine ramps
 * and the inverse filter's amplitude weighting) are opaque parameters: `tone`
 * gives the un-ramped sweep at a sample, `ramp` the gain of a fade position,
 * and `weight` the inverse filter's amplitude factor at a sample.
 */
module Sweep {

  /** Which gain a sample of the sweep gets. */
  datatype Fade =
    | FadeIn(pos: nat, len: nat)    // the first `nPre` samples: a quarter-sine rise
    | FadeOut(pos: nat, len: nat)   // the last `nEnd` samples, counted from the end: a quarter-sine fall
    | Full                          // in between: unity gain

  /** The fade of sample `i` of an `n`-sample sweep; the rise takes precedence where the two overlap. */
  function FadeAt(i: nat, n: nat, nPre: nat, nEnd: nat): (f: Fade)
    requires i < n
    ensures f.FadeIn? <==> i < nPre
    ensures f.FadeOut? <==> nPre <= i && n - 1 - i < nEnd
    ensures f.FadeIn? ==> f.pos == i && f.pos < f.len
    ensures f.FadeOut? ==> f.pos == n - 1 - i && f.pos < f.len
  {
    if i < nPre then FadeIn(i, nPre)
    else if n - 1 - i < nEnd then FadeOut(n - 1 - i, nEnd)
    else Full
  }

  /** The ramped sweep sample `x` at index `i`, before the output amplitude is applied. */
  function Wave(i: nat, n: nat, nPre: nat, nEnd: nat, tone: nat -> real, ramp: Fade -> real): real
    requires i < n
  {
    (match FadeAt(i, n, nPre, nEnd) case Full => 1.0 case f => ramp(f)) * tone(i)
  }

  /**
   * `gensweep`: allocate both sweeps of `nPre + nSin + nEnd` samples and fill
   * them in one pass, `fwd[i]` from sample `i` and `inv[n - 1 - i]` from the
   * same sample weighted for the inverse filter.
   */
  method GenSweep(nPre: nat, nSin: nat, nEnd: nat, amp: real, tone: nat -> real, ramp: Fade -> real, weight: nat -> real)
    returns (fwd: array<real>, inv: array<real>, n: nat)
    ensures n == nPre + nSin + nEnd
    ensures fresh(fwd) && fresh(inv) && fwd.Length == n && inv.Length == n
    ensures forall i :: 0 <= i < n ==> fwd[i] == Wave(i, n, nPre, nEnd, tone, ramp) * amp
    ensures forall j :: 0 <= j < n ==>
      inv[j] == Wave(n - 1 - j, n, nPre, nEnd, tone, ramp) * weight(n - 1 - j)
  {
    n := nPre + nSin + nEnd;
    fwd := new real[n];
    inv := new real[n];
    var i := 0;
    while i < n
      invariant 0 <= i <= n
      invariant forall k :: 0 <= k < i ==> fwd[k] == Wave(k, n, nPre, nEnd, tone, ramp) * amp
      invariant forall j :: n - i <= j < n ==> inv[j] == Wave(n - 1 - j, n, nPre, nEnd, tone, ramp) * weight(n - 1 - j)
    {
      var j := n - i - 1;
      var x := Wave(i, n, nPre, nEnd, tone, ramp);
      fwd[i] := x * amp;
      inv[j] := x * weight(i);
      i := i + 1;
    }
  }
}
