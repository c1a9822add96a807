/**
 * Post-processing of a finished capture: the input peak and the clip gate,
 * deconvolution, peak normalisation, the end trim with its fade-out, and the
 * choice of the window of the IR that is written out.
 *
 * Sample values are reals; the level constants are parameters: the clip level
 * 0.98 (a literal in the source), and the normalisation target of -3 dBFS and
 * the two trim thresholds of -20 and -60 dBFS, which the tool derives with
 * `exp10f`.
 */
module PostProcessing {
  import opened Deconvolution
  import opened CaptureScheduler

  function Abs(x: real): (r: real)
    ensures r >= 0.0 && (r == x || r == -x)
  {
    if x < 0.0 then -x else x
  }

  /** The running maximum as `digital_peak` keeps it: replaced only by a strictly larger value. */
  function Max(acc: real, s: real): (r: real)
    ensures r >= acc && r >= s && (r == acc || r == s)
  {
    if s > acc then s else acc
  }

  /** Every channel row holds at least `nSamples` samples. */
  predicate Shaped(rows: seq<seq<real>>, nSamples: nat)
  {
    forall c :: 0 <= c < |rows| ==> nSamples <= |rows[c]|
  }

  /** The largest magnitude among the first `n` samples of `row`, or 0. */
  function RowPeak(row: seq<real>, n: nat): real
    requires n <= |row|
  {
    if n == 0 then 0.0 else Max(RowPeak(row, n - 1), Abs(row[n - 1]))
  }

  /** The largest magnitude among the first `nSamples` samples of the first `c` channels, or 0. */
  function Peak(rows: seq<seq<real>>, c: nat, nSamples: nat): real
    requires c <= |rows| && Shaped(rows, nSamples)
  {
    if c == 0 then 0.0 else Max(Peak(rows, c - 1, nSamples), RowPeak(rows[c - 1], nSamples))
  }

  /** `p` is the digital peak: no sample is louder, and some sample reaches it unless all are silent. */
  ghost predicate IsPeak(rows: seq<seq<real>>, nSamples: nat, p: real)
    requires Shaped(rows, nSamples)
  {
    && p >= 0.0
    && (forall c, k :: 0 <= c < |rows| && 0 <= k < nSamples ==> Abs(rows[c][k]) <= p)
    && (p == 0.0 || exists c, k :: 0 <= c < |rows| && 0 <= k < nSamples && Abs(rows[c][k]) == p)
  }

  lemma {:induction false} RowPeakIsMax(row: seq<real>, n: nat)
    requires n <= |row|
    ensures RowPeak(row, n) >= 0.0
    ensures forall k :: 0 <= k < n ==> Abs(row[k]) <= RowPeak(row, n)
    ensures RowPeak(row, n) == 0.0 || exists k :: 0 <= k < n && Abs(row[k]) == RowPeak(row, n)
  {
    if n > 0 {
      RowPeakIsMax(row, n - 1);
    }
  }

  /** The scan order of `digital_peak` computes the peak. */
  lemma {:induction false} PeakIsPeak(rows: seq<seq<real>>, c: nat, nSamples: nat)
    requires c <= |rows| && Shaped(rows, nSamples)
    ensures IsPeak(rows[..c], nSamples, Peak(rows, c, nSamples))
  {
    if c > 0 {
      PeakIsPeak(rows, c - 1, nSamples);
      RowPeakIsMax(rows[c - 1], nSamples);
      var p := Peak(rows, c, nSamples);
      if p != 0.0 {
        if p == RowPeak(rows[c - 1], nSamples) {
          var k :| 0 <= k < nSamples && Abs(rows[c - 1][k]) == p;
          assert rows[..c][c - 1][k] == rows[c - 1][k];
        } else {
          var c', k :| 0 <= c' < c - 1 && 0 <= k < nSamples && Abs(rows[..c - 1][c'][k]) == p;
          assert rows[..c][c'][k] == rows[..c - 1][c'][k];
        }
      }
      forall c', k | 0 <= c' < c && 0 <= k < nSamples
        ensures Abs(rows[..c][c'][k]) <= p
      {
        if c' < c - 1 {
          assert rows[..c][c'] == rows[..c - 1][c'];
        }
      }
    }
  }

  /** The peak is determined by the samples: two values that both satisfy `IsPeak` are equal. */
  lemma PeakUnique(rows: seq<seq<real>>, nSamples: nat, p: real, q: real)
    requires Shaped(rows, nSamples)
    requires IsPeak(rows, nSamples, p) && IsPeak(rows, nSamples, q)
    ensures p == q
  {
    if p != 0.0 {
      var c, k :| 0 <= c < |rows| && 0 <= k < nSamples && Abs(rows[c][k]) == p;
      assert p <= q;
    }
    if q != 0.0 {
      var c, k :| 0 <= c < |rows| && 0 <= k < nSamples && Abs(rows[c][k]) == q;
      assert q <= p;
    }
  }

  /** `digital_peak`: the largest sample magnitude over every channel's first `nSamples` samples. */
  method DigitalPeak(data: array2<real>, nSamples: nat) returns (peak: real)
    requires nSamples <= data.Length1
    ensures peak == Peak(Rows(data), data.Length0, nSamples)
    ensures IsPeak(Rows(data), nSamples, peak)
  {
    ghost var rows := Rows(data);
    peak := 0.0;
    var c := 0;
    while c < data.Length0
      invariant 0 <= c <= data.Length0
      invariant peak == Peak(rows, c, nSamples)
    {
      var n := 0;
      while n < nSamples
        invariant 0 <= n <= nSamples
        invariant peak == Max(Peak(rows, c, nSamples), RowPeak(rows[c], n))
      {
        var s := Abs(data[c, n]);
        if s > peak {
          peak := s;
        }
        n := n + 1;
      }
      c := c + 1;
    }
    PeakIsPeak(rows, data.Length0, nSamples);
    assert rows[..data.Length0] == rows;
  }

  /** The rows with the first `nSamples` samples of every channel multiplied by `g`. */
  function Scaled(rows: seq<seq<real>>, nSamples: nat, g: real): (r: seq<seq<real>>)
    ensures |r| == |rows| && forall c :: 0 <= c < |rows| ==> |r[c]| == |rows[c]|
  {
    seq(|rows|, c requires 0 <= c < |rows| =>
      seq(|rows[c]|, k requires 0 <= k < |rows[c]| => if k < nSamples then rows[c][k] * g else rows[c][k]))
  }

  lemma AbsScale(x: real, g: real)
    requires g > 0.0
    ensures Abs(x * g) == Abs(x) * g
  {
    if x < 0.0 {
      assert x * g < 0.0;
    } else {
      assert x * g >= 0.0;
    }
  }

  lemma MulLe(a: real, b: real, g: real)
    requires a <= b && g >= 0.0
    ensures a * g <= b * g
  {
    assert b * g - a * g == (b - a) * g;
  }

  lemma ScaledSample(rows: seq<seq<real>>, nSamples: nat, g: real, c: nat, k: nat)
    requires g > 0.0 && c < |rows| && k < nSamples && k < |rows[c]|
    ensures Abs(Scaled(rows, nSamples, g)[c][k]) == Abs(rows[c][k]) * g
  {
    AbsScale(rows[c][k], g);
  }

  lemma ScaledBound(rows: seq<seq<real>>, nSamples: nat, p: real, g: real, c: nat, k: nat)
    requires g > 0.0 && c < |rows| && k < nSamples && k < |rows[c]| && Abs(rows[c][k]) <= p
    ensures Abs(Scaled(rows, nSamples, g)[c][k]) <= p * g
  {
    ScaledSample(rows, nSamples, g, c, k);
    MulLe(Abs(rows[c][k]), p, g);
  }

  /** A uniform gain `g > 0` scales the peak by `g`. */
  lemma ScaledIsPeak(rows: seq<seq<real>>, nSamples: nat, p: real, g: real)
    requires Shaped(rows, nSamples) && IsPeak(rows, nSamples, p) && g > 0.0
    ensures Shaped(Scaled(rows, nSamples, g), nSamples)
    ensures IsPeak(Scaled(rows, nSamples, g), nSamples, p * g)
  {
    var r := Scaled(rows, nSamples, g);
    forall c, k | 0 <= c < |rows| && 0 <= k < nSamples
      ensures Abs(r[c][k]) <= p * g
    {
      ScaledBound(rows, nSamples, p, g, c, k);
    }
    MulLe(0.0, p, g);
    if p != 0.0 {
      var c, k :| 0 <= c < |rows| && 0 <= k < nSamples && Abs(rows[c][k]) == p;
      ScaledSample(rows, nSamples, g, c, k);
    }
  }

  /** The normalisation gain `target / peak` boosts, and brings the peak exactly to `target`. */
  lemma NormalizationGain(target: real, peak: real, g: real)
    requires 0.0 < peak <= target && g == target / peak
    ensures g >= 1.0 && peak * g == target
  {
  }

  /** Multiply every channel's first `nSamples` samples by `g`, in place. */
  method Scale(data: array2<real>, ghost rows: seq<seq<real>>, nSamples: nat, g: real)
    requires nSamples <= data.Length1
    requires rows == Rows(data)
    modifies data
    ensures forall c, k :: 0 <= c < data.Length0 && 0 <= k < data.Length1 ==>
      data[c, k] == if k < nSamples then rows[c][k] * g else rows[c][k]
  {
    forall c, k | 0 <= c < data.Length0 && 0 <= k < nSamples {
      data[c, k] := data[c, k] * g;
    }
  }

  /** A buffer holding `rows` scaled by `g` reads back as `Scaled(rows, nSamples, g)`. */
  lemma RowsScaled(data: array2<real>, rows: seq<seq<real>>, nSamples: nat, g: real)
    requires |rows| == data.Length0 && forall c :: 0 <= c < |rows| ==> |rows[c]| == data.Length1
    requires forall c, k :: 0 <= c < data.Length0 && 0 <= k < data.Length1 ==>
      data[c, k] == if k < nSamples then rows[c][k] * g else rows[c][k]
    ensures Rows(data) == Scaled(rows, nSamples, g)
  {
    var after := Rows(data);
    var want := Scaled(rows, nSamples, g);
    forall c | 0 <= c < data.Length0
      ensures after[c] == want[c]
    {
      assert |after[c]| == |want[c]|;
      forall k | 0 <= k < data.Length1
        ensures after[c][k] == want[c][k]
      {
        assert after[c][k] == data[c, k];
      }
    }
  }

  /**
   * `normalize_peak`: when the peak is non-zero and at most `target`, scale
   * every sample by one gain so that the peak becomes `target`; otherwise
   * change nothing and report a gain of 1. The gain therefore never attenuates.
   */
  method NormalizePeak(data: array2<real>, nSamples: nat, target: real) returns (g: real)
    requires nSamples <= data.Length1 && target > 0.0
    modifies data
    ensures var p := Peak(old(Rows(data)), data.Length0, nSamples);
      && ((p == 0.0 || p > target) ==> g == 1.0 && Rows(data) == old(Rows(data)))
      && (!(p == 0.0 || p > target) ==> g == target / p && Rows(data) == Scaled(old(Rows(data)), nSamples, g))
    ensures g >= 1.0
    ensures 0.0 < Peak(old(Rows(data)), data.Length0, nSamples) <= target ==> Peak(Rows(data), data.Length0, nSamples) == target
  {
    ghost var rows := Rows(data);
    var peak := DigitalPeak(data, nSamples);
    if peak == 0.0 || peak > target {
      return 1.0;
    }
    g := target / peak;
    NormalizationGain(target, peak, g);
    Scale(data, rows, nSamples, g);
    RowsScaled(data, rows, nSamples, g);
    ghost var scaled := Rows(data);
    ScaledIsPeak(rows, nSamples, peak, g);
    PeakIsPeak(scaled, data.Length0, nSamples);
    assert scaled[..data.Length0] == scaled;
    PeakUnique(scaled, nSamples, Peak(scaled, data.Length0, nSamples), peak * g);
  }

  /** Some of the first `c` channels exceeds `lvl` in magnitude at sample `n`. */
  predicate AnyAbove(rows: seq<seq<real>>, n: nat, lvl: real, c: nat)
    requires c <= |rows| && Shaped(rows, n + 1)
  {
    c > 0 && (AnyAbove(rows, n, lvl, c - 1) || Abs(rows[c - 1][n]) > lvl)
  }

  /** Some sample before `m`, on any channel, exceeded `lvl`: the detector is armed. */
  predicate ArmedBefore(rows: seq<seq<real>>, m: nat, lvl: real)
    requires Shaped(rows, m)
  {
    m > 0 && (ArmedBefore(rows, m - 1, lvl) || AnyAbove(rows, m - 1, lvl, |rows|))
  }

  /**
   * Sample `n` counts as silent: the signal has already exceeded `sigLvl`
   * at some earlier sample, and no channel exceeds `sigMin` at `n`.
   */
  predicate Silent(rows: seq<seq<real>>, n: nat, sigLvl: real, sigMin: real)
    requires Shaped(rows, n + 1)
  {
    ArmedBefore(rows, n, sigLvl) && !AnyAbove(rows, n, sigMin, |rows|)
  }

  /** `n` ends a run of more than `tmeMin` consecutive silent samples: `[n - tmeMin, n]` are all silent. */
  predicate Qualifies(rows: seq<seq<real>>, n: nat, tmeMin: nat, sigLvl: real, sigMin: real)
    requires Shaped(rows, n + 1)
  {
    tmeMin <= n && forall m :: n - tmeMin <= m <= n ==> Silent(rows, m, sigLvl, sigMin)
  }

  lemma {:induction false} AnyAboveMeans(rows: seq<seq<real>>, n: nat, lvl: real, c: nat)
    requires c <= |rows| && Shaped(rows, n + 1)
    ensures AnyAbove(rows, n, lvl, c) <==> exists c' :: 0 <= c' < c && Abs(rows[c'][n]) > lvl
  {
    if c > 0 {
      AnyAboveMeans(rows, n, lvl, c - 1);
    }
  }

  /** Arming is a latch: it happens at the first sample of any channel above `lvl` and never undoes. */
  lemma {:induction false} ArmedMeans(rows: seq<seq<real>>, m: nat, lvl: real)
    requires Shaped(rows, m)
    ensures ArmedBefore(rows, m, lvl) <==> exists j, c :: 0 <= j < m && 0 <= c < |rows| && Abs(rows[c][j]) > lvl
  {
    if m > 0 {
      ArmedMeans(rows, m - 1, lvl);
      AnyAboveMeans(rows, m - 1, lvl, |rows|);
      if ArmedBefore(rows, m, lvl) && !ArmedBefore(rows, m - 1, lvl) {
        var c :| 0 <= c < |rows| && Abs(rows[c][m - 1]) > lvl;
      }
    }
  }

  /**
   * The silence detector of `trim_end`: the first sample `n` at which the
   * count of consecutive silent samples exceeds `tmeMin`, or `nSamples`
   * when there is none.
   */
  method FindCut(data: array2<real>, ghost rows: seq<seq<real>>, nSamples: nat, tmeMin: nat, sigLvl: real, sigMin: real)
    returns (cut: nat)
    requires nSamples <= data.Length1 && nSamples > tmeMin
    requires rows == Rows(data)
    ensures tmeMin <= cut <= nSamples
    ensures cut < nSamples ==> Qualifies(rows, cut, tmeMin, sigLvl, sigMin)
    ensures forall n :: 0 <= n < cut ==> !Qualifies(rows, n, tmeMin, sigLvl, sigMin)
  {
    cut := nSamples;
    var t := 0;
    var init := true;
    var n := 0;
    while n < nSamples
      invariant 0 <= n <= nSamples && cut == nSamples
      invariant init == !ArmedBefore(rows, n, sigLvl)
      invariant t <= n && t <= tmeMin
      invariant forall m :: n - t <= m < n ==> Silent(rows, m, sigLvl, sigMin)
      invariant t < n ==> !Silent(rows, n - 1 - t, sigLvl, sigMin)
      invariant forall m :: 0 <= m < n ==> !Qualifies(rows, m, tmeMin, sigLvl, sigMin)
    {
      var silent := !init;
      var c := 0;
      while c < data.Length0
        invariant 0 <= c <= data.Length0
        invariant init == !(ArmedBefore(rows, n, sigLvl) || AnyAbove(rows, n, sigLvl, c))
        invariant silent == (ArmedBefore(rows, n, sigLvl) && !AnyAbove(rows, n, sigMin, c))
      {
        var s := Abs(data[c, n]);
        if s > sigLvl {
          init := false;
        }
        if s > sigMin {
          silent := false;
        }
        c := c + 1;
      }
      if silent {
        t := t + 1;
        if t > tmeMin {
          cut := n;
          break;
        }
        if t - 1 < n {
          assert !Silent(rows, n - t, sigLvl, sigMin);
        }
      } else {
        t := 0;
      }
      n := n + 1;
    }
  }

  /** The fade-out gain applied `k` samples into a fade of `tmeMin` samples. */
  function FadeGain(k: nat, tmeMin: nat): real
    requires k < tmeMin
  {
    1.0 - (k as real) / (tmeMin as real)
  }

  /** The fade starts at unity and falls, never reaching zero. */
  lemma FadeGainFalls(j: nat, k: nat, tmeMin: nat)
    requires j <= k < tmeMin
    ensures FadeGain(0, tmeMin) == 1.0
    ensures 0.0 < FadeGain(k, tmeMin) <= FadeGain(j, tmeMin) <= 1.0
  {
    var d := tmeMin as real;
    assert (k as real) / d < 1.0 by {
      assert (k as real) < d;
    }
    assert (j as real) / d <= (k as real) / d by {
      assert (k as real) / d - (j as real) / d == ((k - j) as real) / d;
    }
  }

  /** Multiply sample `k` of every channel by `g`, in place. */
  method ScaleColumn(data: array2<real>, k: nat, g: real)
    requires k < data.Length1
    modifies data
    ensures forall c, j :: 0 <= c < data.Length0 && 0 <= j < data.Length1 ==>
      data[c, j] == if j == k then old(data[c, j]) * g else old(data[c, j])
  {
    forall c | 0 <= c < data.Length0 {
      data[c, k] := data[c, k] * g;
    }
  }

  /**
   * `trim_end`: find the cut with the silence detector (`tmeMin` is 50 ms,
   * `rate / 20` samples), fade the `tmeMin` samples before the cut out
   * linearly, and zero every sample from the cut to `nSamples`. Returns the cut.
   */
  method TrimEnd(data: array2<real>, ghost rows: seq<seq<real>>, rate: nat, nSamples: nat, sigLvl: real, sigMin: real)
    returns (cut: nat)
    requires nSamples <= data.Length1 && nSamples > rate / 20
    requires rows == Rows(data)
    modifies data
    ensures rate / 20 <= cut <= nSamples
    ensures cut < nSamples ==> Qualifies(rows, cut, rate / 20, sigLvl, sigMin)
    ensures forall n :: 0 <= n < cut ==> !Qualifies(rows, n, rate / 20, sigLvl, sigMin)
    ensures forall c, k :: 0 <= c < data.Length0 && 0 <= k < data.Length1 && (k < cut - rate / 20 || nSamples <= k) ==>
      data[c, k] == rows[c][k]
    ensures forall c, k :: 0 <= c < data.Length0 && cut - rate / 20 <= k < cut ==>
      data[c, k] == rows[c][k] * FadeGain(k - (cut - rate / 20), rate / 20)
    ensures forall c, k :: 0 <= c < data.Length0 && cut <= k < nSamples ==> data[c, k] == 0.0
  {
    var tmeMin := rate / 20;
    cut := FindCut(data, rows, nSamples, tmeMin, sigLvl, sigMin);
    var off := cut - tmeMin;
    var n := 0;
    while n < tmeMin
      invariant 0 <= n <= tmeMin
      invariant forall c, k :: 0 <= c < data.Length0 && off <= k < off + n ==>
        data[c, k] == rows[c][k] * FadeGain(k - off, tmeMin)
      invariant forall c, k :: 0 <= c < data.Length0 && 0 <= k < data.Length1 && !(off <= k < off + n) ==>
        data[c, k] == rows[c][k]
    {
      ScaleColumn(data, off + n, FadeGain(n, tmeMin));
      n := n + 1;
    }
    forall c, k | 0 <= c < data.Length0 && cut <= k < nSamples {
      data[c, k] := 0.0;
    }
  }

  /**
   * The clip gate in terms of the samples: for a positive clip level, the
   * input peak reaches it exactly when some sample of some channel does.
   */
  lemma ClipGate(rows: seq<seq<real>>, nSamples: nat, clip: real)
    requires Shaped(rows, nSamples) && clip > 0.0
    ensures Peak(rows, |rows|, nSamples) >= clip <==>
      exists c, k :: 0 <= c < |rows| && 0 <= k < nSamples && Abs(rows[c][k]) >= clip
  {
    PeakIsPeak(rows, |rows|, nSamples);
    assert rows[..|rows|] == rows;
  }

  /**
   * The latency by which the written IR is shifted: an explicit `latency`
   * when positive; otherwise the measured round trip less 4 samples of
   * allowance, except that a round trip of 0 to 3 samples is used unchanged.
   */
  function EffectiveLatency(latency: int, roundtrip: nat): (lat: nat)
    ensures latency > 0 ==> lat == latency
    ensures latency <= 0 ==> lat <= roundtrip <= lat + 4
    ensures latency <= 0 && roundtrip > 3 ==> lat + 4 == roundtrip
    ensures latency <= 0 && roundtrip <= 3 ==> lat == roundtrip
  {
    if latency > 0 then latency
    else if roundtrip > 3 then roundtrip - 4
    else roundtrip
  }

  /** The span of samples written to the IR file. */
  datatype Span = NoSpan | Span(start: nat, length: nat)

  /**
   * The write window: nothing when the trimmed IR ends before the sweep
   * length plus latency; otherwise from there up to the trim point, which
   * may be an empty window.
   */
  function OutputWindow(trimmed: nat, sweepLen: nat, lat: nat): (w: Span)
    ensures w.NoSpan? <==> trimmed < sweepLen + lat
    ensures w.Span? ==> w.start == sweepLen + lat && w.start + w.length == trimmed
  {
    if trimmed < sweepLen + lat then NoSpan else Span(sweepLen + lat, trimmed - (sweepLen + lat))
  }

  /** `out` is the engine's output for the blocks of `rows`: sample `k` comes from the feed up to its block. */
  ghost predicate Deconvolved(e: Engine, rows: seq<seq<real>>, nSamples: nat, part: nat, out: seq<seq<real>>)
    requires part > 0
  {
    && |out| == |rows| && (forall c :: 0 <= c < |rows| ==> |out[c]| == |rows[c]|)
    && forall c, k :: 0 <= c < |rows| && 0 <= k < nSamples && k < |rows[c]| ==>
      out[c][k] == e.respond(Fed(rows, nSamples, part, k / part + 1), c, k % part)
  }

  /**
   * `out` is `rows` after `normalize_peak` and `g` the gain it reported:
   * unchanged with gain 1 when the peak is 0 or above `target`, otherwise
   * scaled by `target / peak`.
   */
  ghost predicate NormalizedBy(rows: seq<seq<real>>, nSamples: nat, target: real, g: real, out: seq<seq<real>>)
    requires Shaped(rows, nSamples)
  {
    var p := Peak(rows, |rows|, nSamples);
    && ((p == 0.0 || p > target) ==> g == 1.0 && out == rows)
    && (!(p == 0.0 || p > target) ==> g == target / p && out == Scaled(rows, nSamples, g))
  }

  /** `cut` is the trim point `trim_end` finds in `rows`: the first sample ending a long enough silent run, or `nSamples`. */
  ghost predicate CutAt(rows: seq<seq<real>>, nSamples: nat, tmeMin: nat, sigLvl: real, sigMin: real, cut: nat)
    requires Shaped(rows, nSamples)
  {
    && tmeMin <= cut <= nSamples
    && (cut < nSamples ==> Qualifies(rows, cut, tmeMin, sigLvl, sigMin))
    && forall m :: 0 <= m < cut ==> !Qualifies(rows, m, tmeMin, sigLvl, sigMin)
  }

  /** `data` is `rows` trimmed at `cut`: kept before the fade, faded over `tmeMin` samples, zero up to `nSamples`. */
  ghost predicate TrimmedAt(data: array2<real>, rows: seq<seq<real>>, nSamples: nat, tmeMin: nat, cut: nat)
    reads data
    requires |rows| == data.Length0 && forall c :: 0 <= c < |rows| ==> |rows[c]| == data.Length1
    requires tmeMin <= cut <= data.Length1
  {
    && (forall c, k :: 0 <= c < data.Length0 && 0 <= k < cut - tmeMin ==> data[c, k] == rows[c][k])
    && (forall c, k :: 0 <= c < data.Length0 && cut - tmeMin <= k < cut ==>
          data[c, k] == rows[c][k] * FadeGain(k - (cut - tmeMin), tmeMin))
    && (forall c, k :: 0 <= c < data.Length0 && cut <= k < nSamples && k < data.Length1 ==> data[c, k] == 0.0)
  }

  /**
   * Lines 822-827 of `main`: normalise the deconvolved IR, then trim it.
   * Returns the gain, the trimmed length and (as a ghost) the normalised IR.
   */
  method NormalizeAndTrim(data: array2<real>, ghost rows: seq<seq<real>>, nSamples: nat, rate: nat,
                          target: real, sigLvl: real, sigMin: real)
    returns (g: real, cut: nat, ghost normalized: seq<seq<real>>)
    requires rows == Rows(data) && nSamples <= data.Length1 && nSamples > rate / 20 && target > 0.0
    modifies data
    ensures Shaped(rows, nSamples) && NormalizedBy(rows, nSamples, target, g, normalized) && g >= 1.0
    ensures |normalized| == data.Length0 && (forall c :: 0 <= c < data.Length0 ==> |normalized[c]| == data.Length1)
    ensures Shaped(normalized, nSamples) && CutAt(normalized, nSamples, rate / 20, sigLvl, sigMin, cut)
    ensures cut <= data.Length1 && TrimmedAt(data, normalized, nSamples, rate / 20, cut)
  {
    g := NormalizePeak(data, nSamples, target);
    normalized := Rows(data);
    assert NormalizedBy(rows, nSamples, target, g, normalized);
    cut := TrimEnd(data, normalized, rate, nSamples, sigLvl, sigMin);
    assert CutAt(normalized, nSamples, rate / 20, sigLvl, sigMin, cut);
  }

  /**
   * Lines 817-827 of `main`: deconvolve the capture, then normalise and trim
   * it. A failed engine setup returns its non-zero code with `data` untouched.
   */
  method DeconvolveAndTrim(e: Engine, part: nat, data: array2<real>, nSamples: nat, rate: nat,
                           target: real, sigLvl: real, sigMin: real)
    returns (rv: int, g: real, cut: nat, ghost deconvolved: seq<seq<real>>, ghost normalized: seq<seq<real>>)
    requires part > 0 && nSamples <= data.Length1 && nSamples > rate / 20 && target > 0.0
    modifies data
    ensures rv == 0 <==> SetupOk(e, data.Length0)
    ensures rv != 0 ==> unchanged(data)
    ensures rv == 0 ==>
      && Deconvolved(e, old(Rows(data)), nSamples, part, deconvolved)
      && Shaped(deconvolved, nSamples)
      && NormalizedBy(deconvolved, nSamples, target, g, normalized) && g >= 1.0
      && |normalized| == data.Length0 && (forall c :: 0 <= c < data.Length0 ==> |normalized[c]| == data.Length1)
      && Shaped(normalized, nSamples)
      && CutAt(normalized, nSamples, rate / 20, sigLvl, sigMin, cut)
      && cut <= data.Length1 && TrimmedAt(data, normalized, nSamples, rate / 20, cut)
  {
    ghost var input := Rows(data);
    deconvolved, normalized, g, cut := input, input, 1.0, 0;
    rv := Convolv(e, part, nSamples, data);
    if rv != 0 {
      return;
    }
    deconvolved := Rows(data);
    assert Deconvolved(e, input, nSamples, part, deconvolved);
    g, cut, normalized := NormalizeAndTrim(data, deconvolved, nSamples, rate, target, sigLvl, sigMin);
  }

  /** How post-processing of a capture ends. */
  datatype Outcome =
    | Skipped                                       // the capture did not finish: nothing is done
    | Clipped(peak: real)                           // the input reached the clip level
    | DeconvolutionFailed(rv: int)                  // the engine could not be set up
    | TooShort(gain: real, trimmed: nat, lat: nat)  // the trimmed IR ends before the window starts
    | Written(gain: real, start: nat, length: nat)  // the IR window handed to the file writer

  /**
   * The end of `main`: post-process only after a capture that reached
   * `Exit`; stop at the clip gate or a failed deconvolution; otherwise
   * normalise, trim and select the window of `ir` to write.
   *
   * The ghost results name the intermediate states: `deconvolved` is `ir`
   * after `convolv`, `normalized` is `ir` after `normalize_peak`, and `cut`
   * is the trimmed length that `trim_end` returns.
   */
  method PostProcess(s: Scheduler, e: Engine, part: nat, rate: nat, latency: int,
                     clip: real, target: real, sigLvl: real, sigMin: real)
    returns (o: Outcome, ghost deconvolved: seq<seq<real>>, ghost normalized: seq<seq<real>>, ghost cut: nat)
    requires s.Valid() && part > 0 && target > 0.0
    requires s.state == Exit ==> s.sweepLen + s.irrecLen > rate / 20
    modifies s.ir
    // the gates, in the order `main` applies them
    ensures s.state != Exit ==> o == Skipped
    ensures o.Skipped? || o.Clipped? || o.DeconvolutionFailed? ==> unchanged(s.ir)
    ensures s.state == Exit ==>
      (o.Clipped? <==> Peak(old(Rows(s.ir)), s.nIr, s.sweepLen + s.irrecLen) >= clip)
    ensures o.Clipped? ==> o.peak == Peak(old(Rows(s.ir)), s.nIr, s.sweepLen + s.irrecLen)
    ensures s.state == Exit && Peak(old(Rows(s.ir)), s.nIr, s.sweepLen + s.irrecLen) < clip ==>
      (o.DeconvolutionFailed? <==> !SetupOk(e, s.nIr))
    ensures o.DeconvolutionFailed? ==> o.rv != 0
    ensures o.TooShort? || o.Written? ==>
      s.state == Exit && Peak(old(Rows(s.ir)), s.nIr, s.sweepLen + s.irrecLen) < clip && SetupOk(e, s.nIr)
    // deconvolution, normalisation with the reported gain, trim point and final contents
    ensures o.TooShort? || o.Written? ==>
      && Deconvolved(e, old(Rows(s.ir)), s.sweepLen + s.irrecLen, part, deconvolved)
      && Shaped(deconvolved, s.sweepLen + s.irrecLen)
      && NormalizedBy(deconvolved, s.sweepLen + s.irrecLen, target, o.gain, normalized) && o.gain >= 1.0
      && |normalized| == s.nIr && (forall c :: 0 <= c < s.nIr ==> |normalized[c]| == s.ir.Length1)
      && Shaped(normalized, s.sweepLen + s.irrecLen)
      && CutAt(normalized, s.sweepLen + s.irrecLen, rate / 20, sigLvl, sigMin, cut)
      && cut <= s.ir.Length1 && TrimmedAt(s.ir, normalized, s.sweepLen + s.irrecLen, rate / 20, cut)
    // the window written out
    ensures o.TooShort? ==>
      && o.trimmed == cut && o.lat == EffectiveLatency(latency, s.roundtripLatency)
      && OutputWindow(cut, s.sweepLen, o.lat) == NoSpan
    ensures o.Written? ==> Span(o.start, o.length) == OutputWindow(cut, s.sweepLen, EffectiveLatency(latency, s.roundtripLatency))
  {
    deconvolved, normalized, cut := Rows(s.ir), Rows(s.ir), 0;
    if s.state != Exit {
      return Skipped, deconvolved, normalized, cut;
    }
    var n := s.sweepLen + s.irrecLen;
    var inPeak := DigitalPeak(s.ir, n);
    if inPeak >= clip {
      return Clipped(inPeak), deconvolved, normalized, cut;
    }
    var rv, g, trimmed;
    rv, g, trimmed, deconvolved, normalized := DeconvolveAndTrim(e, part, s.ir, n, rate, target, sigLvl, sigMin);
    if rv != 0 {
      return DeconvolutionFailed(rv), deconvolved, normalized, cut;
    }
    cut := trimmed;
    var lat := EffectiveLatency(latency, s.roundtripLatency);
    match OutputWindow(trimmed, s.sweepLen, lat)
    case NoSpan =>
      o := TooShort(g, trimmed, lat);
    case Span(start, length) =>
      o := Written(g, start, length);
  }
}
