/**
 * Deconvolution: the capture is run, block by block, through a partitioned
 * convolution engine loaded with the inverse sweep, and each channel's
 * output overwrites its input in place.
 *
 * The engine (zita-convolver's `Convproc`) is a foreign library. It is an
 * opaque collaborator here: the return codes of its setup calls, and a
 * function giving output sample `k` of channel `c` after the engine has been
 * fed a given history of input blocks (so the engine may remember earlier
 * blocks, as a convolution does). Its partition size `MAXPART` is a parameter.
 */
module Deconvolution {
  import Arithmetic

  /** One engine input: per channel, one partition of samples. */
  type Block = seq<seq<real>>

  datatype Engine = Engine(
    configureRv: int,           // Convproc::configure
    createRv: int,              // impdata_create of tap (0,0) from the inverse sweep
    linkRv: nat -> int,         // impdata_link (0,0) -> (c,c)
    startRv: int,               // start_process
    processing: bool,           // state () == ST_PROC after starting
    respond: (seq<Block>, nat, nat) -> real)  // outdata (c)[k] after process () on the blocks fed so far

  /** Every setup step of the engine succeeds for `nChannels` channels. */
  predicate SetupOk(e: Engine, nChannels: nat)
  {
    && e.configureRv == 0
    && e.createRv == 0
    && (forall c :: 1 <= c < nChannels ==> e.linkRv(c) == 0)
    && e.startRv == 0
    && e.processing
  }

  /**
   * The setup protocol: configure, load tap (0,0), link channels 1..n-1
   * diagonally to it, start. The first failure decides the return value.
   */
  method Setup(e: Engine, nChannels: nat) returns (rv: int)
    ensures rv == 0 <==> SetupOk(e, nChannels)
    ensures e.configureRv != 0 ==> rv == e.configureRv
    ensures e.configureRv == 0 && e.createRv != 0 ==> rv == e.createRv
    ensures e.configureRv == 0 && e.createRv == 0 && !SetupOk(e, nChannels) ==> rv == -1
  {
    rv := e.configureRv;
    if rv != 0 {
      return;
    }
    rv := e.createRv;
    if rv != 0 {
      return;
    }
    var c := 1;
    while c < nChannels
      invariant 1 <= c
      invariant forall c' :: 1 <= c' < c && c' < nChannels ==> e.linkRv(c') == 0
    {
      if e.linkRv(c) != 0 {
        return -1;
      }
      c := c + 1;
    }
    if e.startRv != 0 {
      return -1;
    }
    if !e.processing {
      return -1;
    }
    return 0;
  }

  /** The length of block `b` when `nSamples` are cut into partitions of `part`. */
  function BlockLen(nSamples: nat, part: nat, b: nat): nat
  {
    if nSamples <= b * part then 0
    else if nSamples - b * part < part then nSamples - b * part
    else part
  }

  /** The channel rows of a multi-channel buffer, as values. */
  ghost function Rows(data: array2<real>): (rows: seq<seq<real>>)
    reads data
    ensures |rows| == data.Length0
    ensures forall c :: 0 <= c < data.Length0 ==> |rows[c]| == data.Length1
    ensures forall c, k :: 0 <= c < data.Length0 && 0 <= k < data.Length1 ==> rows[c][k] == data[c, k]
  {
    seq(data.Length0, c requires 0 <= c < data.Length0 reads data =>
      seq(data.Length1, k requires 0 <= k < data.Length1 reads data => data[c, k]))
  }

  /** Each channel row from `off`, `n` samples, zero-padded to `part` samples: what the engine is fed. */
  function InputBlock(rows: seq<seq<real>>, off: nat, n: nat, part: nat): Block
  {
    seq(|rows|, c requires 0 <= c < |rows| =>
      seq(part, k requires 0 <= k => if k < n && off + k < |rows[c]| then rows[c][off + k] else 0.0))
  }

  /** The first `b` engine inputs the stepping loop feeds for `nSamples` samples of `rows`. */
  function Fed(rows: seq<seq<real>>, nSamples: nat, part: nat, b: nat): (r: seq<Block>)
    ensures |r| == b
    decreases b
  {
    if b == 0 then []
    else Fed(rows, nSamples, part, b - 1) + [InputBlock(rows, (b - 1) * part, BlockLen(nSamples, part, b - 1), part)]
  }

  /** The sum of the first `b` block lengths. */
  function Covered(nSamples: nat, part: nat, b: nat): nat
    decreases b
  {
    if b == 0 then 0 else Covered(nSamples, part, b - 1) + BlockLen(nSamples, part, b - 1)
  }

  lemma DivMod(b: nat, j: nat, part: nat)
    requires j < part
    ensures (b * part + j) / part == b && (b * part + j) % part == j
  {
    var x := b * part + j;
    var q, r := x / part, x % part;
    assert x == q * part + r;
    if q > b {
      Arithmetic.MulMonotone(b + 1, q, part);
    } else if q < b {
      Arithmetic.MulMonotone(q + 1, b, part);
    }
  }

  /** The number of blocks is `ceil(nSamples / part)`: that many partitions reach `nSamples`, one fewer does not. */
  lemma BlockCount(nSamples: nat, part: nat)
    requires part > 0
    ensures var m := (nSamples + part - 1) / part;
      m * part >= nSamples && (m == 0 || (m - 1) * part < nSamples)
  {
    var m := (nSamples + part - 1) / part;
    var r := (nSamples + part - 1) % part;
    assert nSamples + part - 1 == m * part + r;
    if m > 0 {
      assert (m - 1) * part == m * part - part;
    }
  }

  /**
   * The blocks tile `[0, nSamples)` in order: the first `b` blocks cover
   * `min(b * part, nSamples)` samples, so block `b` starts at `b * part`;
   * every block that starts below `nSamples` is non-empty and at most a
   * partition, full unless it is the last; after `ceil(nSamples / part)`
   * blocks everything is covered and later blocks are empty.
   */
  lemma {:induction false} BlocksCover(nSamples: nat, part: nat, b: nat)
    requires part > 0
    ensures Covered(nSamples, part, b) == if b * part <= nSamples then b * part else nSamples
    ensures b * part < nSamples ==> 0 < BlockLen(nSamples, part, b) <= part
    ensures b * part + part <= nSamples ==> BlockLen(nSamples, part, b) == part
    ensures b >= (nSamples + part - 1) / part ==> BlockLen(nSamples, part, b) == 0 && Covered(nSamples, part, b) == nSamples
    decreases b
  {
    if b > 0 {
      BlocksCover(nSamples, part, b - 1);
      assert b * part == (b - 1) * part + part;
    }
    var m := (nSamples + part - 1) / part;
    if b >= m {
      BlockCount(nSamples, part);
      Arithmetic.MulMonotone(m, b, part);
    }
  }

  /** Gather the engine input at `off`: `n` samples per channel, the rest of the partition zeroed. */
  method ReadBlock(data: array2<real>, ghost rows: seq<seq<real>>, off: nat, n: nat, part: nat) returns (block: Block)
    requires n <= part && off + n <= data.Length1
    requires |rows| == data.Length0
    requires forall c, k :: 0 <= c < data.Length0 && off <= k < data.Length1 ==> k < |rows[c]| && rows[c][k] == data[c, k]
    ensures block == InputBlock(rows, off, n, part)
  {
    block := seq(data.Length0, c requires 0 <= c < data.Length0 reads data =>
      seq(part, k requires 0 <= k reads data => if k < n then data[c, off + k] else 0.0));
    forall c | 0 <= c < data.Length0
      ensures block[c] == InputBlock(rows, off, n, part)[c]
    {
    }
  }

  /** Copy the engine's output for the last block back over the `n` samples at `off`. */
  method WriteBlock(e: Engine, fed: seq<Block>, data: array2<real>, off: nat, n: nat)
    requires off + n <= data.Length1
    modifies data
    ensures forall c, k :: 0 <= c < data.Length0 && 0 <= k < data.Length1 ==>
      data[c, k] == if off <= k < off + n then e.respond(fed, c, k - off) else old(data[c, k])
  {
    forall c, k | 0 <= c < data.Length0 && 0 <= k < n {
      data[c, off + k] := e.respond(fed, c, k);
    }
  }

  /**
   * The samples of block `b`, at `b * part` onward, hold the engine's output
   * for the feed up to block `b`, at their position `k % part` in the block.
   */
  lemma BlockOutput(e: Engine, data: array2<real>, rows: seq<seq<real>>, nSamples: nat, part: nat, b: nat, off: nat, n: nat)
    requires 0 < part && n <= part && off == b * part && off + n <= data.Length1
    requires forall c, k :: 0 <= c < data.Length0 && off <= k < off + n ==>
      data[c, k] == e.respond(Fed(rows, nSamples, part, b + 1), c, k - off)
    ensures forall c, k :: 0 <= c < data.Length0 && off <= k < off + n ==>
      data[c, k] == e.respond(Fed(rows, nSamples, part, k / part + 1), c, k % part)
  {
    forall k | off <= k < off + n
      ensures k / part == b && k % part == k - off
    {
      DivMod(b, k - off, part);
    }
  }

  /**
   * The block-stepping loop of `convolv` once the engine runs: cut
   * `[0, nSamples)` into blocks of at most `part` samples, zero-pad the last,
   * and overwrite each channel's samples with the engine's output for the
   * block that contained them.
   */
  method Stream(e: Engine, part: nat, nSamples: nat, data: array2<real>)
    requires part > 0
    requires nSamples <= data.Length1
    modifies data
    ensures forall c, k :: 0 <= c < data.Length0 && 0 <= k < nSamples ==>
      data[c, k] == e.respond(Fed(old(Rows(data)), nSamples, part, k / part + 1), c, k % part)
    ensures forall c, k :: 0 <= c < data.Length0 && nSamples <= k < data.Length1 ==> data[c, k] == old(data[c, k])
  {
    ghost var rows := Rows(data);
    var off := 0;
    var nRemain := nSamples;
    var fed: seq<Block> := [];
    while nRemain > 0
      invariant 0 <= off <= nSamples && off + nRemain == nSamples
      invariant nRemain > 0 ==> off == |fed| * part
      invariant fed == Fed(rows, nSamples, part, |fed|)
      invariant forall c, k :: 0 <= c < data.Length0 && 0 <= k < off ==>
        data[c, k] == e.respond(Fed(rows, nSamples, part, k / part + 1), c, k % part)
      invariant forall c, k :: 0 <= c < data.Length0 && off <= k < data.Length1 ==> data[c, k] == rows[c][k]
    {
      var n := if nRemain < part then nRemain else part;
      var block := ReadBlock(data, rows, off, n, part);
      assert n == BlockLen(nSamples, part, |fed|);
      ghost var b := |fed|;
      fed := fed + [block];
      WriteBlock(e, fed, data, off, n);
      BlockOutput(e, data, rows, nSamples, part, b, off, n);
      Arithmetic.MulSucc(b, part);
      assert n < part ==> nRemain == n;
      nRemain := nRemain - n;
      off := off + n;
    }
  }

  /**
   * `convolv`: set up the engine; on failure return its code with `data`
   * untouched, otherwise run the stepping loop over `[0, nSamples)`.
   */
  method Convolv(e: Engine, part: nat, nSamples: nat, data: array2<real>) returns (rv: int)
    requires part > 0
    requires nSamples <= data.Length1
    modifies data
    ensures rv == 0 <==> SetupOk(e, data.Length0)
    ensures e.configureRv != 0 ==> rv == e.configureRv
    ensures e.configureRv == 0 && e.createRv != 0 ==> rv == e.createRv
    ensures rv != 0 ==> unchanged(data)
    ensures rv == 0 ==> forall c, k :: 0 <= c < data.Length0 && 0 <= k < nSamples ==>
      data[c, k] == e.respond(Fed(old(Rows(data)), nSamples, part, k / part + 1), c, k % part)
    ensures forall c, k :: 0 <= c < data.Length0 && nSamples <= k < data.Length1 ==> data[c, k] == old(data[c, k])
  {
    rv := Setup(e, data.Length0);
    if rv != 0 {
      return;
    }
    Stream(e, part, nSamples, data);
  }
}
