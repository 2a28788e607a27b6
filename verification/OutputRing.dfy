/**
  * The ring between the executor's fixed blocks and the device's buffers of any size, and the
  * callback that drives it.
  */
module AudioOut {
  import opened Positions

  const RING_BLOCKS: nat := 4

  /** The cell `k` places after cell `pos`. */
  function Wrap(pos: nat, k: nat, cap: nat): (c: int)
    requires pos < cap && k <= cap
  {
    if pos + k < cap then pos + k else pos + k - cap
  }

  /** The cells hold the stream from `read` up to `end`. */
  ghost predicate CellsHold(cells: seq<real>, written: seq<real>, read: nat, end: nat) {
    && |cells| > 0 && read <= end <= |written| && end - read <= |cells|
    && forall k: nat | read <= k < end :: cells[k % |cells|] == written[k]
  }

  /** `now` is `was` with the block laid in from cell `pos`, wrapping once at most. */
  ghost predicate LaidIn(was: seq<real>, now: seq<real>, pos: nat, block: seq<real>) {
    && |was| == |now| && pos < |now| && |block| <= |now|
    && (forall j | 0 <= j < |block| :: now[Wrap(pos, j, |now|)] == block[j])
    && (forall c | 0 <= c < |now| && (if pos <= c then c - pos else c + |now| - pos) >= |block| :: now[c] == was[c])
  }

  /** A block that fits beside the unread samples overwrites none of them. */
  lemma WriteKeeps(was: seq<real>, now: seq<real>, written: seq<real>, read: nat, block: seq<real>)
    requires CellsHold(was, written, read, |written|)
    requires |now| > 0 && LaidIn(was, now, |written| % |now|, block) && |written| - read + |block| <= |now|
    ensures CellsHold(now, written + block, read, |written| + |block|)
  {
    var t, cap := |written|, |now|;
    forall k: nat | read <= k < t + |block| ensures now[k % cap] == (written + block)[k] {
      if k < t {
        Advance(k, t - k, cap);
        assert was[k % cap] == written[k];
      } else {
        Advance(t, k - t, cap);
        assert k % cap == Wrap(t % cap, k - t, cap);
      }
    }
  }

  lemma HeldCell(cells: seq<real>, written: seq<real>, read: nat, end: nat, k: nat)
    requires CellsHold(cells, written, read, end) && read + k < end
    ensures cells[Wrap(read % |cells|, k, |cells|)] == written[read + k]
  {
    Advance(read, k, |cells|);
    assert cells[(read + k) % |cells|] == written[read + k];
  }

  // ── The ring ───────────────────────────────────────────────────────────────

  class OutputRing {
    const buf: array<real>
    const cap: nat
    var writePos: nat
    var readPos: nat
    var totalWritten: nat
    var totalRead: nat
    /** Everything ever written, in order. */
    ghost var written: seq<real>

    constructor (blockSamples: nat, numBlocks: nat)
      ensures cap == blockSamples * numBlocks && fresh(buf)
      ensures written == [] && totalRead == 0 && totalWritten == 0
      ensures cap > 0 ==> Placed() && Intact()
    {
      cap := blockSamples * numBlocks;
      buf := new real[blockSamples * numBlocks](_ => 0.0);
      writePos, readPos, totalWritten, totalRead := 0, 0, 0, 0;
      written := [];
    }

    /** The positions are the totals, wrapped. */
    ghost predicate Placed()
      reads this
    {
      && cap > 0 && buf.Length == cap
      && totalRead <= totalWritten == |written|
      && writePos == totalWritten % cap
      && readPos == totalRead % cap
    }

    /** Everything written and not yet read is still in its cell. */
    ghost predicate Intact()
      requires Placed()
      reads this, buf
    {
      CellsHold(buf[..], written, totalRead, totalWritten)
    }

    function Available(): nat
      requires totalRead <= totalWritten
      reads this`totalRead, this`totalWritten
    {
      totalWritten - totalRead
    }

    method LayIn(block: array<real>)
      requires Placed() && block != buf && block.Length <= cap
      modifies buf
      ensures LaidIn(old(buf[..]), buf[..], writePos, block[..])
    {
      var len := block.Length;
      var end := writePos + len;
      if end <= cap {
        forall i | writePos <= i < end { buf[i] := block[i - writePos]; }
      } else {
        var first := cap - writePos;
        forall i | writePos <= i < cap { buf[i] := block[i - writePos]; }
        forall i | 0 <= i < len - first { buf[i] := block[first + i]; }
      }
    }

    /** Writes wherever it stands; unread data survives when it fits beside the block. */
    method WriteBlock(block: array<real>)
      requires Placed() && block != buf && block.Length <= cap
      modifies this`writePos, this`totalWritten, this`written, buf
      ensures Placed() && written == old(written) + block[..] && totalRead == old(totalRead)
      ensures LaidIn(old(buf[..]), buf[..], old(writePos), block[..])
      ensures old(Intact()) && old(Available()) + block.Length <= cap ==> Intact()
    {
      LayIn(block);
      if old(Intact()) && Available() + block.Length <= cap {
        WriteKeeps(old(buf[..]), buf[..], written, totalRead, block[..]);
      }
      MovedPosition(totalWritten, writePos, block.Length, cap);
      writePos := (writePos + block.Length) % cap;
      totalWritten := totalWritten + block.Length;
      written := written + block[..];
    }

    method CopyOut(out: array<real>, from: nat, n: nat)
      requires Placed() && out != buf && from + n <= out.Length && n <= cap
      modifies out
      ensures forall i | 0 <= i < out.Length ::
        out[i] == if from <= i < from + n then buf[Wrap(readPos, i - from, cap)] else old(out[i])
    {
      var end := readPos + n;
      if end <= cap {
        forall i | 0 <= i < n { out[from + i] := buf[readPos + i]; }
      } else {
        var first := cap - readPos;
        forall i | 0 <= i < first { out[from + i] := buf[readPos + i]; }
        forall i | 0 <= i < n - first { out[from + first + i] := buf[i]; }
      }
    }

    /** Copies what is there, oldest first, into `out[from..]`. */
    method Drain(out: array<real>, from: nat, want: nat) returns (n: nat)
      requires Placed() && Intact() && out != buf && from + want <= out.Length
      modifies this`readPos, this`totalRead, out
      ensures Placed() && Intact()
      ensures n == if want <= old(Available()) then want else old(Available())
      ensures totalRead == old(totalRead) + n && totalWritten == old(totalWritten)
      ensures forall i | 0 <= i < out.Length ::
        out[i] == if from <= i < from + n then written[old(totalRead) + (i - from)] else old(out[i])
    {
      var avail := Available();
      n := if want <= avail then want else avail;
      if n == 0 {
        return;
      }
      CopyOut(out, from, n);
      forall i | from <= i < from + n ensures out[i] == written[totalRead + (i - from)] {
        HeldCell(buf[..], written, totalRead, totalWritten, i - from);
      }
      var next := (readPos + n) % cap;
      assert next == (totalRead + n) % cap by { MovedPosition(totalRead, readPos, n, cap); }
      assert CellsHold(buf[..], written, totalRead + n, totalWritten);
      readPos, totalRead := next, totalRead + n;
    }
  }

  // ── The executor and the callback ──────────────────────────────────────────

  /** An executor renders one block per call; which samples is its own business. */
  class Executor {
    const blockSamples: nat
    const render: nat -> nat -> real
    var rendered: nat

    constructor (blockSamples: nat, render: nat -> nat -> real)
      ensures this.blockSamples == blockSamples && this.render == render && rendered == 0
    {
      this.blockSamples := blockSamples;
      this.render := render;
      rendered := 0;
    }

    method Process(work: array<real>)
      requires work.Length == blockSamples
      modifies this`rendered, work
      ensures rendered == old(rendered) + 1
      ensures forall i | 0 <= i < work.Length :: work[i] == render(old(rendered))(i)
    {
      forall i | 0 <= i < work.Length { work[i] := render(rendered)(i); }
      rendered := rendered + 1;
    }
  }

  /** The k-th sample of all the executor's blocks laid end to end. */
  function Sample(render: nat -> nat -> real, block: nat, k: nat): real
    requires block > 0
  {
    render(k / block)(k % block)
  }

  function Stretch(render: nat -> nat -> real, block: nat, from: nat, n: nat): (r: seq<real>)
    requires block > 0
    ensures |r| == n
  {
    seq(n, i requires 0 <= i < n => Sample(render, block, from + i))
  }

  lemma BlockSamples(render: nat -> nat -> real, block: nat, b: nat, i: nat)
    requires block > 0 && i < block
    ensures Sample(render, block, b * block + i) == render(b)(i)
  {
    ModOf(b, i, block);
  }

  /** The executor's next block continues the stream. */
  lemma NextBlock(render: nat -> nat -> real, block: nat, b: nat, n: nat, cells: seq<real>)
    requires block > 0 && n == b * block && |cells| == block
    requires forall i | 0 <= i < block :: cells[i] == render(b)(i)
    ensures Stretch(render, block, 0, n) + cells == Stretch(render, block, 0, n + block)
    ensures n + block == (b + 1) * block
  {
    forall i | 0 <= i < block ensures cells[i] == Sample(render, block, n + i) {
      BlockSamples(render, block, b, i);
    }
  }

  /** The ring holds exactly a prefix of the executor's stream. */
  ghost predicate Streaming(ring: OutputRing, exec: Executor)
    reads ring, ring.buf, exec
  {
    && exec.blockSamples > 0
    && ring.cap == exec.blockSamples * RING_BLOCKS
    && ring.Placed() && ring.Intact()
    && ring.totalWritten == exec.rendered * exec.blockSamples
    && ring.written == Stretch(exec.render, exec.blockSamples, 0, ring.totalWritten)
    && ring.totalWritten - ring.totalRead < 2 * exec.blockSamples
  }

  method RenderBlock(work: array<real>, ring: OutputRing, exec: Executor)
    requires Streaming(ring, exec) && ring.Available() < exec.blockSamples
    requires work.Length == exec.blockSamples && work != ring.buf
    modifies work, ring`writePos, ring`totalWritten, ring`written, ring.buf, exec`rendered
    ensures Streaming(ring, exec) && ring.totalRead == old(ring.totalRead)
    ensures ring.Available() == old(ring.Available()) + exec.blockSamples
  {
    ghost var b, n := exec.rendered, ring.totalWritten;
    forall i | 0 <= i < work.Length { work[i] := 0.0; }
    exec.Process(work);
    ring.WriteBlock(work);
    NextBlock(exec.render, exec.blockSamples, b, n, work[..]);
  }

  /** Fills the whole device buffer from the stream, wherever the last callback stopped. */
  method AudioCallback(data: array<real>, work: array<real>, ring: OutputRing, exec: Executor)
    requires Streaming(ring, exec)
    requires work.Length == exec.blockSamples && work != ring.buf && data != ring.buf && data != work
    modifies data, work, ring, ring.buf, exec
    ensures Streaming(ring, exec)
    ensures data[..] == Stretch(exec.render, exec.blockSamples, old(ring.totalRead), data.Length)
    ensures ring.totalRead == old(ring.totalRead) + data.Length
  {
    var blockSamples := exec.blockSamples;
    var outPos := 0;
    ghost var r0 := ring.totalRead;
    while outPos < data.Length
      invariant 0 <= outPos <= data.Length
      invariant Streaming(ring, exec) && ring.totalRead == r0 + outPos
      invariant forall i | 0 <= i < outPos :: data[i] == Sample(exec.render, blockSamples, r0 + i)
      decreases data.Length - outPos
    {
      var remaining := data.Length - outPos;
      if ring.Available() < blockSamples {
        RenderBlock(work, ring, exec);
      }
      var chunk := if remaining <= blockSamples then remaining else blockSamples;
      var got := ring.Drain(data, outPos, chunk);
      outPos := outPos + got;
      if got < chunk {
        // The underrun guard, which would pad with silence: a block was just rendered, so it cannot happen.
        assert false;
      }
    }
  }

  // ── Every sequence of callbacks ────────────────────────────────────────────

  function Total(sizes: seq<nat>): nat {
    if sizes == [] then 0 else Total(sizes[..|sizes| - 1]) + sizes[|sizes| - 1]
  }

  /** The buffers handed out for callbacks of these sizes, end to end, starting at sample `from`. */
  function Delivered(render: nat -> nat -> real, block: nat, from: nat, sizes: seq<nat>): seq<real>
    requires block > 0
  {
    if sizes == [] then []
    else
      var before := sizes[..|sizes| - 1];
      Delivered(render, block, from, before) + Stretch(render, block, from + Total(before), sizes[|sizes| - 1])
  }

  /** Laid end to end, the buffers are the executor's stream: nothing lost, repeated or reordered. */
  lemma {:induction false} Gapless(render: nat -> nat -> real, block: nat, from: nat, sizes: seq<nat>)
    requires block > 0
    ensures Delivered(render, block, from, sizes) == Stretch(render, block, from, Total(sizes))
  {
    if sizes == [] {
    } else {
      Gapless(render, block, from, sizes[..|sizes| - 1]);
    }
  }

  /** A run of callbacks on one device, collecting what the device was given. */
  method RunCallbacks(sizes: seq<nat>, work: array<real>, ring: OutputRing,
      exec: Executor) returns (delivered: seq<real>)
    requires Streaming(ring, exec)
    requires work.Length == exec.blockSamples && work != ring.buf
    modifies work, ring, ring.buf, exec
    ensures Streaming(ring, exec)
    ensures delivered == Stretch(exec.render, exec.blockSamples, old(ring.totalRead), Total(sizes))
  {
    delivered := [];
    ghost var r0 := ring.totalRead;
    for n := 0 to |sizes|
      invariant Streaming(ring, exec) && ring.totalRead == r0 + Total(sizes[..n])
      invariant delivered == Delivered(exec.render, exec.blockSamples, r0, sizes[..n])
    {
      var data := new real[sizes[n]];
      AudioCallback(data, work, ring, exec);
      delivered := delivered + data[..];
      assert sizes[..n + 1][..n] == sizes[..n];
    }
    assert sizes[..|sizes|] == sizes;
    Gapless(exec.render, exec.blockSamples, r0, sizes);
  }

  /** A stream begins on an empty ring of four blocks. */
  method StartStream(exec: Executor) returns (ring: OutputRing)
    requires exec.blockSamples > 0 && exec.rendered == 0
    ensures fresh(ring) && fresh(ring.buf) && Streaming(ring, exec)
    ensures ring.buf.Length == 4 * exec.blockSamples && ring.totalRead == 0
  {
    ring := new OutputRing(exec.blockSamples, RING_BLOCKS);
    assert exec.blockSamples * RING_BLOCKS == 4 * exec.blockSamples;
    assert 0 == 0 * exec.blockSamples;
  }
}
