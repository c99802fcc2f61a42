/** The microphone capture accumulator and the speaker write check
    (`lk_capture_audio`, `lk_render_audio`). The I2S hardware set-up is not
    part of this model; the driver's reads and writes are parameters. */
module Media {
  import opened Base

  const EXAMPLE_NUM_CHANNELS: nat := 2
  const EXAMPLE_SAMPLE_RATE: nat := 16000
  /** sizeof(uint16_t) */
  const SAMPLE_BYTES: nat := 2
  /** One 20 ms frame of interleaved stereo 16-bit PCM at 16 kHz, in bytes
      (the C macro's operators, applied left to right). */
  const EXAMPLE_BUFFER_SIZE: nat := EXAMPLE_SAMPLE_RATE * EXAMPLE_NUM_CHANNELS * SAMPLE_BYTES * 20 / 1000
  /** The driver's success code. */
  const ESP_OK: int := 0

  /** Where the driver writes the next read: the source computes the
      destination as an `int16_t` pointer `bytes_captured / 2` samples into
      the buffer, so the byte offset is the counter rounded down to a whole
      sample. */
  function WriteOffset(bytesCaptured: nat): (offset: nat)
    ensures offset <= bytesCaptured < offset + SAMPLE_BYTES
    ensures bytesCaptured % 2 == 0 ==> offset == bytesCaptured
  {
    bytesCaptured / 2 * 2
  }

  /** The frame buffer after the driver stored `read` at WriteOffset(n):
      the bytes before and after the read are left as they were. */
  function Fill(buf: seq<bv8>, n: nat, read: seq<bv8>): (r: seq<bv8>)
    requires WriteOffset(n) + |read| <= |buf|
    ensures |r| == |buf|
    ensures forall i :: 0 <= i < |buf| ==>
      r[i] == if WriteOffset(n) <= i < WriteOffset(n) + |read| then read[i - WriteOffset(n)] else buf[i]
  {
    buf[..WriteOffset(n)] + read + buf[WriteOffset(n) + |read|..]
  }

  /** The bytes of several driver reads, in order. */
  function Concat(chunks: seq<seq<bv8>>): (r: seq<bv8>)
  {
    if chunks == [] then [] else Concat(chunks[..|chunks| - 1]) + chunks[|chunks| - 1]
  }

  /** The frame buffer after a run of reads that starts from an empty
      accumulator (`bytes_captured` == 0) and does not overfill it. */
  function FillAll(buf: seq<bv8>, chunks: seq<seq<bv8>>): (r: seq<bv8>)
    requires |Concat(chunks)| <= |buf|
    ensures |r| == |buf|
  {
    if chunks == [] then buf
    else
      var earlier := chunks[..|chunks| - 1];
      assert Concat(chunks) == Concat(earlier) + chunks[|chunks| - 1];
      Fill(FillAll(buf, earlier), |Concat(earlier)|, chunks[|chunks| - 1])
  }

  /** One read of `last` into a buffer that starts with the whole-sample
      `prefix` and agrees with `buf` after it: the buffer then starts with
      `prefix + last` and still agrees with `buf` after that. */
  lemma FillAppends(before: seq<bv8>, buf: seq<bv8>, prefix: seq<bv8>, last: seq<bv8>)
    requires |before| == |buf| && |prefix| + |last| <= |buf| && |prefix| % 2 == 0
    requires before[..|prefix|] == prefix && before[|prefix|..] == buf[|prefix|..]
    ensures Fill(before, |prefix|, last)[..|prefix| + |last|] == prefix + last
    ensures Fill(before, |prefix|, last)[|prefix| + |last|..] == buf[|prefix| + |last|..]
  {
    var n := |prefix|;
    var after := Fill(before, n, last);
    forall i | 0 <= i < n + |last|
      ensures after[i] == (prefix + last)[i]
    {
      if i < n {
        assert before[..n][i] == prefix[i];
      }
    }
    forall i | n + |last| <= i < |buf|
      ensures after[i] == buf[i]
    {
      assert before[n..][i - n] == buf[n..][i - n];
    }
  }

  /** Reads of whole 16-bit samples land back to back: after any run of them
      the buffer starts with exactly the bytes read, in order, and the rest
      of the buffer is untouched. */
  lemma {:induction false} WholeSampleReadsFillInOrder(buf: seq<bv8>, chunks: seq<seq<bv8>>)
    requires |Concat(chunks)| <= |buf|
    requires forall k :: 0 <= k < |chunks| ==> |chunks[k]| % 2 == 0
    ensures |Concat(chunks)| % 2 == 0
    ensures FillAll(buf, chunks)[..|Concat(chunks)|] == Concat(chunks)
    ensures FillAll(buf, chunks)[|Concat(chunks)|..] == buf[|Concat(chunks)|..]
  {
    if chunks != [] {
      var earlier := chunks[..|chunks| - 1];
      var last := chunks[|chunks| - 1];
      assert Concat(chunks) == Concat(earlier) + last;
      assert forall k :: 0 <= k < |earlier| ==> earlier[k] == chunks[k];
      WholeSampleReadsFillInOrder(buf, earlier);
      FillAppends(FillAll(buf, earlier), buf, Concat(earlier), last);
    }
  }

  /** `lk_render_audio`: the process aborts when the driver reports an error
      or wrote a different number of bytes than it was given. */
  function RenderAudio(bytes: nat, ret: int, written: nat): (s: Status)
    ensures s == Running <==> ret == ESP_OK && written == bytes
    ensures ret != ESP_OK ==> s == Halted("i2s write failed")
  {
    if ret != ESP_OK then Halted("i2s write failed")
    else if written != bytes then Halted("i2s write bytes mismatch")
    else Running
  }

  /** The capture accumulator: `capture_buffer`, viewed as the bytes the
      driver writes, and the static counter `bytes_captured`. */
  class CaptureBuffer {
    const buffer: array<bv8>
    var bytesCaptured: nat

    /** Between calls the counter stays below one frame. */
    ghost predicate Valid()
      reads this
    {
      buffer.Length == EXAMPLE_BUFFER_SIZE && bytesCaptured < EXAMPLE_BUFFER_SIZE
    }

    /** The buffer `lk_init_audio` allocates, with nothing captured yet. */
    constructor ()
      ensures Valid() && fresh(buffer) && bytesCaptured == 0
    {
      buffer := new bv8[EXAMPLE_BUFFER_SIZE];
      bytesCaptured := 0;
    }

    /** `lk_capture_audio`: the driver delivered `read` for a request of the
        rest of the frame (it never delivers more than requested). A short
        read is accumulated and nothing is returned; a read that completes
        the frame returns the whole buffer, reports its size through the
        `bytes` out-pointer when one is given (`bytes` is the pointed-to
        value, None for NULL) and resets the counter. */
    method CaptureAudio(read: seq<bv8>, bytes: Option<nat>) returns (frame: Option<seq<bv8>>, bytesOut: Option<nat>)
      requires Valid()
      requires |read| <= EXAMPLE_BUFFER_SIZE - bytesCaptured
      modifies this`bytesCaptured, buffer
      ensures Valid()
      ensures buffer[..] == Fill(old(buffer[..]), old(bytesCaptured), read)
      ensures old(bytesCaptured) + |read| < EXAMPLE_BUFFER_SIZE ==>
        frame == None && bytesOut == bytes && bytesCaptured == old(bytesCaptured) + |read|
      ensures old(bytesCaptured) + |read| == EXAMPLE_BUFFER_SIZE ==>
        frame == Some(buffer[..]) && |frame.value| == EXAMPLE_BUFFER_SIZE && bytesCaptured == 0
        && bytesOut == (if bytes.Some? then Some(EXAMPLE_BUFFER_SIZE) else None)
    {
      var bytesToRead := EXAMPLE_BUFFER_SIZE - bytesCaptured;
      var offset := WriteOffset(bytesCaptured);
      forall i | 0 <= i < |read| {
        buffer[offset + i] := read[i];
      }
      assert buffer[..] == Fill(old(buffer[..]), old(bytesCaptured), read);
      bytesCaptured := bytesCaptured + |read|;
      if |read| < bytesToRead {
        return None, bytes;
      }
      bytesOut := if bytes.Some? then Some(bytesCaptured) else None;
      bytesCaptured := 0;
      frame := Some(buffer[..]);
    }
  }
}
