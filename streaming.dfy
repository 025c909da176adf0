/**
 * audio_stream.py: AudioStreamer plays a pre-loaded buffer of int16 samples in frames.
 * Each callback slices the next frame from the buffer, advances the cursor, runs the
 * frame through the equalizer, queues the result for saving and returns it. The
 * equalizer (apply_equalizer followed by astype(int16)) is the abstract
 * length-preserving parameter equalize.
 */
module Streaming {
  import opened Backend
  import RecordingConfig
  import AudioConfig

  /** The queue of processed frames kept for saving: frames are only ever appended. */
  class FrameQueue {
    var frames: seq<seq<int>>

    constructor()
      ensures frames == []
    {
      frames := [];
    }

    method Add(frame: seq<int>)
      modifies this
      ensures frames == old(frames) + [frame]
    {
      frames := frames + [frame];
    }
  }

  /** int(bit_depth / 8): true division, then truncation toward zero. */
  function ByteDepth(bitDepth: int): (r: int)
    ensures bitDepth >= 0 ==> 0 <= r * 8 <= bitDepth < r * 8 + 8
    ensures bitDepth < 0 ==> r * 8 - 8 < bitDepth <= r * 8 <= 0
  {
    if bitDepth >= 0 then bitDepth / 8 else -((-bitDepth) / 8)
  }

  /** Both bit depths the recording settings accept are whole bytes: 16 is 2 bytes, 24 is 3. */
  lemma ByteDepthOfValid(bitDepth: int)
    requires RecordingConfig.ValidBitDepth(bitDepth)
    ensures ByteDepth(bitDepth) * 8 == bitDepth
    ensures ByteDepth(16) == 2 && ByteDepth(24) == 3
  {
  }

  /** The end of the next frame: frame_count samples per channel on from start, cut at the end of the buffer. */
  function NextCursor(start: nat, frameCount: nat, channels: nat, length: nat): (end: nat)
    requires start <= length
    ensures start <= end <= length
    ensures end == length || end - start == frameCount * channels
    ensures end < start + frameCount * channels ==> end == length
  {
    var end := start + frameCount * channels;
    if end > length then length else end
  }

  function Sum(counts: seq<nat>): nat {
    if |counts| == 0 then 0 else Sum(counts[..|counts| - 1]) + counts[|counts| - 1]
  }

  /** The cursor after one callback per frame count, from a fresh streamer. */
  function CursorAfter(counts: seq<nat>, channels: nat, length: nat): (c: nat)
    ensures c <= length
  {
    if |counts| == 0 then 0
    else NextCursor(CursorAfter(counts[..|counts| - 1], channels, length), counts[|counts| - 1], channels, length)
  }

  /** The cursor is where an unbounded walk would be, cut at the end of the buffer. */
  lemma {:induction false} CursorAfterClosedForm(counts: seq<nat>, channels: nat, length: nat)
    ensures CursorAfter(counts, channels, length) == Min(Sum(counts) * channels, length)
  {
    if |counts| > 0 {
      var prefix := counts[..|counts| - 1];
      var last := counts[|counts| - 1];
      CursorAfterClosedForm(prefix, channels, length);
      var before := Sum(prefix) * channels;
      var step := last * channels;
      assert Sum(counts) * channels == before + step by {
        assert Sum(counts) == Sum(prefix) + last;
      }
      assert CursorAfter(counts, channels, length) == NextCursor(Min(before, length), last, channels, length);
    }
  }

  function Min(a: int, b: int): int {
    if a <= b then a else b
  }

  /** The cursor never moves back. */
  lemma {:induction false} CursorMonotone(counts: seq<nat>, more: seq<nat>, channels: nat, length: nat)
    ensures CursorAfter(counts, channels, length) <= CursorAfter(counts + more, channels, length)
    decreases |more|
  {
    if |more| == 0 {
      assert counts + more == counts;
    } else {
      var all := counts + more;
      assert all[..|all| - 1] == counts + more[..|more| - 1];
      CursorMonotone(counts, more[..|more| - 1], channels, length);
      assert CursorAfter(all[..|all| - 1], channels, length) <= CursorAfter(all, channels, length);
    }
  }

  /** The [start, end) range each callback serves, in call order. */
  function Ranges(counts: seq<nat>, channels: nat, length: nat): (rs: seq<(nat, nat)>)
    ensures |rs| == |counts|
  {
    if |counts| == 0 then []
    else
      var prefix := counts[..|counts| - 1];
      var start := CursorAfter(prefix, channels, length);
      Ranges(prefix, channels, length) + [(start, NextCursor(start, counts[|counts| - 1], channels, length))]
  }

  /** A 1000-sample mono buffer in frames of 300: three full frames, a short one, then empty ones. */
  lemma ThousandInFramesOfThree()
    ensures Ranges([300, 300, 300, 300, 300], 1, 1000)
         == [(0, 300), (300, 600), (600, 900), (900, 1000), (1000, 1000)]
  {
    var c: seq<nat> := [300, 300, 300, 300, 300];
    assert c[..1][..0] == [];
    assert Ranges(c[..1], 1, 1000) == [(0, 300)];
    assert c[..2][..1] == c[..1];
    assert CursorAfter(c[..1], 1, 1000) == 300;
    assert Ranges(c[..2], 1, 1000) == [(0, 300), (300, 600)];
    assert c[..3][..2] == c[..2];
    assert CursorAfter(c[..2], 1, 1000) == 600;
    assert Ranges(c[..3], 1, 1000) == [(0, 300), (300, 600), (600, 900)];
    assert c[..4][..3] == c[..3];
    assert CursorAfter(c[..3], 1, 1000) == 900;
    assert Ranges(c[..4], 1, 1000) == [(0, 300), (300, 600), (600, 900), (900, 1000)];
    assert c[..4] == c[..|c| - 1];
    assert CursorAfter(c[..4], 1, 1000) == 1000;
  }

  function Flatten(frames: seq<seq<int>>): seq<int> {
    if |frames| == 0 then [] else Flatten(frames[..|frames| - 1]) + frames[|frames| - 1]
  }

  /** Every sequence the equalizer is given comes back as long as it went in. */
  ghost predicate LengthPreserving(equalize: seq<int> -> seq<int>) {
    forall s :: |equalize(s)| == |s|
  }

  class AudioStreamer {
    const rate: int
    const frameSize: int
    const audioFile: string
    const filePath: string
    const fullAudio: seq<int>
    const channels: nat
    const bitDepth: int
    const byteDepth: int
    const equalize: seq<int> -> seq<int>
    const queue: FrameQueue
    const recSet: RecordingConfig.RecordingSettings
    const audioSet: AudioConfig.AudioSettings
    var frameStartIndex: nat
    /** The raw slices served so far, in call order. */
    ghost var served: seq<seq<int>>

    /** The cursor is inside the buffer, and the slices served so far are exactly the buffer up to it. */
    ghost predicate Valid()
      reads this
    {
      LengthPreserving(equalize) &&
      frameStartIndex <= |fullAudio| &&
      Flatten(served) == fullAudio[..frameStartIndex]
    }

    /**
     * __init__: the cursor starts at 0 and the settings are copied. The sample buffer,
     * frame size, channel count and queue are parameters, since the recording settings
     * do not define them.
     */
    constructor(recSet: RecordingConfig.RecordingSettings, audioSet: AudioConfig.AudioSettings,
                fullAudio: seq<int>, channels: nat, frameSize: int, queue: FrameQueue,
                equalize: seq<int> -> seq<int>)
      requires LengthPreserving(equalize)
      ensures Valid() && frameStartIndex == 0 && served == []
      ensures this.recSet == recSet && this.audioSet == audioSet && this.queue == queue
      ensures this.fullAudio == fullAudio && this.channels == channels && this.frameSize == frameSize
      ensures rate == recSet.samplingFreq && bitDepth == recSet.bitDepth && byteDepth == ByteDepth(recSet.bitDepth)
      ensures audioFile == recSet.fileName && filePath == recSet.FullPathName()
    {
      this.recSet := recSet;
      this.audioSet := audioSet;
      frameStartIndex := 0;
      rate := recSet.samplingFreq;
      this.frameSize := frameSize;
      audioFile := recSet.fileName;
      filePath := recSet.FullPathName();
      this.fullAudio := fullAudio;
      this.channels := channels;
      bitDepth := recSet.bitDepth;
      byteDepth := ByteDepth(recSet.bitDepth);
      this.equalize := equalize;
      this.queue := queue;
      served := [];
    }

    /**
     * callback: serves fullAudio[start:end] with end as NextCursor gives it, moves the
     * cursor to end, queues the equalized frame and returns it. At the end of the buffer
     * the frame is empty and the cursor stays, and the stream is still told to continue.
     */
    method Callback(frameCount: nat) returns (out: seq<int>, signal: StreamSignal)
      requires Valid()
      modifies this, queue
      ensures Valid()
      ensures frameStartIndex == NextCursor(old(frameStartIndex), frameCount, channels, |fullAudio|)
      ensures served == old(served) + [fullAudio[old(frameStartIndex)..frameStartIndex]]
      ensures out == equalize(fullAudio[old(frameStartIndex)..frameStartIndex])
      ensures |out| == frameStartIndex - old(frameStartIndex)
      ensures queue.frames == old(queue.frames) + [out]
      ensures signal == Continue
    {
      var length := |fullAudio|;
      var start := frameStartIndex;
      var end := start + frameCount * channels;
      if end > length {
        end := length;
      }
      var frame := fullAudio[start..end];
      frameStartIndex := end;
      served := served + [frame];
      assert fullAudio[..end] == fullAudio[..start] + frame;
      out := equalize(frame);
      queue.Add(out);
      signal := Continue;
    }
  }

  /** Once the cursor is at the end of the buffer, a callback serves nothing and leaves the cursor there. */
  lemma AtEndServesNothing(start: nat, frameCount: nat, channels: nat, length: nat)
    requires start == length
    ensures NextCursor(start, frameCount, channels, length) == start
  {
  }

  /** The ranges tile the buffer from 0: each one starts where the one before ended, and the last ends at the cursor. */
  lemma {:induction false} RangesContiguous(counts: seq<nat>, channels: nat, length: nat)
    ensures var rs := Ranges(counts, channels, length);
            (|rs| > 0 ==> rs[0].0 == 0 && rs[|rs| - 1].1 == CursorAfter(counts, channels, length)) &&
            (forall i :: 0 <= i < |rs| ==> rs[i].0 <= rs[i].1 <= length) &&
            (forall i :: 0 < i < |rs| ==> rs[i - 1].1 == rs[i].0)
  {
    if |counts| > 0 {
      var prefix := counts[..|counts| - 1];
      RangesContiguous(prefix, channels, length);
      var rs := Ranges(counts, channels, length);
      var ps := Ranges(prefix, channels, length);
      assert rs[..|ps|] == ps;
      if |prefix| == 0 {
        assert rs[0].0 == CursorAfter([], channels, length) == 0;
      }
    }
  }
}
