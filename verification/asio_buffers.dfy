/** The ASIO driver keeps one buffer per channel, the engine one stream of interleaved frames. Bytes are of any
    type T. */
module AsioBuffers {
  import opened Audio
  import opened Frames

  /** The bytes of one channel in the first frame of interleaved data. */
  function SampleOf<T>(data: seq<T>, ch: nat, channels: nat, sample: nat): (r: seq<T>)
    requires ch < channels && sample > 0 && |data| >= Times(channels, sample)
    ensures |r| == sample
  {
    PlaceInFrame(ch, channels, sample);
    data[Times(ch, sample)..Times(ch, sample) + sample]
  }

  /** The bytes of one channel in interleaved data. */
  function Channel<T>(data: seq<T>, ch: nat, channels: nat, sample: nat): (r: seq<T>)
    requires ch < channels && sample > 0
  {
    var frame := Times(channels, sample);
    if |data| < frame then []
    else
      PlaceInFrame(ch, channels, sample);
      SampleOf(data, ch, channels, sample) + Channel(data[frame..], ch, channels, sample)
  }

  lemma {:induction false} PlaceInFrame(ch: nat, channels: nat, sample: nat)
    requires ch < channels && sample > 0
    ensures 0 < Times(ch, sample) + sample <= Times(channels, sample)
  {
    if ch + 1 < channels {
      PlaceInFrame(ch, channels - 1, sample);
      assert Times(channels, sample) == Times(channels - 1, sample) + sample;
    }
  }

  predicate Hold<T>(buffers: seq<Option<seq<T>>>, length: nat) {
    forall c :: 0 <= c < |buffers| && buffers[c].Some? ==> |buffers[c].value| >= length
  }

  /** The sample that channel k adds to a frame; a channel without a buffer keeps what was there before. */
  function SampleOr<T>(buffers: seq<Option<seq<T>>>, before: seq<T>, from: nat, k: nat, sample: nat): (r: seq<T>)
    requires k < |buffers| && from + Times(k, sample) + sample <= |before|
    requires buffers[k].Some? ==> |buffers[k].value| >= sample
    ensures |r| == sample
  {
    match buffers[k]
    case Some(b) => b[..sample]
    case None => before[from + Times(k, sample)..from + Times(k, sample) + sample]
  }

  /** The first k samples of the frame at `from`. */
  function FramePart<T>(buffers: seq<Option<seq<T>>>, before: seq<T>, from: nat, k: nat, sample: nat): (r: seq<T>)
    requires k <= |buffers| && from + Times(k, sample) <= |before|
    requires Hold(buffers, sample)
    ensures |r| == Times(k, sample)
  {
    if k == 0 then []
    else FramePart(buffers, before, from, k - 1, sample) + SampleOr(buffers, before, from, k - 1, sample)
  }

  /** Frame number `frame`. */
  function FrameAt<T>(buffers: seq<Option<seq<T>>>, before: seq<T>, frame: nat, sample: nat): (r: seq<T>)
    requires |before| >= Times(frame + 1, Times(|buffers|, sample)) && Hold(buffers, Times(frame + 1, sample))
    ensures |r| == Times(|buffers|, sample)
  {
    FramePart(Dropped(buffers, Times(frame, sample)), before, Times(frame, Times(|buffers|, sample)), |buffers|, sample)
  }

  /** One frame after the other. */
  function Interleaved<T>(buffers: seq<Option<seq<T>>>, before: seq<T>, frames: nat, sample: nat): (r: seq<T>)
    requires |before| >= Times(frames, Times(|buffers|, sample)) && Hold(buffers, Times(frames, sample))
    ensures |r| == Times(frames, Times(|buffers|, sample))
  {
    if frames == 0 then []
    else Interleaved(buffers, before, frames - 1, sample) + FrameAt(buffers, before, frames - 1, sample)
  }

  lemma FrameCounts(frames: nat, frame: nat, sample: nat)
    requires frames > 0
    ensures Times(frames, frame) == frame + Times(frames - 1, frame) &&
      Times(frames, sample) == sample + Times(frames - 1, sample)
    ensures Times(frames - 1, frame) >= 0 && Times(frames - 1, sample) >= 0
  {
  }

  function Dropped<T>(buffers: seq<Option<seq<T>>>, n: nat): (r: seq<Option<seq<T>>>)
    requires forall c :: 0 <= c < |buffers| && buffers[c].Some? ==> |buffers[c].value| >= n
    ensures |r| == |buffers|
    ensures forall c :: 0 <= c < |r| ==>
      r[c].Some? == buffers[c].Some? && (r[c].Some? ==> r[c].value == buffers[c].value[n..])
  {
    seq(|buffers|, c requires 0 <= c < |buffers| => match buffers[c] case Some(b) => Some(b[n..]) case None => None)
  }

  function Channels<T>(data: seq<T>, channels: nat, sample: nat): (r: seq<Option<seq<T>>>)
    requires sample > 0
    ensures |r| == channels
  {
    seq(channels, c requires 0 <= c < channels => Some(Channel(data, c, channels, sample)))
  }

  lemma {:induction false} ChannelLength<T>(data: seq<T>, ch: nat, channels: nat, sample: nat, frames: nat)
    requires ch < channels && sample > 0 && |data| == Times(frames, Times(channels, sample))
    ensures |Channel(data, ch, channels, sample)| == Times(frames, sample)
    decreases frames
  {
    PlaceInFrame(ch, channels, sample);
    if frames > 0 {
      FrameCounts(frames, Times(channels, sample), sample);
      ChannelLength(data[Times(channels, sample)..], ch, channels, sample, frames - 1);
    }
  }

  /** Where the bytes of a channel come from. */
  lemma {:induction false} ChannelAt<T>(data: seq<T>, ch: nat, channels: nat, sample: nat, frame: nat)
    requires ch < channels && sample > 0 && |data| >= Times(frame + 1, Times(channels, sample))
    ensures |Channel(data, ch, channels, sample)| >= Times(frame + 1, sample)
    ensures Channel(data, ch, channels, sample)[Times(frame, sample)..Times(frame + 1, sample)] ==
            SampleOf(data[Times(frame, Times(channels, sample))..], ch, channels, sample)
    decreases frame
  {
    var size := Times(channels, sample);
    var first := SampleOf(data, ch, channels, sample);
    var rest := Channel(data[size..], ch, channels, sample);
    assert Channel(data, ch, channels, sample) == first + rest;
    if frame > 0 {
      ChannelAt(data[size..], ch, channels, sample, frame - 1);
      assert data[size..][Times(frame - 1, size)..] == data[Times(frame, size)..];
      InTheTail(first, rest, Times(frame - 1, sample), sample);
    } else {
      assert data[0..] == data;
      InTheHead(first, rest, 0, sample);
    }
  }

  /** One sample of a frame put together from its channels. */
  lemma SampleBack<T>(data: seq<T>, channels: nat, sample: nat, frame: nat, ch: nat, before: seq<T>, from: nat)
    requires sample > 0 && ch < channels && |data| >= Times(frame + 1, Times(channels, sample))
    requires from + Times(ch, sample) + sample <= |before| &&
      Hold(Channels(data, channels, sample), Times(frame + 1, sample))
    ensures Times(ch + 1, sample) <= Times(channels, sample)
    ensures SampleOr(Dropped(Channels(data, channels, sample), Times(frame, sample)), before, from, ch, sample) ==
            data[Times(frame, Times(channels, sample))..][Times(ch, sample)..Times(ch + 1, sample)]
  {
    PlaceInFrame(ch, channels, sample);
    ChannelAt(data, ch, channels, sample, frame);
  }

  lemma {:induction false} FrameBack<T>(data: seq<T>, channels: nat, sample: nat, frame: nat, before: seq<T>, from: nat,
                                        k: nat)
    requires sample > 0 && k <= channels && |data| >= Times(frame + 1, Times(channels, sample))
    requires from + Times(k, sample) <= |before| && Hold(Channels(data, channels, sample), Times(frame + 1, sample))
    ensures Times(k, sample) <= Times(channels, sample)
    ensures FramePart(Dropped(Channels(data, channels, sample), Times(frame, sample)), before, from, k, sample) ==
            data[Times(frame, Times(channels, sample))..][..Times(k, sample)]
  {
    if k > 0 {
      FrameBack(data, channels, sample, frame, before, from, k - 1);
      SampleBack(data, channels, sample, frame, k - 1, before, from);
      Pieces(data[Times(frame, Times(channels, sample))..], Times(k - 1, sample), Times(k, sample));
    }
  }

  lemma Pieces<T>(s: seq<T>, a: nat, b: nat)
    requires a <= b <= |s|
    ensures s[..b] == s[..a] + s[a..b]
  {
  }

  lemma {:induction false} ChannelsHold<T>(data: seq<T>, channels: nat, sample: nat, frames: nat)
    requires sample > 0 && |data| == Times(frames, Times(channels, sample))
    ensures Hold(Channels(data, channels, sample), Times(frames, sample))
  {
    forall c | 0 <= c < channels ensures |Channels(data, channels, sample)[c].value| == Times(frames, sample) {
      ChannelLength(data, c, channels, sample, frames);
    }
  }

  lemma {:induction false} FramesBack<T>(data: seq<T>, channels: nat, sample: nat, frames: nat, before: seq<T>)
    requires sample > 0 && |data| >= Times(frames, Times(channels, sample)) &&
      |before| >= Times(frames, Times(channels, sample))
    requires Hold(Channels(data, channels, sample), Times(frames, sample))
    ensures Interleaved(Channels(data, channels, sample), before, frames, sample) ==
      data[..Times(frames, Times(channels, sample))]
  {
    if frames > 0 {
      FramesBack(data, channels, sample, frames - 1, before);
      FrameAtBack(data, channels, sample, frames - 1, before);
      OneMoreFrame(Channels(data, channels, sample), before, frames - 1, sample);
      Pieces(data, Times(frames - 1, Times(channels, sample)), Times(frames, Times(channels, sample)));
    }
  }

  lemma OneMoreFrame<T>(buffers: seq<Option<seq<T>>>, before: seq<T>, frames: nat, sample: nat)
    requires |before| >= Times(frames + 1, Times(|buffers|, sample)) && Hold(buffers, Times(frames + 1, sample))
    ensures Interleaved(buffers, before, frames + 1, sample) ==
            Interleaved(buffers, before, frames, sample) + FrameAt(buffers, before, frames, sample)
  {
  }

  lemma FrameAtBack<T>(data: seq<T>, channels: nat, sample: nat, frame: nat, before: seq<T>)
    requires sample > 0 && |data| >= Times(frame + 1, Times(channels, sample)) &&
      |before| >= Times(frame + 1, Times(channels, sample))
    requires Hold(Channels(data, channels, sample), Times(frame + 1, sample))
    ensures FrameAt(Channels(data, channels, sample), before, frame, sample) ==
            data[Times(frame, Times(channels, sample))..Times(frame + 1, Times(channels, sample))]
  {
    var size := Times(channels, sample);
    var from := Times(frame, size);
    FrameBack(data, channels, sample, frame, before, from, channels);
    RestTaken(data, from, size);
  }

  lemma RestTaken<T>(s: seq<T>, from: nat, n: nat)
    requires from + n <= |s|
    ensures s[from..][..n] == s[from..from + n]
  {
  }

  /** Taking interleaved data apart into channels and interleaving them again gives the data back. */
  lemma {:induction false} InterleaveUndoesDeinterleave<T>(data: seq<T>, channels: nat, sample: nat, frames: nat,
                                                           before: seq<T>)
    requires sample > 0 && |data| == |before| == Times(frames, Times(channels, sample))
    ensures Hold(Channels(data, channels, sample), Times(frames, sample))
    ensures Interleaved(Channels(data, channels, sample), before, frames, sample) == data
  {
    ChannelsHold(data, channels, sample, frames);
    FramesBack(data, channels, sample, frames, before);
  }

  // ---------------------------------------------------------------------------------------------
  // Taking frames apart: the end of the playback callback
  // ---------------------------------------------------------------------------------------------

  /** `was` with `bytes` written over it from position `at`. */
  function Spliced<T>(was: seq<T>, at: nat, bytes: seq<T>): (r: seq<T>)
    requires at + |bytes| <= |was|
    ensures |r| == |was|
  {
    if bytes == [] then was
    else
      var last := |bytes| - 1;
      Spliced(was, at, bytes[..last])[at + last := bytes[last]]
  }

  lemma {:induction false} SplicedParts<T>(was: seq<T>, at: nat, bytes: seq<T>)
    requires at + |bytes| <= |was|
    ensures Spliced(was, at, bytes) == was[..at] + bytes + was[at + |bytes|..]
  {
    if bytes != [] { SplicedParts(was, at, bytes[..|bytes| - 1]); }
  }

  lemma {:induction false} SpliceOne<T>(was: seq<T>, at: nat, source: seq<T>, i: nat)
    requires at + |source| <= |was| && i < |source|
    ensures Spliced(was, at, source[..i])[at + i := source[i]] == Spliced(was, at, source[..i + 1])
  {
    assert source[..i + 1][..i] == source[..i];
  }

  method CopySlice<T>(source: seq<T>, target: array<T>, at: nat)
    requires at + |source| <= target.Length
    modifies target
    ensures target[..] == Spliced(old(target[..]), at, source)
  {
    ghost var was := target[..];
    for i := 0 to |source|
      invariant target[..] == Spliced(was, at, source[..i])
    {
      SpliceOne(was, at, source, i);
      target[at + i] := source[i];
    }
    assert source[..|source|] == source;
  }

  lemma AcrossTheSeam<T>(head: seq<T>, tail: seq<T>, offset: nat, first: nat, count: nat)
    requires offset + first == |head| && first <= count <= first + |tail|
    ensures (head + tail)[offset..offset + count] == head[offset..offset + first] + tail[..count - first]
  {
  }

  lemma SplicedAcross<T>(was: seq<T>, at: nat, head: seq<T>, tail: seq<T>, offset: nat, first: nat, count: nat)
    requires offset + first == |head| && first <= count <= first + |tail| && at + count <= |was|
    ensures Spliced(Spliced(was, at, head[offset..offset + first]), at + first, tail[..count - first])
            == Spliced(was, at, (head + tail)[offset..offset + count])
  {
    AcrossTheSeam(head, tail, offset, first, count);
    SpliceMore(was, at, head[offset..offset + first], tail[..count - first]);
  }

  lemma InTheHead<T>(head: seq<T>, tail: seq<T>, offset: nat, count: nat)
    requires offset + count <= |head|
    ensures (head + tail)[offset..offset + count] == head[offset..offset + count]
  {
  }

  lemma InTheTail<T>(head: seq<T>, tail: seq<T>, offset: nat, count: nat)
    requires offset + count <= |tail|
    ensures (head + tail)[|head| + offset..|head| + offset + count] == tail[offset..offset + count]
  {
  }

  /** A queue is stored in two slices. The copy reads across the seam as if there were one. */
  method CopyFromQueueAtOffset<T>(head: seq<T>, tail: seq<T>, offset: nat, target: array<T>, at: nat, count: nat)
    requires offset + count <= |head| + |tail| && at + count <= target.Length
    modifies target
    ensures target[..] == Spliced(old(target[..]), at, (head + tail)[offset..offset + count])
  {
    if offset < |head| {
      var first := MinNat(|head| - offset, count);
      ghost var was := target[..];
      CopySlice(head[offset..offset + first], target, at);
      if first < count {
        var remaining := count - first;
        CopySlice(tail[..remaining], target, at + first);
        SplicedAcross(was, at, head, tail, offset, first, count);
      } else {
        InTheHead(head, tail, offset, count);
      }
    } else {
      var tailOffset := offset - |head|;
      InTheTail(head, tail, tailOffset, count);
      CopySlice(tail[tailOffset..tailOffset + count], target, at);
    }
  }

  /** Buffers of the driver: any may be missing, no two are the same memory, each holds `length` bytes. */
  ghost predicate Separate<T>(buffers: seq<array?<T>>, length: nat) {
    && (forall c :: 0 <= c < |buffers| && buffers[c] != null ==> buffers[c].Length == length)
    && (forall c, d :: 0 <= c < d < |buffers| && buffers[c] != null ==> buffers[c] != buffers[d])
  }

  ghost function Contents<T>(b: array?<T>): Option<seq<T>>
    reads b
  {
    if b == null then None else Some(b[..])
  }

  ghost function AllContents<T>(buffers: seq<array?<T>>): (r: seq<Option<seq<T>>>)
    reads buffers
    ensures |r| == |buffers|
  {
    seq(|buffers|, c requires 0 <= c < |buffers| reads buffers => Contents(buffers[c]))
  }

  /** One frame: each channel that has a buffer gets its sample. */
  method ScatterFrame<T>(head: seq<T>, tail: seq<T>, offset: nat, buffers: seq<array?<T>>, at: nat, sample: nat,
                         ghost length: nat)
    requires Separate(buffers, length) && at + sample <= length
    requires sample > 0 && offset + Times(|buffers|, sample) <= |head| + |tail|
    modifies buffers
    ensures forall c :: 0 <= c < |buffers| && buffers[c] != null ==>
      buffers[c][..] == Spliced(old(buffers[c][..]), at, SampleOf((head + tail)[offset..], c, |buffers|, sample))
  {
    var from := offset;
    for ch := 0 to |buffers|
      invariant from == offset + Times(ch, sample)
      invariant forall c :: 0 <= c < ch && buffers[c] != null ==>
        buffers[c][..] == Spliced(old(buffers[c][..]), at, SampleOf((head + tail)[offset..], c, |buffers|, sample))
      invariant forall c :: ch <= c < |buffers| && buffers[c] != null ==> buffers[c][..] == old(buffers[c][..])
    {
      PlaceInFrame(ch, |buffers|, sample);
      if buffers[ch] != null {
        CopyFromQueueAtOffset(head, tail, from, buffers[ch], at, sample);
        assert (head + tail)[from..from + sample] == SampleOf((head + tail)[offset..], ch, |buffers|, sample);
      }
      from := from + sample;
    }
  }

  /** The first `frame` frames of a channel are written, the rest of its bytes are still in the data. */
  ghost predicate Scattered<T>(written: seq<T>, frame: nat, data: seq<T>, ch: nat, channels: nat, sample: nat)
    requires ch < channels && sample > 0
  {
    && Times(frame, sample) <= |written| && Times(frame, Times(channels, sample)) <= |data|
    && written[..Times(frame, sample)] + Channel(data[Times(frame, Times(channels, sample))..], ch, channels, sample)
       == Channel(data, ch, channels, sample)
  }

  lemma {:induction false} SampleOfPrefix<T>(a: seq<T>, b: seq<T>, ch: nat, channels: nat, sample: nat)
    requires ch < channels && sample > 0 && Times(channels, sample) <= |a| && a <= b
    ensures SampleOf(a, ch, channels, sample) == SampleOf(b, ch, channels, sample)
  {
    PlaceInFrame(ch, channels, sample);
    assert b[..|a|] == a;
  }

  lemma ScatterOne<T>(was: seq<T>, frame: nat, queue: seq<T>, needed: nat, ch: nat, channels: nat, sample: nat)
    requires ch < channels && sample > 0 && Times(frame + 1, Times(channels, sample)) <= needed <= |queue|
    requires Times(frame + 1, sample) <= |was| && Scattered(was, frame, queue[..needed], ch, channels, sample)
    ensures Times(frame, sample) + sample <= |was|
    ensures Times(frame, Times(channels, sample)) + Times(channels, sample) <= |queue|
    ensures var now := Spliced(was, Times(frame, sample),
                               SampleOf(queue[Times(frame, Times(channels, sample))..], ch, channels, sample));
            Scattered(now, frame + 1, queue[..needed], ch, channels, sample)
  {
    var size, at := Times(channels, sample), Times(frame, sample);
    var from := Times(frame, size);
    FrameCounts(frame + 1, size, sample);
    SampleInQueue(queue, needed, from, ch, channels, sample);
    var piece := SampleOf(queue[from..], ch, channels, sample);
    RestAgain(queue[..needed], from, size);
    SplicedUpTo(was, at, piece);
    Reassociated(was[..at], piece, Channel(queue[..needed][from + size..], ch, channels, sample));
  }

  lemma {:induction false} SampleInQueue<T>(queue: seq<T>, needed: nat, from: nat, ch: nat, channels: nat, sample: nat)
    requires ch < channels && sample > 0 && from + Times(channels, sample) <= needed <= |queue|
    ensures SampleOf(queue[..needed][from..], ch, channels, sample) == SampleOf(queue[from..], ch, channels, sample)
  {
    assert queue[..needed][from..] == queue[from..][..needed - from];
    SampleOfPrefix(queue[..needed][from..], queue[from..], ch, channels, sample);
  }

  lemma RestAgain<T>(s: seq<T>, from: nat, n: nat)
    requires from + n <= |s|
    ensures s[from..][n..] == s[from + n..]
  {
  }

  lemma SplicedUpTo<T>(was: seq<T>, at: nat, bytes: seq<T>)
    requires at + |bytes| <= |was|
    ensures Spliced(was, at, bytes)[..at + |bytes|] == was[..at] + bytes
  {
    SplicedParts(was, at, bytes);
  }

  lemma Reassociated<T>(a: seq<T>, b: seq<T>, c: seq<T>)
    ensures a + (b + c) == a + b + c
  {
  }

  /** Every channel that has a buffer finds its own bytes there, in order. */
  method Deinterleave<T>(head: seq<T>, tail: seq<T>, buffers: seq<array?<T>>, frames: nat, sample: nat)
    requires sample > 0 && Separate(buffers, Times(frames, sample))
    requires Times(frames, Times(|buffers|, sample)) <= |head| + |tail|
    modifies buffers
    ensures forall c :: 0 <= c < |buffers| && buffers[c] != null ==>
      buffers[c][..] == Channel((head + tail)[..Times(frames, Times(|buffers|, sample))], c, |buffers|, sample)
  {
    var size := Times(|buffers|, sample);
    ghost var data := (head + tail)[..Times(frames, size)];
    var offset := 0;
    for frame := 0 to frames
      invariant offset == Times(frame, size)
      invariant forall c :: 0 <= c < |buffers| && buffers[c] != null ==>
        Scattered(buffers[c][..], frame, data, c, |buffers|, sample)
    {
      UpTo(frame + 1, frames, size, sample);
      FrameCounts(frame + 1, size, sample);
      label before:
      ScatterFrame(head, tail, offset, buffers, Times(frame, sample), sample, Times(frames, sample));
      forall c | 0 <= c < |buffers| && buffers[c] != null
        ensures Scattered(buffers[c][..], frame + 1, data, c, |buffers|, sample)
      {
        ScatterOne(old@before(buffers[c][..]), frame, head + tail, Times(frames, size), c, |buffers|, sample);
      }
      offset := offset + size;
    }
    forall c | 0 <= c < |buffers| && buffers[c] != null
      ensures buffers[c][..] == Channel(data, c, |buffers|, sample)
    {
      PlaceInFrame(c, |buffers|, sample);
      assert data[Times(frames, size)..] == [];
      assert buffers[c][..Times(frames, sample)] + [] == buffers[c][..];
    }
  }

  lemma {:induction false} UpTo(frame: nat, frames: nat, size: nat, sample: nat)
    requires frame <= frames
    ensures Times(frame, size) <= Times(frames, size) && Times(frame, sample) <= Times(frames, sample)
    decreases frames
  {
    if frame < frames {
      UpTo(frame, frames - 1, size, sample);
      FrameCounts(frames, size, sample);
    }
  }

  // ---------------------------------------------------------------------------------------------
  // Putting frames together: the capture callback
  // ---------------------------------------------------------------------------------------------

  lemma SpliceMore<T>(was: seq<T>, from: nat, part: seq<T>, more: seq<T>)
    requires from + |part| + |more| <= |was|
    ensures Spliced(Spliced(was, from, part), from + |part|, more) == Spliced(was, from, part + more)
  {
    SplicedParts(was, from, part);
    SplicedParts(Spliced(was, from, part), from + |part|, more);
    SplicedParts(was, from, part + more);
  }

  /** `was` after the first `ch` channels of the frame at `from` have been written. */
  ghost predicate Gathered<T>(now: seq<T>, was: seq<T>, from: nat, cs: seq<Option<seq<T>>>, ch: nat, sample: nat) {
    && ch <= |cs| && Times(ch, sample) <= Times(|cs|, sample) && from + Times(|cs|, sample) <= |was|
    && Hold(cs, sample)
    && now == Spliced(was, from, FramePart(cs, was, from, ch, sample))
  }

  lemma {:induction false} PutGrows<T>(was: seq<T>, from: nat, part: seq<T>, buffer: Option<seq<T>>, sample: nat)
    requires from + |part| + sample <= |was| && (buffer.Some? ==> |buffer.value| >= sample)
    ensures Put(Spliced(was, from, part), from + |part|, buffer, sample) ==
            Spliced(was, from,
              part + (if buffer.Some? then buffer.value[..sample] else was[from + |part|..from + |part| + sample]))
  {
    if buffer.Some? {
      SpliceMore(was, from, part, buffer.value[..sample]);
    } else {
      SplicedParts(was, from, part);
      SplicedParts(was, from, part + was[from + |part|..from + |part| + sample]);
    }
  }

  lemma {:induction false} GatherOne<T>(now: seq<T>, was: seq<T>, from: nat, cs: seq<Option<seq<T>>>, ch: nat,
                                        sample: nat)
    requires sample > 0 && ch < |cs| && Gathered(now, was, from, cs, ch, sample)
    ensures from + Times(ch, sample) + sample <= |was| && |now| == |was|
    ensures Gathered(Put(now, from + Times(ch, sample), cs[ch], sample), was, from, cs, ch + 1, sample)
  {
    PlaceInFrame(ch, |cs|, sample);
    PutGrows(was, from, FramePart(cs, was, from, ch, sample), cs[ch], sample);
  }

  lemma {:induction false} GatheredNone<T>(was: seq<T>, from: nat, cs: seq<Option<seq<T>>>, sample: nat)
    requires from + Times(|cs|, sample) <= |was| && Hold(cs, sample)
    ensures Gathered(was, was, from, cs, 0, sample)
  {
  }

  /** What a buffer of the driver holds from position `at` on. */
  ghost function Rest<T>(b: array?<T>, at: nat): Option<seq<T>>
    reads b
  {
    if b == null || b.Length < at then None else Some(b[at..])
  }

  ghost predicate Shows<T>(cs: seq<Option<seq<T>>>, buffers: seq<array?<T>>, at: nat)
    reads buffers
  {
    |cs| == |buffers| && forall c :: 0 <= c < |buffers| ==> cs[c] == Rest(buffers[c], at)
  }

  /** A sample put in place, if there is one. */
  function Put<T>(now: seq<T>, offset: nat, buffer: Option<seq<T>>, sample: nat): (r: seq<T>)
    requires offset + sample <= |now| && (buffer.Some? ==> |buffer.value| >= sample)
    ensures |r| == |now|
  {
    match buffer
    case Some(b) => Spliced(now, offset, b[..sample])
    case None => now
  }

  method GatherSample<T>(buffer: array?<T>, target: array<T>, offset: nat, at: nat, sample: nat)
    requires target != buffer && offset + sample <= target.Length
    requires buffer != null ==> at + sample <= buffer.Length
    modifies target
    ensures target[..] == Put(old(target[..]), offset, Rest(buffer, at), sample)
  {
    if buffer != null {
      CopySlice(buffer[at..at + sample], target, offset);
      assert buffer[at..][..sample] == buffer[at..at + sample];
    }
  }

  /** The first `ch` samples of a frame, put in place one after the other. */
  function Puts<T>(was: seq<T>, from: nat, cs: seq<Option<seq<T>>>, ch: nat, sample: nat): (r: seq<T>)
    requires sample > 0 && ch <= |cs| && from + Times(|cs|, sample) <= |was| && Hold(cs, sample)
    ensures |r| == |was|
  {
    if ch == 0 then was
    else
      PlaceInFrame(ch - 1, |cs|, sample);
      Put(Puts(was, from, cs, ch - 1, sample), from + Times(ch - 1, sample), cs[ch - 1], sample)
  }

  lemma {:induction false} PutsGather<T>(was: seq<T>, from: nat, cs: seq<Option<seq<T>>>, ch: nat, sample: nat)
    requires sample > 0 && ch <= |cs| && from + Times(|cs|, sample) <= |was| && Hold(cs, sample)
    ensures Gathered(Puts(was, from, cs, ch, sample), was, from, cs, ch, sample)
  {
    GatheredNone(was, from, cs, sample);
    for i := 0 to ch
      invariant Gathered(Puts(was, from, cs, i, sample), was, from, cs, i, sample)
    {
      GatherOne(Puts(was, from, cs, i, sample), was, from, cs, i, sample);
    }
  }

  /** One frame, whose bytes go to position `from`; those of a channel without a buffer stay as they were. */
  method GatherFrame<T>(buffers: seq<array?<T>>, target: array<T>, from: nat, at: nat, sample: nat,
                        ghost cs: seq<Option<seq<T>>>, ghost length: nat)
    requires Separate(buffers, length) && at + sample <= length && target !in buffers
    requires sample > 0 && from + Times(|buffers|, sample) <= target.Length
    requires Shows(cs, buffers, at) && Hold(cs, sample)
    modifies target
    ensures Gathered(target[..], old(target[..]), from, cs, |buffers|, sample)
  {
    ghost var was := target[..];
    var offset := from;
    for ch := 0 to |buffers|
      invariant Shows(cs, buffers, at)
      invariant offset == from + Times(ch, sample)
      invariant target[..] == Puts(was, from, cs, ch, sample)
    {
      PlaceInFrame(ch, |buffers|, sample);
      assert cs[ch] == Rest(buffers[ch], at);
      GatherSample(buffers[ch], target, offset, at, sample);
      offset := offset + sample;
    }
    PutsGather(was, from, cs, |buffers|, sample);
  }

  lemma {:induction false} FrameFits(frame: nat, frames: nat, size: nat)
    requires frame < frames
    ensures Times(frame, size) + size == Times(frame + 1, size) <= Times(frames, size)
    decreases frames
  {
    if frame + 1 < frames { FrameFits(frame, frames - 1, size); }
  }

  /** The first `frame` frames are written, the bytes after them are as before. */
  ghost predicate Interleaving<T>(written: seq<T>, cs: seq<Option<seq<T>>>, before: seq<T>, frame: nat, sample: nat) {
    var done := Times(frame, Times(|cs|, sample));
    && |written| == |before| && done <= |written| && Hold(cs, Times(frame, sample))
    && written == Interleaved(cs, before, frame, sample) + before[done..]
  }

  /** A frame only shows what was there before from its own beginning on. */
  lemma {:induction false} FramePartSame<T>(cs: seq<Option<seq<T>>>, a: seq<T>, b: seq<T>, from: nat, k: nat,
                                            sample: nat)
    requires k <= |cs| && Hold(cs, sample) && |a| == |b| && from + Times(k, sample) <= |a| && a[from..] == b[from..]
    ensures FramePart(cs, a, from, k, sample) == FramePart(cs, b, from, k, sample)
  {
    if k > 0 {
      FramePartSame(cs, a, b, from, k - 1, sample);
      SampleOrSame(cs, a, b, from, k - 1, sample);
    }
  }

  lemma {:induction false} SampleOrSame<T>(cs: seq<Option<seq<T>>>, a: seq<T>, b: seq<T>, from: nat, k: nat,
                                           sample: nat)
    requires k < |cs| && Hold(cs, sample) && |a| == |b| && from + Times(k, sample) + sample <= |a| &&
      a[from..] == b[from..]
    ensures SampleOr(cs, a, from, k, sample) == SampleOr(cs, b, from, k, sample)
  {
    RestTakenAt(a, from, Times(k, sample), sample);
    RestTakenAt(b, from, Times(k, sample), sample);
  }

  lemma RestTakenAt<T>(s: seq<T>, from: nat, at: nat, n: nat)
    requires from + at + n <= |s|
    ensures s[from..][at..at + n] == s[from + at..from + at + n]
  {
  }

  lemma InterleaveOne<T>(written: seq<T>, now: seq<T>, cs: seq<Option<seq<T>>>, before: seq<T>, frame: nat, sample: nat)
    requires Interleaving(written, cs, before, frame, sample) && |before| >= Times(frame + 1, Times(|cs|, sample))
    requires Hold(cs, Times(frame + 1, sample))
    requires Gathered(now, written, Times(frame, Times(|cs|, sample)), Dropped(cs, Times(frame, sample)), |cs|, sample)
    ensures Interleaving(now, cs, before, frame + 1, sample)
  {
    var from := Times(frame, Times(|cs|, sample));
    FramePartSame(Dropped(cs, Times(frame, sample)), written, before, from, |cs|, sample);
    SplicedParts(written, from, FrameAt(cs, before, frame, sample));
  }

  method InterleaveNext<T>(buffers: seq<array?<T>>, target: array<T>, frame: nat, sample: nat,
                           ghost cs: seq<Option<seq<T>>>, ghost before: seq<T>, ghost length: nat)
    requires sample > 0 && Separate(buffers, length) && target !in buffers && Times(frame + 1, sample) <= length
    requires cs == AllContents(buffers) && |before| >= Times(frame + 1, Times(|cs|, sample))
    requires Interleaving(target[..], cs, before, frame, sample)
    modifies target
    ensures Interleaving(target[..], cs, before, frame + 1, sample)
  {
    ghost var written := target[..];
    var from, at := Times(frame, Times(|buffers|, sample)), Times(frame, sample);
    GatherFrame(buffers, target, from, at, sample, Dropped(cs, at), length);
    InterleaveOne(written, target[..], cs, before, frame, sample);
  }

  /** The frames of all channels, one after the other. Where a channel has no buffer the old bytes stay. */
  method Interleave<T>(buffers: seq<array?<T>>, target: array<T>, frames: nat, sample: nat)
    requires sample > 0 && Separate(buffers, Times(frames, sample)) && target !in buffers
    requires target.Length == Times(frames, Times(|buffers|, sample))
    modifies target
    ensures Hold(AllContents(buffers), Times(frames, sample))
    ensures target[..] == Interleaved(AllContents(buffers), old(target[..]), frames, sample)
  {
    ghost var cs := AllContents(buffers);
    ghost var before := target[..];
    for frame := 0 to frames
      invariant cs == AllContents(buffers)
      invariant Interleaving(target[..], cs, before, frame, sample)
    {
      FrameFits(frame, frames, Times(|buffers|, sample));
      FrameFits(frame, frames, sample);
      InterleaveNext(buffers, target, frame, sample, cs, before, Times(frames, sample));
    }
  }
}
