/** Where each byte goes, in plain numbers: byte b of sample n of a channel. */
module AsioBytes {
  import opened Audio
  import opened Frames
  import opened AsioBuffers

  lemma {:induction false} Placed(n: nat, channels: nat, ch: nat, sample: nat)
    ensures (n * channels + ch) * sample == Times(n, Times(channels, sample)) + Times(ch, sample)
  {
    TimesIsProduct(n, Times(channels, sample));
    TimesIsProduct(channels, sample);
    TimesIsProduct(ch, sample);
    Distributed(n, channels, ch, sample);
  }

  lemma Distributed(n: int, channels: int, ch: int, sample: int)
    ensures (n * channels + ch) * sample == n * (channels * sample) + ch * sample
  {
  }

  lemma SlicedTwice<T>(s: seq<T>, i: nat, j: nat, b: nat)
    requires i + j + b < |s|
    ensures s[i..][j + b] == s[i + j + b]
  {
  }

  /** Taking frames apart: sample n of channel ch is where frame n has its part for the channel. */
  lemma {:induction false} ByteOfChannel<T>(data: seq<T>, channels: nat, sample: nat, ch: nat, n: nat, b: nat,
                                            from: nat, to: nat)
    requires sample > 0 && ch < channels && b < sample && (n + 1) * (channels * sample) <= |data|
    requires from == (n * channels + ch) * sample + b && to == n * sample + b
    ensures to < |Channel(data, ch, channels, sample)| && from < |data|
    ensures Channel(data, ch, channels, sample)[to] == data[from]
  {
    TimesIsProduct(n + 1, Times(channels, sample));
    TimesIsProduct(channels, sample);
    TimesIsProduct(n, sample);
    Placed(n, channels, ch, sample);
    ByteInChannel(data, channels, sample, ch, n, b);
  }

  lemma {:induction false} ByteInChannel<T>(data: seq<T>, channels: nat, sample: nat, ch: nat, n: nat, b: nat)
    requires sample > 0 && ch < channels && b < sample && Times(n + 1, Times(channels, sample)) <= |data|
    ensures Times(n, sample) + b < |Channel(data, ch, channels, sample)|
    ensures Times(n, Times(channels, sample)) + Times(ch, sample) + b < |data|
    ensures Channel(data, ch, channels, sample)[Times(n, sample) + b] ==
            data[Times(n, Times(channels, sample)) + Times(ch, sample) + b]
  {
    TimesIsProduct(n, sample);
    PlaceInFrame(ch, channels, sample);
    ChannelAt(data, ch, channels, sample, n);
    FrameCounts(n + 1, Times(channels, sample), sample);
    var from := Times(n, Times(channels, sample));
    assert Channel(data, ch, channels, sample)[Times(n, sample)..Times(n, sample) + sample][b] ==
           SampleOf(data[from..], ch, channels, sample)[b];
    SlicedTwice(data, from, Times(ch, sample), b);
  }

  lemma {:induction false} SampleInPart<T>(buffers: seq<Option<seq<T>>>, before: seq<T>, from: nat, k: nat, sample: nat,
                                ch: nat)
    requires ch < k <= |buffers| && from + Times(k, sample) <= |before| && Hold(buffers, sample) && sample > 0
    ensures Times(ch, sample) + sample <= Times(k, sample)
    ensures FramePart(buffers, before, from, k, sample)[Times(ch, sample)..Times(ch, sample) + sample] ==
            SampleOr(buffers, before, from, ch, sample)
  {
    PlaceInFrame(ch, k, sample);
    if ch < k - 1 {
      SampleInPart(buffers, before, from, k - 1, sample, ch);
    }
  }

  lemma {:induction false} FramesBefore<T>(buffers: seq<Option<seq<T>>>, before: seq<T>, frames: nat, sample: nat,
                                n: nat)
    requires n <= frames && |before| >= Times(frames, Times(|buffers|, sample)) && Hold(buffers, Times(frames, sample))
    ensures Times(n, Times(|buffers|, sample)) <= Times(frames, Times(|buffers|, sample))
    ensures Times(n, sample) <= Times(frames, sample)
    ensures Interleaved(buffers, before, n, sample) <= Interleaved(buffers, before, frames, sample)
    decreases frames
  {
    if n < frames {
      FrameCounts(frames, Times(|buffers|, sample), sample);
      FramesBefore(buffers, before, frames - 1, sample, n);
    }
  }

  lemma FrameInStream<T>(buffers: seq<Option<seq<T>>>, before: seq<T>, frames: nat, sample: nat, n: nat)
    requires n < frames && |before| >= Times(frames, Times(|buffers|, sample)) && Hold(buffers, Times(frames, sample))
    ensures Times(n + 1, Times(|buffers|, sample)) <= Times(frames, Times(|buffers|, sample))
    ensures Times(n + 1, sample) <= Times(frames, sample)
    ensures Interleaved(buffers, before, frames,
      sample)[Times(n, Times(|buffers|, sample))..][..Times(|buffers|, sample)] ==
            FrameAt(buffers, before, n, sample)
  {
    FramesBefore(buffers, before, frames, sample, n + 1);
    FrameCounts(n + 1, Times(|buffers|, sample), sample);
    Last(Interleaved(buffers, before, n, sample), FrameAt(buffers, before, n, sample),
      Interleaved(buffers, before, frames, sample));
  }

  lemma Last<T>(a: seq<T>, b: seq<T>, all: seq<T>)
    requires a + b <= all
    ensures all[|a|..][..|b|] == b
  {
  }

  /** Putting frames together: each byte is that of its channel's buffer, or what was there before when the channel has
      no buffer. */
  lemma {:induction false} ByteOfFrame<T>(buffers: seq<Option<seq<T>>>, before: seq<T>, frames: nat, sample: nat,
                                          ch: nat, n: nat, b: nat, to: nat, from: nat)
    requires sample > 0 && ch < |buffers| && b < sample && n < frames
    requires |before| >= Times(frames, Times(|buffers|, sample)) && Hold(buffers, Times(frames, sample))
    requires to == (n * |buffers| + ch) * sample + b && from == n * sample + b
    ensures to < |Interleaved(buffers, before, frames, sample)| <= |before|
    ensures buffers[ch].Some? ==> from < |buffers[ch].value|
    ensures Interleaved(buffers, before, frames, sample)[to] ==
            if buffers[ch].Some? then buffers[ch].value[from] else before[to]
  {
    assert |Interleaved(buffers, before, frames, sample)| <= |before|;
    Placed(n, |buffers|, ch, sample);
    TimesIsProduct(n, sample);
    SampleInStream(buffers, before, frames, sample, ch, n);
    HoldsLess(buffers, Times(frames, sample), Times(n, sample) + sample);
    ByteInParts(Interleaved(buffers, before, frames, sample), before, buffers, Times(n, Times(|buffers|, sample)),
      Times(|buffers|, sample), Times(ch, sample), Times(n, sample), sample, ch, b);
  }

  lemma HoldsLess<T>(buffers: seq<Option<seq<T>>>, more: nat, less: nat)
    requires Hold(buffers, more) && less <= more
    ensures Hold(buffers, less)
  {
  }

  /** The same for any places at which the sample is found. */
  lemma {:induction false} ByteInParts<T>(all: seq<T>, before: seq<T>, buffers: seq<Option<seq<T>>>, start: nat,
                                          size: nat, at: nat, skip: nat, sample: nat, ch: nat, b: nat)
    requires ch < |buffers| && b < sample && at == Times(ch, sample)
    requires start + size <= |all| <= |before| && at + sample <= size && Hold(buffers, skip + sample)
    requires all[start..][..size][at..at + sample] == SampleOr(Dropped(buffers, skip), before, start, ch, sample)
    ensures buffers[ch].Some? ==> skip + b < |buffers[ch].value|
    ensures all[start + at + b] == if buffers[ch].Some? then buffers[ch].value[skip + b] else before[start + at + b]
  {
    SampleByte(buffers, before, skip, start, ch, sample, b);
    ByteIn(all, SampleOr(Dropped(buffers, skip), before, start, ch, sample), start, size, at, sample, b);
  }

  lemma {:induction false} SampleInStream<T>(buffers: seq<Option<seq<T>>>, before: seq<T>, frames: nat, sample: nat,
                                ch: nat, n: nat)
    requires sample > 0 && ch < |buffers| && n < frames
    requires |before| >= Times(frames, Times(|buffers|, sample)) && Hold(buffers, Times(frames, sample))
    ensures var size, from := Times(|buffers|, sample), Times(n, Times(|buffers|, sample));
            && from + size <= Times(frames, size) && Times(ch, sample) + sample <= size
            && Times(n, sample) + sample <= Times(frames, sample)
            && Interleaved(buffers, before, frames, sample)[from..][..size][Times(ch, sample)..Times(ch, sample) +
               sample] ==
               SampleOr(Dropped(buffers, Times(n, sample)), before, from, ch, sample)
  {
    PlaceInFrame(ch, |buffers|, sample);
    FrameInStream(buffers, before, frames, sample, n);
    FrameCounts(n + 1, Times(|buffers|, sample), sample);
    SampleInPart(Dropped(buffers, Times(n, sample)), before, Times(n, Times(|buffers|, sample)), |buffers|, sample, ch);
  }

  lemma {:induction false} SampleByte<T>(buffers: seq<Option<seq<T>>>, before: seq<T>, skip: nat, from: nat, ch: nat,
                                sample: nat, b: nat)
    requires ch < |buffers| && b < sample && from + Times(ch, sample) + sample <= |before| &&
      Hold(buffers, skip + sample)
    ensures SampleOr(Dropped(buffers, skip), before, from, ch, sample)[b] ==
            if buffers[ch].Some? then buffers[ch].value[skip + b] else before[from + Times(ch, sample) + b]
  {
  }

  lemma ByteIn<T>(all: seq<T>, part: seq<T>, from: nat, size: nat, at: nat, sample: nat, b: nat)
    requires from + size <= |all| && at + sample <= size && b < sample
    requires all[from..][..size][at..at + sample] == part
    ensures part[b] == all[from + at + b]
  {
    assert all[from..][..size][at..at + sample][b] == all[from + at + b];
  }
}
