/** The capture ring buffer over whole runs: the driver's callback adds buffers, and the capture thread takes out chunks
    into a data buffer that it uses again and again. When its patience is over it reads what there is, and the rest of
    the data buffer still holds older bytes. */
module CaptureRing {
  import opened Audio
  import opened AsioBuffers
  import opened Frames
  import opened Sounds
  import A = AsioCallbacks

  /** Sizes in bytes: of a frame and of the ring buffer. */
  datatype Setting<T> = Setting(zero: T, frame: nat, capacity: nat) {
    ghost predicate Valid() { frame > 0 && Whole(capacity, frame) }
  }

  datatype State<T> = State(
    ring: seq<T>,
    data: seq<T>,                 // the data buffer of the capture thread
    accepted: seq<T>,             // all that the ring buffer has taken in
    taken: nat,                   // how much of it has been taken out
    origins: seq<Option<nat>>)    // where the bytes of the data buffer come from

  datatype Event<T> = Callback(frames: seq<T>) | Read(count: nat)

  function Started<T>(c: Setting<T>, size: nat): State<T> {
    State([], Repeat(c.zero, size), [], 0, Repeat(None, size))
  }

  /** A data buffer that is too small is extended. */
  function Extended<T>(data: seq<T>, count: nat, zero: T): (r: seq<T>)
    ensures |r| >= count && data <= r
  {
    data + Repeat(zero, Sub(count, |data|))
  }

  function Numbers(from: nat, n: nat): (r: seq<Option<nat>>)
    ensures |r| == n && forall i :: 0 <= i < n ==> r[i] == Some(from + i)
  {
    seq(n, i => Some(from + i))
  }

  function Next<T>(s: State<T>, c: Setting<T>, e: Event<T>): State<T>
    requires |s.ring| <= c.capacity
  {
    match e
    case Callback(frames) =>
      var ring := A.Pushed(s.ring, c.capacity, frames);
      s.(ring := ring, accepted := s.accepted + ring[|s.ring|..])
    case Read(count) =>
      var n := MinNat(|s.ring|, count);
      s.(ring := s.ring[n..], taken := s.taken + n,
         data := s.ring[..n] + Extended(s.data, count, c.zero)[n..],
         origins := Numbers(s.taken, n) + Extended(s.origins, count, None)[n..])
  }

  function Run<T>(s: State<T>, c: Setting<T>, events: seq<Event<T>>): State<T>
    decreases |events|
  {
    if events == [] || |s.ring| > c.capacity then s else Run(Next(s, c, events[0]), c, events[1..])
  }

  /** Buffers and chunks are whole frames. */
  ghost predicate InFrames<T>(e: Event<T>, frame: nat)
    requires frame > 0
  {
    match e
    case Callback(frames) => Whole(|frames|, frame)
    case Read(count) => Whole(count, frame)
  }

  /** The ring buffer holds what was accepted and not yet taken out. */
  ghost predicate InLine<T>(ring: seq<T>, accepted: seq<T>, taken: nat) {
    taken + |ring| == |accepted| && forall i :: 0 <= i < |ring| ==> ring[i] == accepted[taken + i]
  }

  ghost predicate Queued<T>(s: State<T>, c: Setting<T>)
    requires c.frame > 0
  {
    && |s.ring| <= c.capacity && InLine(s.ring, s.accepted, s.taken)
    && Whole(s.taken, c.frame) && Whole(|s.ring|, c.frame)
  }

  /** Byte i of the data buffer has never been written, or is an accepted byte from the same place within its frame. */
  ghost predicate OnItsChannel<T>(s: State<T>, c: Setting<T>, i: nat)
    requires c.frame > 0 && i < |s.data| == |s.origins|
  {
    match s.origins[i]
    case None => s.data[i] == c.zero
    case Some(j) => j < |s.accepted| && s.data[i] == s.accepted[j] && i % c.frame == j % c.frame
  }

  ghost predicate Inv<T>(s: State<T>, c: Setting<T>) {
    && c.Valid() && Queued(s, c) && |s.origins| == |s.data|
    && forall i :: 0 <= i < |s.data| ==> OnItsChannel(s, c, i)
  }

  lemma PushedInLine<T>(ring: seq<T>, accepted: seq<T>, taken: nat, capacity: nat, frames: seq<T>)
    requires |ring| <= capacity && InLine(ring, accepted, taken)
    ensures InLine(A.Pushed(ring, capacity, frames), accepted + A.Pushed(ring, capacity, frames)[|ring|..], taken)
  {
  }

  lemma TakenInLine<T>(ring: seq<T>, accepted: seq<T>, taken: nat, n: nat)
    requires n <= |ring| && InLine(ring, accepted, taken)
    ensures InLine(ring[n..], accepted, taken + n)
  {
  }

  lemma {:induction false} PushedIsWhole<T>(ring: seq<T>, c: Setting<T>, frames: seq<T>)
    requires c.Valid() && |ring| <= c.capacity && Whole(|ring|, c.frame) && Whole(|frames|, c.frame)
    ensures Whole(|A.Pushed(ring, c.capacity, frames)|, c.frame)
  {
    WholeDifference(c.capacity, |ring|, c.frame);
    WholeSum(|ring|, MinNat(c.capacity - |ring|, |frames|), c.frame);
  }

  lemma {:induction false} CallbackKeepsInv<T>(s: State<T>, c: Setting<T>, frames: seq<T>)
    requires Inv(s, c) && Whole(|frames|, c.frame)
    ensures Inv(Next(s, c, Callback(frames)), c)
  {
    var t := Next(s, c, Callback(frames));
    PushedInLine(s.ring, s.accepted, s.taken, c.capacity, frames);
    PushedIsWhole(s.ring, c, frames);
    forall i | 0 <= i < |t.data| ensures OnItsChannel(t, c, i) {
      assert OnItsChannel(s, c, i);
    }
  }

  lemma ReadIsWhole(taken: nat, queued: nat, n: nat, frame: nat)
    requires frame > 0 && Whole(taken, frame) && Whole(queued, frame) && Whole(n, frame) && n <= queued
    ensures Whole(taken + n, frame) && Whole(queued - n, frame)
  {
    WholeSum(taken, n, frame);
    WholeDifference(queued, n, frame);
  }

  lemma {:induction false} ReadKeepsQueued<T>(s: State<T>, c: Setting<T>, count: nat)
    requires c.Valid() && Queued(s, c) && Whole(count, c.frame)
    ensures Queued(Next(s, c, Read(count)), c)
  {
    QueuedAfterRead(s, Next(s, c, Read(count)), c, MinNat(|s.ring|, count));
  }

  lemma {:induction false} QueuedAfterRead<T>(s: State<T>, t: State<T>, c: Setting<T>, n: nat)
    requires c.Valid() && Queued(s, c) && Whole(n, c.frame) && n <= |s.ring|
    requires t.ring == s.ring[n..] && t.taken == s.taken + n && t.accepted == s.accepted
    ensures Queued(t, c)
  {
    ReadIsWhole(s.taken, |s.ring|, n, c.frame);
    TakenInLine(s.ring, s.accepted, s.taken, n);
  }

  lemma ReadKeepsChannel<T>(s: State<T>, c: Setting<T>, count: nat, i: nat)
    requires Inv(s, c) && i < |Next(s, c, Read(count)).data|
    ensures |Next(s, c, Read(count)).origins| == |Next(s, c, Read(count)).data|
    ensures OnItsChannel(Next(s, c, Read(count)), c, i)
  {
    if i < MinNat(|s.ring|, count) {
      SamePlaceInFrame(s.taken + i, i, c.frame);
    } else if i < |s.data| {
      assert OnItsChannel(s, c, i);
    }
  }

  lemma StepKeepsInv<T>(s: State<T>, c: Setting<T>, e: Event<T>)
    requires Inv(s, c) && InFrames(e, c.frame)
    ensures Inv(Next(s, c, e), c)
  {
    match e {
      case Callback(frames) => CallbackKeepsInv(s, c, frames);
      case Read(count) =>
        ReadKeepsQueued(s, c, count);
        forall i | 0 <= i < |Next(s, c, e).data| ensures OnItsChannel(Next(s, c, e), c, i) {
          ReadKeepsChannel(s, c, count, i);
        }
    }
  }

  lemma {:induction false} RunKeepsInv<T>(s: State<T>, c: Setting<T>, events: seq<Event<T>>)
    requires Inv(s, c) && forall k :: 0 <= k < |events| ==> InFrames(events[k], c.frame)
    ensures Inv(Run(s, c, events), c)
    decreases |events|
  {
    if events != [] {
      StepKeepsInv(s, c, events[0]);
      RunKeepsInv(Next(s, c, events[0]), c, events[1..]);
    }
  }

  /** Over every run of callbacks and reads, overruns and reads that come too early included: what was accepted is taken
      out in order, ring buffer and reads are whole frames, and every byte of the data buffer, also of an older chunk,
      stands at the place within a frame at which it was accepted. */
  lemma {:induction false} CaptureKeepsFrames<T>(c: Setting<T>, size: nat, events: seq<Event<T>>)
    requires c.Valid() && forall k :: 0 <= k < |events| ==> InFrames(events[k], c.frame)
    ensures var s := Run(Started(c, size), c, events);
            && InLine(s.ring, s.accepted, s.taken)
            && |s.ring| % c.frame == 0 && s.taken % c.frame == 0
            && |s.origins| == |s.data| && forall i :: 0 <= i < |s.data| ==> OnItsChannel(s, c, i)
  {
    RunKeepsInv(Started(c, size), c, events);
    var s := Run(Started(c, size), c, events);
    WholeIsMultiple(|s.ring|, c.frame);
    WholeIsMultiple(s.taken, c.frame);
  }

  /** A read that waited long enough gets the next bytes, all of them and in order. */
  lemma {:induction false} ReadsInOrder<T>(c: Setting<T>, size: nat, events: seq<Event<T>>, count: nat)
    requires c.Valid() && forall k :: 0 <= k < |events| ==> InFrames(events[k], c.frame)
    requires count <= |Run(Started(c, size), c, events).ring| <= c.capacity
    ensures var s := Run(Started(c, size), c, events);
            && |s.accepted| >= s.taken + count
            && |Next(s, c, Read(count)).data| >= count
            && Next(s, c, Read(count)).data[..count] == s.accepted[s.taken..s.taken + count]
  {
    CaptureKeepsFrames(c, size, events);
  }

  // ---------------------------------------------------------------------------------------------
  // The context the driver's callback works on
  // ---------------------------------------------------------------------------------------------

  lemma {:induction false} CopiedIn<T>(before: seq<T>, bytes: seq<T>, count: nat, zero: T)
    requires |bytes| <= count <= |before|
    ensures Spliced(before, 0, bytes) == bytes + Extended(before, count, zero)[|bytes|..]
  {
    SplicedParts(before, 0, bytes);
    assert Extended(before, count, zero) == before;
  }

  class CaptureContext<T> {
    const zero: T
    const numChannels: nat
    const bytesPerSample: nat
    const bufferSize: nat
    const capacity: nat
    const notifyCapacity: nat
    const scratch: array<T>
    var ring: seq<T>
    var notifications: seq<(nat, nat)>
    var chunkCounter: nat

    /** The ring buffer has room for twice what the capture thread takes out at once, and 2048 frames more. */
    constructor (zero: T, numChannels: nat, bytesPerSample: nat, bufferSize: nat, chunkSize: nat, notifyCapacity: nat)
      ensures this.numChannels == numChannels && this.bytesPerSample == bytesPerSample && this.bufferSize == bufferSize
      ensures this.zero == zero && this.notifyCapacity == notifyCapacity && fresh(scratch)
      ensures FrameBytes() == numChannels * bytesPerSample
      ensures scratch.Length == Times(bufferSize, FrameBytes()) == bufferSize * FrameBytes()
      ensures capacity == (2 * chunkSize + 2048) * FrameBytes()
      ensures ring == [] && notifications == [] && chunkCounter == 0
      ensures numChannels > 0 && bytesPerSample > 0 ==> Settings().Valid()
    {
      this.zero, this.numChannels, this.bytesPerSample, this.bufferSize := zero, numChannels, bytesPerSample,
        bufferSize;
      this.notifyCapacity := notifyCapacity;
      capacity := Times(2 * chunkSize + 2048, Times(numChannels, bytesPerSample));
      scratch := new T[Times(bufferSize, Times(numChannels, bytesPerSample))](_ => zero);
      ring, notifications, chunkCounter := [], [], 0;
      new;
      TimesIsProduct(numChannels, bytesPerSample);
      TimesIsProduct(bufferSize, FrameBytes());
      TimesIsProduct(2 * chunkSize + 2048, FrameBytes());
      if numChannels > 0 && bytesPerSample > 0 {
        TimesIsWhole(2 * chunkSize + 2048, FrameBytes());
      }
    }

    function FrameBytes(): nat { Times(numChannels, bytesPerSample) }

    function Settings(): Setting<T> { Setting(zero, FrameBytes(), capacity) }

    /** The driver names one half of its buffers, there are enough of them, and the scratch buffer has the right size.
        */
    predicate CanCapture(infos: seq<A.BufferInfo<T>>, bufferIndex: int)
      ensures CanCapture(infos, bufferIndex) <==>
        (bufferIndex == 0 || bufferIndex == 1) && |infos| >= numChannels &&
          scratch.Length == Times(bufferSize, FrameBytes())
    {
      A.CanServe(infos, numChannels, bufferIndex) && scratch.Length == Times(bufferSize, FrameBytes())
    }

    /** The buffers are interleaved and pushed. What the ring buffer has no room for is lost, as is a notification the
        channel has no room for; the notification tells how many bytes went in. */
    method BufferSwitch(infos: seq<A.BufferInfo<T>>, bufferIndex: int)
      requires |ring| <= capacity && bytesPerSample > 0
      requires A.DoubleBuffered(infos, Times(bufferSize, bytesPerSample))
      requires scratch !in A.Firsts(infos) && scratch !in A.Seconds(infos)
      modifies this, scratch
      ensures !CanCapture(infos, bufferIndex) ==>
        ring == old(ring) && notifications == old(notifications) && chunkCounter == old(chunkCounter)
      ensures CanCapture(infos, bufferIndex) ==>
        var buffers := AllContents((if bufferIndex == 0 then A.Firsts(infos) else A.Seconds(infos))[..numChannels]);
        && Hold(buffers, Times(bufferSize, bytesPerSample))
        && scratch[..] == Interleaved(buffers, old(scratch[..]), bufferSize, bytesPerSample)
        && ring == Next(State(old(ring), [], [], 0, []), Settings(), Callback(scratch[..])).ring
        && notifications == old(notifications) +
             (if |old(notifications)| < notifyCapacity then [(old(chunkCounter), |ring| - |old(ring)|)] else [])
        && chunkCounter == old(chunkCounter) + 1
    {
      if !A.CanServe(infos, numChannels, bufferIndex) { return; }
      if scratch.Length != Times(bufferSize, Times(numChannels, bytesPerSample)) { return; }
      A.OneHalf(infos, numChannels, bufferIndex, Times(bufferSize, bytesPerSample));
      Interleave(A.Selected(infos, numChannels, bufferIndex), scratch, bufferSize, bytesPerSample);
      PushScratch();
    }

    /** Pushes the frames, and notifies the capture thread. */
    method PushScratch()
      requires |ring| <= capacity
      modifies this
      ensures ring == A.Pushed(old(ring), capacity, scratch[..])
      ensures notifications == old(notifications) +
        (if |old(notifications)| < notifyCapacity then [(old(chunkCounter), |ring| - |old(ring)|)] else [])
      ensures chunkCounter == old(chunkCounter) + 1
    {
      var pushed := MinNat(capacity - |ring|, scratch.Length);
      assert scratch[..pushed] == scratch[..][..pushed];
      ring := ring + scratch[..pushed];
      if |notifications| < notifyCapacity {
        notifications := notifications + [(chunkCounter, pushed)];
      }
      chunkCounter := chunkCounter + 1;
    }

    /** The capture thread takes out a chunk, or as much of it as there is; the rest of its data buffer stays. */
    method Consume(data: array<T>, count: nat)
      requires |ring| <= capacity && count <= data.Length && data != scratch
      modifies this`ring, data
      ensures var s := Next(State(old(ring), old(data[..]), [], 0, []), Settings(), Read(count));
              ring == s.ring && data[..] == s.data
      ensures var n := MinNat(|old(ring)|, count);
              ring == old(ring)[n..] && data[..n] == old(ring)[..n] && data[n..] == old(data[n..])
    {
      var n := MinNat(|ring|, count);
      ghost var before := data[..];
      CopySlice(ring[..n], data, 0);
      CopiedIn(before, ring[..n], count, zero);
      ring := ring[n..];
    }
  }
}
