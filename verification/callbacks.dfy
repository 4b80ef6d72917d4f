/** What the driver calls for playback: the callback empties a ring buffer into one buffer per channel. Bytes are of any
    type T, so that a byte can be labelled with where it came from. */
module AsioCallbacks {
  import opened Audio
  import opened Frames
  import opened AsioBuffers
  import opened Sounds

  // ---------------------------------------------------------------------------------------------
  // The ring buffer
  // ---------------------------------------------------------------------------------------------

  /** Pushes as much as there is room for. */
  function Pushed<T>(ring: seq<T>, capacity: nat, bytes: seq<T>): (r: seq<T>)
    requires |ring| <= capacity
    ensures |r| <= capacity && ring <= r
  {
    ring + bytes[..MinNat(capacity - |ring|, |bytes|)]
  }

  // ---------------------------------------------------------------------------------------------
  // Filling the sample queue
  // ---------------------------------------------------------------------------------------------

  datatype Fill<T> = Fill(queue: seq<T>, ring: seq<T>, running: bool)

  /** What the producer adds while the callback runs: one push before each look at the ring buffer. */
  function Arrive<T>(ring: seq<T>, capacity: nat, arrivals: seq<seq<T>>): (r: seq<T>)
    requires |ring| <= capacity
    ensures |r| <= capacity && ring <= r
  {
    if arrivals == [] then ring else Pushed(ring, capacity, arrivals[0])
  }

  /** Bytes are dropped only when the ring buffer is full, and then from their end. */
  lemma DropsOnlyWhenFull<T>(ring: seq<T>, capacity: nat, bytes: seq<T>, arrivals: seq<seq<T>>)
    requires |ring| <= capacity
    ensures var r := Pushed(ring, capacity, bytes); r <= ring + bytes && (r == ring + bytes || |r| == capacity)
    ensures var r := Arrive(ring, capacity, arrivals);
            if arrivals == [] then r == ring
            else r <= ring + arrivals[0] && (r == ring + arrivals[0] || |r| == capacity)
  {
  }

  function Later<T>(arrivals: seq<T>): seq<T> { if arrivals == [] then [] else arrivals[1..] }

  /** One read of what is in the ring buffer. The first data after an underrun waits behind `prefill` bytes of
      silence. */
  function ReadOnce<T>(f: Fill<T>, ring: seq<T>, zero: T, needed: nat, prefill: nat): Fill<T> {
    var queue := if f.running then f.queue else f.queue + Repeat(zero, prefill);
    var n := MinNat(|ring|, Sub(needed, |queue|));
    Fill(queue + ring[..n], ring[n..], true)
  }

  /** Reads until a whole buffer is queued. An empty ring buffer is made up for with silence. */
  function Filled<T>(f: Fill<T>, zero: T, needed: nat, prefill: nat, capacity: nat, arrivals: seq<seq<T>>): (r: Fill<T>)
    requires |f.ring| <= capacity
    ensures |r.queue| >= needed && |r.ring| <= capacity
    ensures |f.queue| >= needed ==> r == f
    decreases Sub(needed, |f.queue|), if f.running then 0 else 1
  {
    if |f.queue| >= needed then f
    else
      var ring := Arrive(f.ring, capacity, arrivals);
      if ring == [] then Fill(f.queue + Repeat(zero, needed - |f.queue|), [], false)
      else Filled(ReadOnce(f, ring, zero, needed, prefill), zero, needed, prefill, capacity, Later(arrivals))
  }

  // ---------------------------------------------------------------------------------------------
  // Whole runs: nothing is lost, silence comes in whole frames, and channels never rotate
  // ---------------------------------------------------------------------------------------------

  /** Cut into frames, each frame is either silence or sound throughout. */
  predicate PureFrames<T(==)>(s: seq<T>, zero: T, frame: nat)
    requires frame > 0
  {
    s == [] ||
    (|s| >= frame &&
     ((forall i :: 0 <= i < frame ==> s[i] == zero) || (forall i :: 0 <= i < frame ==> s[i] != zero)) &&
     PureFrames(s[frame..], zero, frame))
  }

  datatype State<T> = State(fill: Fill<T>, accepted: seq<T>, emitted: seq<T>)

  datatype Event<T> = Push(bytes: seq<T>) | Callback(arrivals: seq<seq<T>>)

  /** Sizes in bytes: of a frame, of one buffer, of the silence before a restart, and of the ring buffer. */
  datatype Setting<T> = Setting(zero: T, frame: nat, needed: nat, prefill: nat, capacity: nat) {
    ghost predicate Valid() {
      frame > 0 && Whole(needed, frame) && Whole(prefill, frame) && Whole(capacity, frame)
    }
  }

  /** What the ring buffer accepts while a callback fills its queue. */
  function AcceptedBy<T>(f: Fill<T>, c: Setting<T>, arrivals: seq<seq<T>>): seq<T>
    requires |f.ring| <= c.capacity
    decreases Sub(c.needed, |f.queue|), if f.running then 0 else 1
  {
    if |f.queue| >= c.needed then []
    else
      var ring := Arrive(f.ring, c.capacity, arrivals);
      if ring == [] then []
      else ring[|f.ring|..] + AcceptedBy(ReadOnce(f, ring, c.zero, c.needed, c.prefill), c, Later(arrivals))
  }

  function Next<T>(s: State<T>, c: Setting<T>, e: Event<T>): State<T>
    requires |s.fill.ring| <= c.capacity
  {
    match e
    case Push(bytes) =>
      var ring := Pushed(s.fill.ring, c.capacity, bytes);
      s.(fill := s.fill.(ring := ring), accepted := s.accepted + ring[|s.fill.ring|..])
    case Callback(arrivals) =>
      var f := Filled(s.fill, c.zero, c.needed, c.prefill, c.capacity, arrivals);
      State(f.(queue := f.queue[c.needed..]), s.accepted + AcceptedBy(s.fill, c, arrivals),
            s.emitted + f.queue[..c.needed])
  }

  /** Everything that is pushed is sound, in whole frames. */
  ghost predicate PushesSound<T>(c: Setting<T>, e: Event<T>)
    requires c.frame > 0
  {
    match e
    case Push(bytes) => Whole(|bytes|, c.frame) && Loud(bytes, c.zero)
    case Callback(arrivals) =>
      forall i :: 0 <= i < |arrivals| ==> Whole(|arrivals[i]|, c.frame) && Loud(arrivals[i], c.zero)
  }

  ghost predicate Tidy<T>(f: Fill<T>, c: Setting<T>)
    requires c.frame > 0
  {
    |f.ring| <= c.capacity && Whole(|f.ring|, c.frame) && Loud(f.ring, c.zero) && PureFrames(f.queue, c.zero, c.frame)
  }

  ghost predicate Inv<T>(s: State<T>, c: Setting<T>) {
    && c.Valid() && Tidy(s.fill, c)
    && PureFrames(s.emitted, c.zero, c.frame)
    && s.accepted == Sound(s.emitted, c.zero) + Pending(s.fill, c)
  }

  lemma {:induction false} PureIsWhole<T>(s: seq<T>, zero: T, frame: nat)
    requires frame > 0 && PureFrames(s, zero, frame)
    ensures Whole(|s|, frame)
    decreases |s|
  {
    if s != [] { PureIsWhole(s[frame..], zero, frame); }
  }

  lemma {:induction false} PureConcat<T>(a: seq<T>, b: seq<T>, zero: T, frame: nat)
    requires frame > 0 && PureFrames(a, zero, frame) && PureFrames(b, zero, frame)
    ensures PureFrames(a + b, zero, frame)
    decreases |a|
  {
    if a == [] {
      assert a + b == b;
    } else {
      PureConcat(a[frame..], b, zero, frame);
      assert (a + b)[frame..] == a[frame..] + b;
    }
  }

  lemma {:induction false} PureSplit<T>(s: seq<T>, n: nat, zero: T, frame: nat)
    requires frame > 0 && PureFrames(s, zero, frame) && n <= |s| && Whole(n, frame)
    ensures PureFrames(s[..n], zero, frame) && PureFrames(s[n..], zero, frame)
    decreases n
  {
    if n > 0 {
      PureSplit(s[frame..], n - frame, zero, frame);
      assert s[..n][frame..] == s[frame..][..n - frame] && s[n..] == s[frame..][n - frame..];
    } else {
      assert s[n..] == s;
    }
  }

  lemma {:induction false} LoudIsPure<T>(s: seq<T>, zero: T, frame: nat)
    requires frame > 0 && Whole(|s|, frame) && Loud(s, zero)
    ensures PureFrames(s, zero, frame)
    decreases |s|
  {
    if s != [] { LoudIsPure(s[frame..], zero, frame); }
  }

  lemma {:induction false} SilenceIsPure<T>(zero: T, n: nat, frame: nat)
    requires frame > 0 && Whole(n, frame)
    ensures PureFrames(Repeat(zero, n), zero, frame)
    decreases n
  {
    if n > 0 {
      SilenceIsPure(zero, n - frame, frame);
      assert Repeat(zero, n)[frame..] == Repeat(zero, n - frame);
    }
  }

  lemma {:induction false} PushKeepsWhole<T>(ring: seq<T>, c: Setting<T>, bytes: seq<T>)
    requires c.Valid() && |ring| <= c.capacity && Whole(|ring|, c.frame) && Whole(|bytes|, c.frame)
    requires Loud(ring, c.zero) && Loud(bytes, c.zero)
    ensures Whole(|Pushed(ring, c.capacity, bytes)|, c.frame) && Loud(Pushed(ring, c.capacity, bytes), c.zero)
  {
    WholeDifference(c.capacity, |ring|, c.frame);
    WholeSum(|ring|, MinNat(c.capacity - |ring|, |bytes|), c.frame);
  }

  lemma {:induction false} ArriveKeepsWhole<T>(ring: seq<T>, c: Setting<T>, arrivals: seq<seq<T>>)
    requires c.Valid() && |ring| <= c.capacity && Whole(|ring|, c.frame) && Loud(ring, c.zero)
    requires PushesSound(c, Callback(arrivals))
    ensures Whole(|Arrive(ring, c.capacity, arrivals)|, c.frame) && Loud(Arrive(ring, c.capacity, arrivals), c.zero)
    ensures PushesSound(c, Callback(Later(arrivals)))
  {
    if arrivals != [] { PushKeepsWhole(ring, c, arrivals[0]); }
  }

  /** Filling the queue moves sound from the ring buffer into the queue, in order, and adds silence in whole frames. */
  lemma {:induction false} FilledKeepsSound<T>(f: Fill<T>, c: Setting<T>, arrivals: seq<seq<T>>)
    requires c.Valid() && Tidy(f, c) && PushesSound(c, Callback(arrivals))
    ensures Tidy(Filled(f, c.zero, c.needed, c.prefill, c.capacity, arrivals), c)
    ensures Pending(Filled(f, c.zero, c.needed, c.prefill, c.capacity, arrivals), c) ==
      Pending(f, c) + AcceptedBy(f, c, arrivals)
    decreases Sub(c.needed, |f.queue|), if f.running then 0 else 1
  {
    if |f.queue| >= c.needed {
      assert Pending(f, c) + [] == Pending(f, c);
    } else {
      var ring := Arrive(f.ring, c.capacity, arrivals);
      ArriveKeepsWhole(f.ring, c, arrivals);
      if ring == [] {
        SilenceIsTidy(f, c);
      } else {
        ReadOnceIsTidy(f, ring, c);
        var g := ReadOnce(f, ring, c.zero, c.needed, c.prefill);
        FilledKeepsSound(g, c, Later(arrivals));
        Chain(Sound(f.queue, c.zero), f.ring, ring, AcceptedBy(g, c, Later(arrivals)));
      }
    }
  }

  /** The sound still to be emitted, oldest first. */
  function Pending<T(==)>(f: Fill<T>, c: Setting<T>): seq<T> { Sound(f.queue, c.zero) + f.ring }

  lemma Chain<T>(sound: seq<T>, before: seq<T>, ring: seq<T>, more: seq<T>)
    requires before <= ring
    ensures sound + ring + more == sound + before + (ring[|before|..] + more)
  {
    assert ring == before + ring[|before|..];
  }

  lemma SilenceIsTidy<T>(f: Fill<T>, c: Setting<T>)
    requires c.Valid() && Tidy(f, c) && |f.queue| < c.needed && f.ring == []
    ensures var g := Fill(f.queue + Repeat(c.zero, c.needed - |f.queue|), [], false);
            Tidy(g, c) && Pending(g, c) == Pending(f, c) + []
  {
    AddSilence(f.queue, c, c.needed - |f.queue|);
    assert Pending(f, c) + [] == Pending(f, c);
  }

  lemma {:induction false} ReadOnceIsTidy<T>(f: Fill<T>, ring: seq<T>, c: Setting<T>)
    requires c.Valid() && PureFrames(f.queue, c.zero, c.frame)
    requires |ring| <= c.capacity && Whole(|ring|, c.frame) && Loud(ring, c.zero)
    ensures var g := ReadOnce(f, ring, c.zero, c.needed, c.prefill);
            Tidy(g, c) && Pending(g, c) == Sound(f.queue, c.zero) + ring
  {
    var queue := if f.running then f.queue else f.queue + Repeat(c.zero, c.prefill);
    if !f.running { AddSilence(f.queue, c, c.prefill); }
    MoveSound(queue, ring, MinNat(|ring|, Sub(c.needed, |queue|)), c);
  }

  lemma {:induction false} AddSilence<T>(queue: seq<T>, c: Setting<T>, n: nat)
    requires c.Valid() && PureFrames(queue, c.zero, c.frame)
    requires Whole(n, c.frame) || (n <= c.needed && n == c.needed - |queue|)
    ensures PureFrames(queue + Repeat(c.zero, n), c.zero, c.frame)
    ensures Sound(queue + Repeat(c.zero, n), c.zero) == Sound(queue, c.zero)
  {
    if !Whole(n, c.frame) {
      PureIsWhole(queue, c.zero, c.frame);
      WholeDifference(c.needed, |queue|, c.frame);
    }
    SilenceIsPure(c.zero, n, c.frame);
    PureConcat(queue, Repeat(c.zero, n), c.zero, c.frame);
    SoundConcat(queue, Repeat(c.zero, n), c.zero);
    SoundOfSilence(c.zero, n);
    assert Sound(queue, c.zero) + [] == Sound(queue, c.zero);
  }

  lemma {:induction false} MoveSound<T>(queue: seq<T>, ring: seq<T>, n: nat, c: Setting<T>)
    requires c.Valid() && PureFrames(queue, c.zero, c.frame) && Whole(|ring|, c.frame) && Loud(ring, c.zero)
    requires n == MinNat(|ring|, Sub(c.needed, |queue|))
    ensures PureFrames(queue + ring[..n], c.zero, c.frame) && Whole(|ring[n..]|, c.frame)
    ensures Sound(queue + ring[..n], c.zero) + ring[n..] == Sound(queue, c.zero) + ring
  {
    PureIsWhole(queue, c.zero, c.frame);
    if c.needed >= |queue| { WholeDifference(c.needed, |queue|, c.frame); }
    WholeDifference(|ring|, n, c.frame);
    LoudIsPure(ring[..n], c.zero, c.frame);
    PureConcat(queue, ring[..n], c.zero, c.frame);
    SoundMoves(queue, ring, n, c.zero);
  }

  lemma {:induction false} SoundMoves<T>(queue: seq<T>, ring: seq<T>, n: nat, zero: T)
    requires n <= |ring| && Loud(ring, zero)
    ensures Sound(queue + ring[..n], zero) + ring[n..] == Sound(queue, zero) + ring
  {
    SoundConcat(queue, ring[..n], zero);
    SoundOfLoud(ring[..n], zero);
    assert ring == ring[..n] + ring[n..];
  }

  lemma StepKeepsInv<T>(s: State<T>, c: Setting<T>, e: Event<T>)
    requires Inv(s, c) && PushesSound(c, e)
    ensures Inv(Next(s, c, e), c)
  {
    match e {
      case Push(bytes) => PushKeepsInv(s, c, bytes);
      case Callback(arrivals) => CallbackKeepsInv(s, c, arrivals);
    }
  }

  lemma PushKeepsInv<T>(s: State<T>, c: Setting<T>, bytes: seq<T>)
    requires Inv(s, c) && PushesSound(c, Push(bytes))
    ensures Inv(Next(s, c, Push(bytes)), c)
  {
    PushKeepsWhole(s.fill.ring, c, bytes);
    MorePending(Sound(s.emitted, c.zero), Sound(s.fill.queue, c.zero), s.fill.ring,
      Pushed(s.fill.ring, c.capacity, bytes));
  }

  lemma MorePending<T>(emitted: seq<T>, queued: seq<T>, before: seq<T>, ring: seq<T>)
    requires before <= ring
    ensures emitted + (queued + before) + ring[|before|..] == emitted + (queued + ring)
  {
    assert ring == before + ring[|before|..];
  }

  lemma CallbackKeepsInv<T>(s: State<T>, c: Setting<T>, arrivals: seq<seq<T>>)
    requires Inv(s, c) && PushesSound(c, Callback(arrivals))
    ensures Inv(Next(s, c, Callback(arrivals)), c)
  {
    FilledKeepsSound(s.fill, c, arrivals);
    var f := Filled(s.fill, c.zero, c.needed, c.prefill, c.capacity, arrivals);
    EmittedIsTidy(s.emitted, f, c);
    Reassociate(Sound(s.emitted, c.zero), Pending(s.fill, c), AcceptedBy(s.fill, c, arrivals));
  }

  /** Emitting the first buffer of the queue. */
  lemma {:induction false} EmittedIsTidy<T>(emitted: seq<T>, f: Fill<T>, c: Setting<T>)
    requires c.Valid() && Tidy(f, c) && PureFrames(emitted, c.zero, c.frame) && |f.queue| >= c.needed
    ensures Tidy(f.(queue := f.queue[c.needed..]), c) && PureFrames(emitted + f.queue[..c.needed], c.zero, c.frame)
    ensures Sound(emitted + f.queue[..c.needed], c.zero) + Pending(f.(queue := f.queue[c.needed..]), c) ==
            Sound(emitted, c.zero) + Pending(f, c)
  {
    EmitOneBuffer(emitted, f.queue, c);
    Regroup(Sound(emitted, c.zero), Sound(f.queue[..c.needed], c.zero), Sound(f.queue[c.needed..], c.zero), f.ring);
  }

  lemma {:induction false} EmitOneBuffer<T>(emitted: seq<T>, queue: seq<T>, c: Setting<T>)
    requires c.Valid() && PureFrames(emitted, c.zero, c.frame) && PureFrames(queue, c.zero, c.frame) &&
      |queue| >= c.needed
    ensures PureFrames(emitted + queue[..c.needed], c.zero, c.frame) && PureFrames(queue[c.needed..], c.zero, c.frame)
    ensures Sound(emitted + queue[..c.needed], c.zero) == Sound(emitted, c.zero) + Sound(queue[..c.needed], c.zero)
    ensures Sound(queue, c.zero) == Sound(queue[..c.needed], c.zero) + Sound(queue[c.needed..], c.zero)
  {
    var n := c.needed;
    PureSplit(queue, n, c.zero, c.frame);
    PureConcat(emitted, queue[..n], c.zero, c.frame);
    SoundConcat(emitted, queue[..n], c.zero);
    SoundConcat(queue[..n], queue[n..], c.zero);
    assert queue == queue[..n] + queue[n..];
  }

  lemma Regroup<T>(e: seq<T>, a: seq<T>, b: seq<T>, r: seq<T>)
    ensures (e + a) + (b + r) == e + ((a + b) + r)
  {
  }

  function Run<T>(s: State<T>, c: Setting<T>, events: seq<Event<T>>): State<T>
    decreases |events|
  {
    if events == [] || |s.fill.ring| > c.capacity then s else Run(Next(s, c, events[0]), c, events[1..])
  }

  lemma {:induction false} RunKeepsInv<T>(s: State<T>, c: Setting<T>, events: seq<Event<T>>)
    requires Inv(s, c) && forall i :: 0 <= i < |events| ==> PushesSound(c, events[i])
    ensures Inv(Run(s, c, events), c)
    decreases |events|
  {
    if events != [] {
      StepKeepsInv(s, c, events[0]);
      RunKeepsInv(Next(s, c, events[0]), c, events[1..]);
    }
  }

  function Silent<T>(): State<T> { State(Fill([], [], false), [], []) }

  /** Over every run of pushes, complete or partial, and callbacks: what the device gets is, apart from silence, a
      prefix of what the ring buffer accepted; silence and sound change over at frames only; ring buffer and queue hold
      whole frames. */
  lemma {:induction false} SoundIsKept<T>(c: Setting<T>, events: seq<Event<T>>)
    requires c.Valid() && forall i :: 0 <= i < |events| ==> PushesSound(c, events[i])
    ensures var s := Run(Silent<T>(), c, events);
            Sound(s.emitted, c.zero) <= s.accepted &&
            PureFrames(s.emitted, c.zero, c.frame) &&
            Whole(|s.fill.ring|, c.frame) && Whole(|s.fill.queue|, c.frame)
  {
    RunKeepsInv(Silent<T>(), c, events);
    var s := Run(Silent<T>(), c, events);
    PureIsWhole(s.fill.queue, c.zero, c.frame);
    assert s.accepted == Sound(s.emitted, c.zero) + (Sound(s.fill.queue, c.zero) + s.fill.ring);
  }

  lemma {:induction false} SamePlace<T>(s: seq<T>, zero: T, frame: nat, i: nat)
    requires frame > 0 && PureFrames(s, zero, frame) && i < |s| && s[i] != zero
    ensures |Sound(s[..i], zero)| <= i && Whole(i - |Sound(s[..i], zero)|, frame)
    decreases i
  {
    if i < frame {
      SoundOfLoud(s[..i], zero);
    } else {
      SamePlace(s[frame..], zero, frame, i - frame);
      FirstFrameSound(s, zero, frame, i);
    }
  }

  /** The first frame is sound, which leaves the distance as it is, or silence, which makes it a frame longer. */
  lemma FirstFrameSound<T>(s: seq<T>, zero: T, frame: nat, i: nat)
    requires frame > 0 && PureFrames(s, zero, frame) && frame <= i <= |s|
    ensures var first, rest := |Sound(s[..frame], zero)|, |Sound(s[frame..][..i - frame], zero)|;
            |Sound(s[..i], zero)| == first + rest && (first == 0 || first == frame)
  {
    assert s[..i] == s[..frame] + s[frame..][..i - frame];
    SoundConcat(s[..frame], s[frame..][..i - frame], zero);
    if s[0] == zero {
      assert s[..frame] == Repeat(zero, frame);
      SoundOfSilence(zero, frame);
    } else {
      SoundOfLoud(s[..frame], zero);
    }
  }

  /** Channels never rotate: a byte of sound leaves a whole number of frames later than it was accepted, that is, at the
      same place within its frame. */
  lemma {:induction false} SoundNeverRotates<T>(c: Setting<T>, events: seq<Event<T>>, i: nat)
    requires c.Valid() && forall k :: 0 <= k < |events| ==> PushesSound(c, events[k])
    requires var s := Run(Silent<T>(), c, events); i < |s.emitted| && s.emitted[i] != c.zero
    ensures var s := Run(Silent<T>(), c, events);
            var j := |Sound(s.emitted[..i], c.zero)|;
            j < |s.accepted| && s.emitted[i] == s.accepted[j] && j <= i && Whole(i - j, c.frame)
  {
    SoundIsKept(c, events);
    SoundKeepsItsPlace(Run(Silent<T>(), c, events).emitted, Run(Silent<T>(), c, events).accepted, c.zero, c.frame, i);
  }

  lemma {:induction false} SoundKeepsItsPlace<T>(emitted: seq<T>, accepted: seq<T>, zero: T, frame: nat, i: nat)
    requires frame > 0 && PureFrames(emitted, zero, frame) && Sound(emitted, zero) <= accepted
    requires i < |emitted| && emitted[i] != zero
    ensures var j := |Sound(emitted[..i], zero)|;
            j < |accepted| && emitted[i] == accepted[j] && j <= i && Whole(i - j, frame)
  {
    SamePlace(emitted, zero, frame, i);
    SoundAt(emitted, zero, i);
  }

  lemma {:induction false} SoundAt<T>(s: seq<T>, zero: T, i: nat)
    requires i < |s| && s[i] != zero
    ensures |Sound(s[..i], zero)| < |Sound(s, zero)| && Sound(s, zero)[|Sound(s[..i], zero)|] == s[i]
  {
    assert s == s[..i] + ([s[i]] + s[i + 1..]);
    SoundConcat(s[..i], [s[i]] + s[i + 1..], zero);
    SoundConcat([s[i]], s[i + 1..], zero);
    SoundOfLoud([s[i]], zero);
  }

  // ---------------------------------------------------------------------------------------------
  // The contexts the driver's callbacks work on
  // ---------------------------------------------------------------------------------------------

  /** The driver's two buffers for one channel; it says at each call which one to use. */
  datatype BufferInfo<T> = BufferInfo(first: array?<T>, second: array?<T>)

  predicate CanServe<T>(infos: seq<BufferInfo<T>>, channels: nat, bufferIndex: int) {
    0 <= bufferIndex <= 1 && |infos| >= channels
  }

  function Selected<T>(infos: seq<BufferInfo<T>>, channels: nat, bufferIndex: int): (r: seq<array?<T>>)
    ensures CanServe(infos, channels, bufferIndex) ==> |r| == channels
  {
    if CanServe(infos, channels, bufferIndex)
    then seq(channels, c requires 0 <= c < |infos| => if bufferIndex == 0 then infos[c].first else infos[c].second)
    else []
  }

  function Firsts<T>(infos: seq<BufferInfo<T>>): (r: seq<array?<T>>)
    ensures |r| == |infos| && forall c :: 0 <= c < |infos| ==> r[c] == infos[c].first
  {
    seq(|infos|, c requires 0 <= c < |infos| => infos[c].first)
  }

  function Seconds<T>(infos: seq<BufferInfo<T>>): (r: seq<array?<T>>)
    ensures |r| == |infos| && forall c :: 0 <= c < |infos| ==> r[c] == infos[c].second
  {
    seq(|infos|, c requires 0 <= c < |infos| => infos[c].second)
  }

  /** The buffers of the driver, both of every channel, are different memory of the same size. */
  ghost predicate DoubleBuffered<T>(infos: seq<BufferInfo<T>>, length: nat) {
    && Separate(Firsts(infos), length) && Separate(Seconds(infos), length)
    && forall c, d :: 0 <= c < |infos| && 0 <= d < |infos| && infos[c].first != null ==>
       infos[c].first != infos[d].second
  }

  /** The buffers of one half, and that all others are different. */
  lemma OneHalf<T>(infos: seq<BufferInfo<T>>, channels: nat, bufferIndex: int, length: nat)
    requires DoubleBuffered(infos, length) && CanServe(infos, channels, bufferIndex)
    ensures Selected(infos, channels, bufferIndex) ==
      (if bufferIndex == 0 then Firsts(infos) else Seconds(infos))[..channels]
    ensures Separate(Selected(infos, channels, bufferIndex), length)
    ensures forall c :: 0 <= c < |infos| && bufferIndex == 0 && infos[c].second != null ==>
      infos[c].second !in Selected(infos, channels, bufferIndex)
    ensures forall c :: 0 <= c < |infos| && bufferIndex == 1 && infos[c].first != null ==>
      infos[c].first !in Selected(infos, channels, bufferIndex)
    ensures forall c :: channels <= c < |infos| && infos[c].first != null ==>
      infos[c].first !in Selected(infos, channels, bufferIndex)
    ensures forall c :: channels <= c < |infos| && infos[c].second != null ==>
      infos[c].second !in Selected(infos, channels, bufferIndex)
  {
    var all := if bufferIndex == 0 then Firsts(infos) else Seconds(infos);
    assert forall c :: 0 <= c < channels ==> Selected(infos, channels, bufferIndex)[c] == all[c];
    assert forall c, d :: 0 <= c < |infos| && 0 <= d < |infos| && c != d && Firsts(infos)[c] != null ==>
      Firsts(infos)[c] != Firsts(infos)[d];
    assert forall c, d :: 0 <= c < |infos| && 0 <= d < |infos| && c != d && Seconds(infos)[c] != null ==>
      Seconds(infos)[c] != Seconds(infos)[d];
  }

  class PlaybackContext<T> {
    const zero: T
    const numChannels: nat
    const bytesPerSample: nat
    const bufferSize: nat
    const targetLevel: nat
    const capacity: nat
    var ring: seq<T>
    var queue: seq<T>
    var running: bool

    /** The ring buffer has room for two chunks and 2048 frames more. */
    constructor (zero: T, numChannels: nat, bytesPerSample: nat, bufferSize: nat, targetLevel: nat, chunkSize: nat)
      ensures Now() == Fill([], [], false)
      ensures this.numChannels == numChannels && this.bytesPerSample == bytesPerSample && this.bufferSize == bufferSize
      ensures FrameBytes() == numChannels * bytesPerSample
      ensures Settings() == Setting(zero, FrameBytes(), bufferSize * FrameBytes(), targetLevel * FrameBytes(),
                                    (2 * chunkSize + 2048) * FrameBytes())
      ensures numChannels > 0 && bytesPerSample > 0 ==> Settings().Valid()
    {
      this.zero, this.numChannels, this.bytesPerSample := zero, numChannels, bytesPerSample;
      this.bufferSize, this.targetLevel := bufferSize, targetLevel;
      capacity := Times(2 * chunkSize + 2048, Times(numChannels, bytesPerSample));
      ring, queue, running := [], [], false;
      new;
      TimesIsProduct(numChannels, bytesPerSample);
      TimesIsProduct(bufferSize, FrameBytes());
      TimesIsProduct(targetLevel, FrameBytes());
      TimesIsProduct(2 * chunkSize + 2048, FrameBytes());
      if numChannels > 0 && bytesPerSample > 0 {
        TimesIsWhole(bufferSize, FrameBytes());
        TimesIsWhole(targetLevel, FrameBytes());
        TimesIsWhole(2 * chunkSize + 2048, FrameBytes());
      }
    }

    function FrameBytes(): nat { Times(numChannels, bytesPerSample) }

    function Settings(): Setting<T> {
      Setting(zero, FrameBytes(), Times(bufferSize, FrameBytes()), Times(targetLevel, FrameBytes()), capacity)
    }

    function Now(): Fill<T>
      reads this
    {
      Fill(queue, ring, running)
    }

    /** The playback thread adds a chunk, or as much of it as there is room for. */
    method Produce(bytes: seq<T>) returns (pushed: nat)
      requires |ring| <= capacity
      modifies this`ring
      ensures ring == Pushed(old(ring), capacity, bytes) && |ring| == |old(ring)| + pushed
      ensures Now() == Next(State(old(Now()), [], []), Settings(), Push(bytes)).fill
    {
      pushed := MinNat(capacity - |ring|, |bytes|);
      ring := ring + bytes[..pushed];
    }

    /** The loop ends whatever arrives meanwhile, with at least one whole buffer in the queue. */
    method FillQueue(arrivals: seq<seq<T>>)
      requires |ring| <= capacity
      modifies this
      ensures var c := Settings(); Now() == Filled(old(Now()), zero, c.needed, c.prefill, capacity, arrivals)
    {
      var needed := Settings().needed;
      var prefill := Settings().prefill;
      var left := arrivals;
      ghost var goal := Filled(Now(), zero, needed, prefill, capacity, arrivals);
      while |queue| < needed
        invariant |ring| <= capacity
        invariant Filled(Now(), zero, needed, prefill, capacity, left) == goal
        decreases Sub(needed, |queue|), if running then 0 else 1
      {
        ring := Arrive(ring, capacity, left);
        left := Later(left);
        var available := |ring|;
        if available == 0 {
          queue := queue + Repeat(zero, needed - |queue|);
          running := false;
          break;
        }
        if !running {
          running := true;
          queue := queue + Repeat(zero, prefill);
        }
        var toRead := MinNat(available, Sub(needed, |queue|));
        queue := queue + ring[..toRead];
        ring := ring[toRead..];
      }
    }

    /** One callback is one `Callback` step of the run: of the half of the buffers that the driver asks for, each that
        is
        there gets the samples of its channel in the frames emitted, exactly one buffer of frames leaves the queue, and
        no
        other buffer changes. */
    method BufferSwitch(infos: seq<BufferInfo<T>>, bufferIndex: int, arrivals: seq<seq<T>>)
      requires |ring| <= capacity && bytesPerSample > 0
      requires DoubleBuffered(infos, Times(bufferSize, bytesPerSample))
      modifies this, Firsts(infos), Seconds(infos)
      ensures (bufferIndex != 0 && bufferIndex != 1) || |infos| < numChannels ==> Now() == old(Now())
      ensures (bufferIndex == 0 || bufferIndex == 1) && |infos| >= numChannels ==>
        Now() == Next(State(old(Now()), [], []), Settings(), Callback(arrivals)).fill
      ensures forall c :: 0 <= c < |infos| && infos[c].first != null ==>
        infos[c].first[..] ==
          if bufferIndex == 0 && c < numChannels <= |infos| then
            Channel(Next(State(old(Now()), [], []), Settings(), Callback(arrivals)).emitted, c, numChannels,
              bytesPerSample)
          else old(infos[c].first[..])
      ensures forall c :: 0 <= c < |infos| && infos[c].second != null ==>
        infos[c].second[..] ==
          if bufferIndex == 1 && c < numChannels <= |infos| then
            Channel(Next(State(old(Now()), [], []), Settings(), Callback(arrivals)).emitted, c, numChannels,
              bytesPerSample)
          else old(infos[c].second[..])
    {
      if !CanServe(infos, numChannels, bufferIndex) { return; }
      OneHalf(infos, numChannels, bufferIndex, Times(bufferSize, bytesPerSample));
      var buffers := Selected(infos, numChannels, bufferIndex);
      FillQueue(arrivals);
      var split: nat :| split <= |queue|;
      assert queue[..split] + queue[split..] == queue;
      ghost var emitted := queue[..Settings().needed];
      assert [] + emitted == emitted;
      Deinterleave(queue[..split], queue[split..], buffers, bufferSize, bytesPerSample);
      queue := queue[Settings().needed..];
    }
  }

  /** A device loop: played through one buffer per channel and captured again, every frame comes back as it was. */
  method Loopback<T>(head: seq<T>, tail: seq<T>, buffers: seq<array?<T>>, scratch: array<T>, frames: nat, sample: nat)
    requires sample > 0 && Separate(buffers, Times(frames, sample)) && scratch !in buffers
    requires forall c :: 0 <= c < |buffers| ==> buffers[c] != null
    requires scratch.Length == Times(frames, Times(|buffers|, sample)) <= |head| + |tail|
    modifies buffers, scratch
    ensures scratch[..] == (head + tail)[..scratch.Length]
  {
    ghost var data := (head + tail)[..scratch.Length];
    Deinterleave(head, tail, buffers, frames, sample);
    InterleaveUndoesDeinterleave(data, |buffers|, sample, frames, scratch[..]);
    assert AllContents(buffers) == Channels(data, |buffers|, sample);
    Interleave(buffers, scratch, frames, sample);
  }
}
