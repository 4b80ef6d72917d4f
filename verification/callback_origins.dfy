/** Where the bytes of the playback callback come from, for arbitrary bytes: bytes of the ring buffer are marked, so
    that they are told from the silence that is filled in also when they look like it. */
module CallbackOrigins {
  import opened Audio
  import opened Frames
  import opened Sounds
  import opened AsioCallbacks

  // ---------------------------------------------------------------------------------------------
  // Marks do not show
  // ---------------------------------------------------------------------------------------------

  function MarkedSetting<T>(c: Setting<T>): Setting<Option<T>> {
    Setting(None, c.frame, c.needed, c.prefill, c.capacity)
  }

  function MarkedAll<T>(arrivals: seq<seq<T>>): (r: seq<seq<Option<T>>>)
    ensures |r| == |arrivals|
  {
    seq(|arrivals|, i requires 0 <= i < |arrivals| => Marked(arrivals[i]))
  }

  function MarkedEvent<T>(e: Event<T>): Event<Option<T>> {
    match e
    case Push(bytes) => Push(Marked(bytes))
    case Callback(arrivals) => Callback(MarkedAll(arrivals))
  }

  function MarkedEvents<T>(events: seq<Event<T>>): (r: seq<Event<Option<T>>>)
    ensures |r| == |events|
  {
    seq(|events|, i requires 0 <= i < |events| => MarkedEvent(events[i]))
  }

  function PlainFill<T>(f: Fill<Option<T>>, zero: T): Fill<T> {
    Fill(Plain(f.queue, zero), Plain(f.ring, zero), f.running)
  }

  function PlainState<T>(s: State<Option<T>>, zero: T): State<T> {
    State(PlainFill(s.fill, zero), Plain(s.accepted, zero), Plain(s.emitted, zero))
  }

  lemma PushedPlain<T>(ring: seq<Option<T>>, capacity: nat, bytes: seq<T>, zero: T)
    requires |ring| <= capacity
    ensures Plain(Pushed(ring, capacity, Marked(bytes)), zero) == Pushed(Plain(ring, zero), capacity, bytes)
  {
    var n := MinNat(capacity - |ring|, |bytes|);
    PlainConcat(ring, Marked(bytes)[..n], zero);
    PlainSlice(Marked(bytes), 0, n, zero);
    PlainOfMarked(bytes, zero);
  }

  lemma ArrivePlain<T>(ring: seq<Option<T>>, capacity: nat, arrivals: seq<seq<T>>, zero: T)
    requires |ring| <= capacity
    ensures Plain(Arrive(ring, capacity, MarkedAll(arrivals)), zero) == Arrive(Plain(ring, zero), capacity, arrivals)
    ensures Later(MarkedAll(arrivals)) == MarkedAll(Later(arrivals))
  {
    if arrivals != [] {
      PushedPlain(ring, capacity, arrivals[0], zero);
    }
  }

  lemma ReadOncePlain<T>(f: Fill<Option<T>>, ring: seq<Option<T>>, zero: T, needed: nat, prefill: nat)
    ensures PlainFill(ReadOnce(f, ring, None, needed, prefill), zero) ==
            ReadOnce(PlainFill(f, zero), Plain(ring, zero), zero, needed, prefill)
  {
    var queue := if f.running then f.queue else f.queue + Repeat(None, prefill);
    PlainConcat(f.queue, Repeat(None, prefill), zero);
    PlainOfSilence(prefill, zero);
    var n := MinNat(|ring|, Sub(needed, |queue|));
    PlainConcat(queue, ring[..n], zero);
    PlainSlice(ring, 0, n, zero);
    PlainSlice(ring, n, |ring|, zero);
  }

  lemma {:induction false} FilledPlain<T>(f: Fill<Option<T>>, c: Setting<T>, arrivals: seq<seq<T>>)
    requires |f.ring| <= c.capacity
    ensures PlainFill(Filled(f, None, c.needed, c.prefill, c.capacity, MarkedAll(arrivals)), c.zero) ==
            Filled(PlainFill(f, c.zero), c.zero, c.needed, c.prefill, c.capacity, arrivals)
    decreases Sub(c.needed, |f.queue|), if f.running then 0 else 1
  {
    if |f.queue| < c.needed {
      var ring := Arrive(f.ring, c.capacity, MarkedAll(arrivals));
      ArrivePlain(f.ring, c.capacity, arrivals, c.zero);
      if ring == [] {
        PlainConcat(f.queue, Repeat(None, c.needed - |f.queue|), c.zero);
        PlainOfSilence(c.needed - |f.queue|, c.zero);
      } else {
        ReadOncePlain(f, ring, c.zero, c.needed, c.prefill);
        FilledPlain(ReadOnce(f, ring, None, c.needed, c.prefill), c, Later(arrivals));
      }
    }
  }

  lemma {:induction false} AcceptedPlain<T>(f: Fill<Option<T>>, c: Setting<T>, arrivals: seq<seq<T>>)
    requires |f.ring| <= c.capacity
    ensures Plain(AcceptedBy(f, MarkedSetting(c), MarkedAll(arrivals)), c.zero) ==
      AcceptedBy(PlainFill(f, c.zero), c, arrivals)
    decreases Sub(c.needed, |f.queue|), if f.running then 0 else 1
  {
    if |f.queue| < c.needed {
      var ring := Arrive(f.ring, c.capacity, MarkedAll(arrivals));
      ArrivePlain(f.ring, c.capacity, arrivals, c.zero);
      if ring != [] {
        var g := ReadOnce(f, ring, None, c.needed, c.prefill);
        ReadOncePlain(f, ring, c.zero, c.needed, c.prefill);
        AcceptedPlain(g, c, Later(arrivals));
        JoinedPlain(ring, |f.ring|, AcceptedBy(g, MarkedSetting(c), MarkedAll(Later(arrivals))), c.zero);
      }
    }
  }

  lemma JoinedPlain<T>(ring: seq<Option<T>>, from: nat, more: seq<Option<T>>, zero: T)
    requires from <= |ring|
    ensures Plain(ring[from..] + more, zero) == Plain(ring, zero)[from..] + Plain(more, zero)
  {
  }

  lemma PushPlain<T>(s: State<Option<T>>, c: Setting<T>, bytes: seq<T>)
    requires |s.fill.ring| <= c.capacity
    ensures PlainState(Next(s, MarkedSetting(c), Push(Marked(bytes))), c.zero) ==
      Next(PlainState(s, c.zero), c, Push(bytes))
  {
    var ring := Pushed(s.fill.ring, c.capacity, Marked(bytes));
    PushedPlain(s.fill.ring, c.capacity, bytes, c.zero);
    PlainConcat(s.accepted, ring[|s.fill.ring|..], c.zero);
    PlainSlice(ring, |s.fill.ring|, |ring|, c.zero);
  }

  lemma CallbackPlain<T>(s: State<Option<T>>, c: Setting<T>, arrivals: seq<seq<T>>)
    requires |s.fill.ring| <= c.capacity
    ensures PlainState(Next(s, MarkedSetting(c), Callback(MarkedAll(arrivals))), c.zero) ==
            Next(PlainState(s, c.zero), c, Callback(arrivals))
  {
    var f := Filled(s.fill, None, c.needed, c.prefill, c.capacity, MarkedAll(arrivals));
    FilledPlain(s.fill, c, arrivals);
    AcceptedPlain(s.fill, c, arrivals);
    PlainConcat(s.accepted, AcceptedBy(s.fill, MarkedSetting(c), MarkedAll(arrivals)), c.zero);
    PlainConcat(s.emitted, f.queue[..c.needed], c.zero);
    PlainSlice(f.queue, 0, c.needed, c.zero);
    PlainSlice(f.queue, c.needed, |f.queue|, c.zero);
  }

  /** Every run of the program is a run with marks, with the marks taken off. */
  lemma {:induction false} MarksDoNotShow<T>(s: State<Option<T>>, c: Setting<T>, events: seq<Event<T>>)
    requires |s.fill.ring| <= c.capacity
    ensures PlainState(Run(s, MarkedSetting(c), MarkedEvents(events)), c.zero) == Run(PlainState(s, c.zero), c, events)
    decreases |events|
  {
    if events != [] {
      match events[0] {
        case Push(bytes) => PushPlain(s, c, bytes);
        case Callback(arrivals) => CallbackPlain(s, c, arrivals);
      }
      assert MarkedEvents(events)[1..] == MarkedEvents(events[1..]);
      MarksDoNotShow(Next(s, MarkedSetting(c), MarkedEvent(events[0])), c, events[1..]);
    }
  }

  // ---------------------------------------------------------------------------------------------
  // Arbitrary bytes in whole frames
  // ---------------------------------------------------------------------------------------------

  /** Whatever is pushed, it comes in whole frames. */
  ghost predicate PushesFrames<T>(c: Setting<T>, e: Event<T>)
    requires c.frame > 0
  {
    match e
    case Push(bytes) => Whole(|bytes|, c.frame)
    case Callback(arrivals) => forall i :: 0 <= i < |arrivals| ==> Whole(|arrivals[i]|, c.frame)
  }

  lemma MarkedIsSound<T>(c: Setting<T>, e: Event<T>)
    requires c.frame > 0 && PushesFrames(c, e)
    ensures PushesSound(MarkedSetting(c), MarkedEvent(e))
  {
  }

  /** Filling the queue, with any bytes: those of the ring buffer go to the queue in order, none is lost, and what is
      filled in besides comes in whole frames. */
  lemma {:induction false} FillingKeepsFrames<T>(f: Fill<Option<T>>, c: Setting<T>, arrivals: seq<seq<T>>)
    requires c.Valid() && Tidy(f, MarkedSetting(c)) && PushesFrames(c, Callback(arrivals))
    ensures var g := Filled(f, None, c.needed, c.prefill, c.capacity, MarkedAll(arrivals));
            && PlainFill(g, c.zero) == Filled(PlainFill(f, c.zero), c.zero, c.needed, c.prefill, c.capacity, arrivals)
            && Tidy(g, MarkedSetting(c))
            && Pending(g, MarkedSetting(c)) ==
               Pending(f, MarkedSetting(c)) + AcceptedBy(f, MarkedSetting(c), MarkedAll(arrivals))
  {
    FilledPlain(f, c, arrivals);
    MarkedIsSound(c, Callback(arrivals));
    FilledKeepsSound(f, MarkedSetting(c), MarkedAll(arrivals));
  }

  /** The same run, with the bytes that are pushed marked. */
  function MarkedRun<T>(c: Setting<T>, events: seq<Event<T>>): State<Option<T>> {
    Run(Silent<Option<T>>(), MarkedSetting(c), MarkedEvents(events))
  }

  lemma {:induction false} RunIsPlain<T>(c: Setting<T>, events: seq<Event<T>>)
    ensures PlainState(MarkedRun(c, events), c.zero) == Run(Silent<T>(), c, events)
  {
    MarksDoNotShow(Silent<Option<T>>(), c, events);
    assert PlainState(Silent<Option<T>>(), c.zero) == Silent<T>();
  }

  lemma RunPushesSound<T>(c: Setting<T>, events: seq<Event<T>>)
    requires c.Valid() && forall i :: 0 <= i < |events| ==> PushesFrames(c, events[i])
    ensures forall i :: 0 <= i < |MarkedEvents(events)| ==> PushesSound(MarkedSetting(c), MarkedEvents(events)[i])
  {
    forall i | 0 <= i < |events| ensures PushesSound(MarkedSetting(c), MarkedEvents(events)[i]) {
      MarkedIsSound(c, events[i]);
    }
  }

  /** Each byte that left is either a byte that was accepted, or silence. */
  ghost predicate Explains<T>(origins: seq<Option<nat>>, emitted: seq<T>, accepted: seq<T>, zero: T) {
    |origins| == |emitted| &&
    forall i :: 0 <= i < |origins| ==>
      match origins[i]
      case None => emitted[i] == zero
      case Some(j) => j < |accepted| && emitted[i] == accepted[j]
  }

  lemma MarksExplain<T>(m: State<Option<T>>, zero: T)
    requires Sound(m.emitted, None) <= m.accepted
    ensures Explains(Origins(m.emitted), Plain(m.emitted, zero), Plain(m.accepted, zero), zero)
  {
    forall i | 0 <= i < |m.emitted| && m.emitted[i].Some?
      ensures var j := |Sound(m.emitted[..i], None)|; j < |m.accepted| && m.emitted[i] == m.accepted[j]
    {
      SoundAt(m.emitted, None, i);
    }
    forall i | 0 <= i < |m.emitted|
      ensures match Origins(m.emitted)[i]
              case None => Plain(m.emitted, zero)[i] == zero
              case Some(j) => j < |m.accepted| && Plain(m.emitted, zero)[i] == Plain(m.accepted, zero)[j]
    {
      OriginAt(m.emitted, i);
    }
  }

  lemma {:induction false} PureAlike<S, T>(a: seq<Option<S>>, b: seq<Option<T>>, frame: nat)
    requires frame > 0 && PureFrames(a, None, frame)
    requires |a| == |b| && forall i :: 0 <= i < |a| ==> (a[i].None? <==> b[i].None?)
    ensures PureFrames(b, None, frame)
    decreases |a|
  {
    if a != [] { PureAlike(a[frame..], b[frame..], frame); }
  }

  lemma {:induction false} OriginsArePure<T>(s: seq<Option<T>>, frame: nat)
    requires frame > 0 && PureFrames(s, None, frame)
    ensures PureFrames(Origins(s), None, frame)
  {
    forall i | 0 <= i < |s| ensures s[i].None? <==> Origins(s)[i].None? {
      OriginAt(s, i);
    }
    PureAlike(s, Origins(s), frame);
  }

  /** Over every run of pushes, complete or partial, of any bytes, and callbacks: the bytes that leave are those that
      the ring buffer accepted, in order and without a gap, and silence; silence and bytes change over at frames only;
      ring buffer and queue hold whole frames. */
  lemma {:induction false} PlaybackKeepsFrames<T>(c: Setting<T>, events: seq<Event<T>>)
    requires c.Valid() && forall i :: 0 <= i < |events| ==> PushesFrames(c, events[i])
    ensures var s := Run(Silent<T>(), c, events);
            var origins := Origins(MarkedRun(c, events).emitted);
            && Explains(origins, s.emitted, s.accepted, c.zero) && CountsUp(origins)
            && PureFrames(origins, None, c.frame)
            && |s.fill.ring| % c.frame == 0 && |s.fill.queue| % c.frame == 0
  {
    var m := MarkedRun(c, events);
    RunIsPlain(c, events);
    RunPushesSound(c, events);
    SoundIsKept(MarkedSetting(c), MarkedEvents(events));
    MarksExplain(m, c.zero);
    OriginsCountUp(m.emitted);
    OriginsArePure(m.emitted, c.frame);
    WholeIsMultiple(|m.fill.ring|, c.frame);
    WholeIsMultiple(|m.fill.queue|, c.frame);
  }

  /** Nothing gets lost on the way: what was accepted and has not left waits in the queue and in the ring buffer. */
  lemma {:induction false} AcceptedIsKept<T>(c: Setting<T>, events: seq<Event<T>>)
    requires c.Valid() && forall i :: 0 <= i < |events| ==> PushesFrames(c, events[i])
    ensures var s := Run(Silent<T>(), c, events);
            var m := MarkedRun(c, events);
            && PlainFill(m.fill, c.zero) == s.fill
            && s.accepted ==
               Plain(Sound(m.emitted, None), c.zero) + Plain(Sound(m.fill.queue, None), c.zero) + s.fill.ring
  {
    var m := MarkedRun(c, events);
    RunIsPlain(c, events);
    RunPushesSound(c, events);
    RunKeepsInv(Silent<Option<T>>(), MarkedSetting(c), MarkedEvents(events));
    PlainConcat(Sound(m.emitted, None), Sound(m.fill.queue, None) + m.fill.ring, c.zero);
    PlainConcat(Sound(m.fill.queue, None), m.fill.ring, c.zero);
    Reassociate(Plain(Sound(m.emitted, None), c.zero), Plain(Sound(m.fill.queue, None), c.zero),
      Plain(m.fill.ring, c.zero));
  }

  /** Channels never rotate: whatever the bytes are, each leaves at the place within its frame at which it was
      accepted. */
  lemma {:induction false} ChannelsNeverRotate<T>(c: Setting<T>, events: seq<Event<T>>, i: nat)
    requires c.Valid() && forall k :: 0 <= k < |events| ==> PushesFrames(c, events[k])
    requires i < |MarkedRun(c, events).emitted| && Origins(MarkedRun(c, events).emitted)[i].Some?
    ensures var s := Run(Silent<T>(), c, events);
            var j := Origins(MarkedRun(c, events).emitted)[i].value;
            i < |s.emitted| && j < |s.accepted| && s.emitted[i] == s.accepted[j] && j <= i && i % c.frame == j % c.frame
  {
    var m := MarkedRun(c, events);
    PlaybackKeepsFrames(c, events);
    RunPushesSound(c, events);
    OriginAt(m.emitted, i);
    SoundNeverRotates(MarkedSetting(c), MarkedEvents(events), i);
    SamePlaceInFrame(i, |Sound(m.emitted[..i], None)|, c.frame);
  }
}
