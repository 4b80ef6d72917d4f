/** How much silence the playback callback puts into its queue, and when. */
module CallbackSilence {
  import opened Audio
  import opened Sounds
  import opened AsioCallbacks

  /** What was put into the queue: `lead` bytes of silence, the first bytes that were at hand, and silence for what was
      still missing after that, which happens only when everything at hand has been taken. */
  ghost predicate FilledWith<T>(f: Fill<T>, g: Fill<T>, c: Setting<T>, lead: nat, atHand: seq<T>) {
    |g.ring| <= |atHand| &&
    var data := |atHand| - |g.ring|;
    var missing := c.needed - |f.queue| - lead - data;
    && g.ring == atHand[data..]
    && g.queue == f.queue + Repeat(c.zero, lead) + atHand[..data] + Repeat(c.zero, if missing > 0 then missing else 0)
    && (missing > 0 ==> g.ring == [] && !g.running)
    && (missing <= 0 ==> g.running)
    && (data > 0 ==> missing >= 0)
  }

  lemma {:induction false} NothingToPlay<T>(f: Fill<T>, c: Setting<T>, arrivals: seq<seq<T>>)
    requires |f.ring| <= c.capacity && |f.queue| < c.needed && Arrive(f.ring, c.capacity, arrivals) == []
    ensures f.ring + AcceptedBy(f, c, arrivals) == []
    ensures FilledWith(f, Filled(f, c.zero, c.needed, c.prefill, c.capacity, arrivals), c, 0, [])
  {
    assert f.queue + Repeat(c.zero, 0) + [] == f.queue;
  }

  lemma EnoughAtHand<T>(f: Fill<T>, c: Setting<T>, ring: seq<T>)
    requires f.running && |f.queue| < c.needed && |ring| >= c.needed - |f.queue|
    ensures FilledWith(f, ReadOnce(f, ring, c.zero, c.needed, c.prefill), c, 0, ring)
  {
    var n := c.needed - |f.queue|;
    assert f.queue + Repeat(c.zero, 0) + ring[..n] + Repeat(c.zero, 0) == f.queue + ring[..n];
  }

  /** All that was at hand first is taken, and then more. */
  lemma TakenBefore<T>(f: Fill<T>, between: Fill<T>, g: Fill<T>, c: Setting<T>, ring: seq<T>, rest: seq<T>)
    requires between.queue == f.queue + ring && FilledWith(between, g, c, 0, rest)
    requires |between.queue| < c.needed
    ensures FilledWith(f, g, c, 0, ring + rest)
  {
    var data := |rest| - |g.ring|;
    var missing := c.needed - |between.queue| - data;
    assert (ring + rest)[|ring| + data..] == rest[data..];
    Regrouped(f.queue, ring, rest, data, c.zero, if missing > 0 then missing else 0);
  }

  lemma Regrouped<T>(queue: seq<T>, ring: seq<T>, rest: seq<T>, data: nat, zero: T, missing: nat)
    requires data <= |rest|
    ensures (queue + ring) + Repeat(zero, 0) + rest[..data] + Repeat(zero, missing) ==
            queue + Repeat(zero, 0) + (ring + rest)[..|ring| + data] + Repeat(zero, missing)
  {
    assert (ring + rest)[..|ring| + data] == ring + rest[..data];
  }

  /** One round of the loop, and the rest. */
  lemma {:induction false} OneRound<T>(f: Fill<T>, c: Setting<T>, arrivals: seq<seq<T>>)
    requires |f.ring| <= c.capacity && |f.queue| < c.needed && Arrive(f.ring, c.capacity, arrivals) != []
    ensures var ring := Arrive(f.ring, c.capacity, arrivals);
            var between := ReadOnce(f, ring, c.zero, c.needed, c.prefill);
            f.ring <= ring && |between.ring| <= c.capacity &&
            Filled(f, c.zero, c.needed, c.prefill, c.capacity, arrivals) ==
              Filled(between, c.zero, c.needed, c.prefill, c.capacity, Later(arrivals)) &&
            AcceptedBy(f, c, arrivals) == ring[|f.ring|..] + AcceptedBy(between, c, Later(arrivals))
  {
  }

  lemma {:induction false} LoopIsOver<T>(f: Fill<T>, c: Setting<T>, arrivals: seq<seq<T>>)
    requires |f.ring| <= c.capacity && |f.queue| >= c.needed
    ensures Filled(f, c.zero, c.needed, c.prefill, c.capacity, arrivals) == f && AcceptedBy(f, c, arrivals) == []
  {
  }

  lemma ReadAll<T>(f: Fill<T>, c: Setting<T>, ring: seq<T>)
    requires f.running && |f.queue| + |ring| < c.needed
    ensures ReadOnce(f, ring, c.zero, c.needed, c.prefill) == Fill(f.queue + ring, [], true)
  {
  }

  lemma ReadEnough<T>(f: Fill<T>, c: Setting<T>, ring: seq<T>)
    requires f.running && |f.queue| < c.needed <= |f.queue| + |ring|
    ensures |ReadOnce(f, ring, c.zero, c.needed, c.prefill).queue| == c.needed
  {
  }

  lemma NothingMore<T>(s: seq<T>)
    ensures s + [] == s && [] + s == s
  {
  }

  lemma {:induction false} RunningIsFilled<T>(f: Fill<T>, c: Setting<T>, arrivals: seq<seq<T>>)
    requires |f.ring| <= c.capacity && |f.queue| < c.needed && f.running
    ensures FilledWith(f, Filled(f, c.zero, c.needed, c.prefill, c.capacity, arrivals), c, 0,
                       f.ring + AcceptedBy(f, c, arrivals))
    decreases c.needed - |f.queue|
  {
    var ring := Arrive(f.ring, c.capacity, arrivals);
    if ring == [] {
      NothingToPlay(f, c, arrivals);
    } else {
      OneRound(f, c, arrivals);
      var between := ReadOnce(f, ring, c.zero, c.needed, c.prefill);
      var more := AcceptedBy(between, c, Later(arrivals));
      AtHand(f.ring, ring, more);
      if |f.queue| + |ring| >= c.needed {
        ReadEnough(f, c, ring);
        LoopIsOver(between, c, Later(arrivals));
        EnoughAtHand(f, c, ring);
        NothingMore(ring);
      } else {
        ReadAll(f, c, ring);
        RunningIsFilled(between, c, Later(arrivals));
        NothingMore(more);
        TakenBefore(f, between, Filled(between, c.zero, c.needed, c.prefill, c.capacity, Later(arrivals)), c, ring,
          more);
      }
    }
  }

  lemma AtHand<T>(before: seq<T>, ring: seq<T>, more: seq<T>)
    requires before <= ring
    ensures before + (ring[|before|..] + more) == ring + more
  {
    assert ring == before + ring[|before|..];
  }

  /** With the silence of a restart already in the queue. */
  function Led<T>(f: Fill<T>, c: Setting<T>): Fill<T> { Fill(f.queue + Repeat(c.zero, c.prefill), f.ring, true) }

  lemma LedIsFilled<T>(f: Fill<T>, g: Fill<T>, c: Setting<T>, atHand: seq<T>)
    requires FilledWith(Led(f, c), g, c, 0, atHand)
    ensures FilledWith(f, g, c, c.prefill, atHand)
  {
    var lead := f.queue + Repeat(c.zero, c.prefill);
    assert lead + Repeat(c.zero, 0) == lead;
  }

  lemma {:induction false} RestartIsFilled<T>(f: Fill<T>, c: Setting<T>, arrivals: seq<seq<T>>)
    requires |f.ring| <= c.capacity && |f.queue| < c.needed && !f.running && Arrive(f.ring, c.capacity, arrivals) != []
    ensures FilledWith(f, Filled(f, c.zero, c.needed, c.prefill, c.capacity, arrivals), c, c.prefill,
                       f.ring + AcceptedBy(f, c, arrivals))
  {
    var ring := Arrive(f.ring, c.capacity, arrivals);
    if |Led(f, c).queue| < c.needed {
      RunningIsFilled(Led(f, c), c, arrivals);
      LedIsFilled(f, Filled(f, c.zero, c.needed, c.prefill, c.capacity, arrivals), c, f.ring +
        AcceptedBy(f, c, arrivals));
    } else {
      AtHand(f.ring, ring, []);
      assert ring + [] == ring && ring[0..] == ring && Led(f, c).queue + ring[..0] == Led(f, c).queue;
      assert Led(f, c).queue + [] + Repeat(c.zero, 0) == Led(f, c).queue;
    }
  }

  /** A queue that is running gets silence only for what is missing when nothing is left in the ring buffer, whatever
      arrives meanwhile. A queue that starts again waits behind `prefill` bytes of silence, once there is something to
      play; a queue that does not is filled up with silence. */
  lemma {:induction false} SilenceWhenNeeded<T>(f: Fill<T>, c: Setting<T>, arrivals: seq<seq<T>>)
    requires |f.ring| <= c.capacity && |f.queue| < c.needed
    ensures FilledWith(f, Filled(f, c.zero, c.needed, c.prefill, c.capacity, arrivals), c,
                       if f.running || Arrive(f.ring, c.capacity, arrivals) == [] then 0 else c.prefill,
                       f.ring + AcceptedBy(f, c, arrivals))
  {
    if Arrive(f.ring, c.capacity, arrivals) == [] {
      NothingToPlay(f, c, arrivals);
    } else if f.running {
      RunningIsFilled(f, c, arrivals);
    } else {
      RestartIsFilled(f, c, arrivals);
    }
  }
}
