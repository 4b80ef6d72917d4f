/** The full-duplex session seen from outside: which contexts have been freed, and what was done to the stream, as the
    events tell it. */
module SessionEvents {
  import opened Audio
  import opened Rendezvous

  // ---------------------------------------------------------------------------------------------
  // Contexts
  // ---------------------------------------------------------------------------------------------

  /** The contexts that are freed in a run: each is the one that its side has made. */
  function FreedIn(s: State, events: seq<Event>): set<nat>
    requires Run(s, events).Some?
    decreases |events|
  {
    if events == [] then {}
    else
      (if events[0].Frees? && s.own.Get(events[0].x).Some? then {s.own.Get(events[0].x).value} else {})
      + FreedIn(Next(s, events[0]).value, events[1..])
  }

  lemma StepFrees(s: State, e: Event)
    requires Next(s, e).Some?
    ensures Next(s, e).value.freed ==
            s.freed + if e.Frees? && s.own.Get(e.x).Some? then {s.own.Get(e.x).value} else {}
  {
    if !IsSetup(e) && !e.Frees? { OthersFreeNothing(s, e); }
  }

  lemma OthersFreeNothing(s: State, e: Event)
    requires Next(s, e).Some? && !IsSetup(e) && !e.Frees?
    ensures Next(s, e).value.freed == s.freed
  {
  }

  lemma {:induction false} RunFrees(s: State, events: seq<Event>)
    requires Run(s, events).Some?
    ensures Run(s, events).value.freed == s.freed + FreedIn(s, events)
    decreases |events|
  {
    if events != [] {
      StepFrees(s, events[0]);
      RunFrees(Next(s, events[0]).value, events[1..]);
    }
  }

  /** Every context that was ever made has been freed, or belongs to a side that has not ended. */
  ghost predicate NoneIsLost(s: State) {
    forall i: nat :: i < s.nextContext ==> i in s.freed || s.own.playback == Some(i) || s.own.capture == Some(i)
  }

  /** The side still has its context, or has just freed it; new contexts are made by publishing only. */
  ghost predicate OwnsOn(s: State, t: State) {
    && s.freed <= t.freed && s.nextContext <= t.nextContext
    && (forall x: Side :: s.own.Get(x).Some? ==> t.own.Get(x) == s.own.Get(x) || s.own.Get(x).value in t.freed)
    && (forall i: nat :: s.nextContext <= i < t.nextContext ==> t.own.playback == Some(i) || t.own.capture == Some(i))
  }

  lemma OnlyPublishingMakes(s: State, e: Event)
    requires Next(s, e).Some? && IsSetup(e) && !e.Publishes?
    ensures var t := Next(s, e).value; t.freed == s.freed && t.nextContext == s.nextContext && t.own == s.own
  {
  }

  lemma SetupOwnsOn(s: State, e: Event)
    requires Inv(s) && Next(s, e).Some? && IsSetup(e)
    ensures OwnsOn(s, Next(s, e).value)
  {
    if !e.Publishes? { OnlyPublishingMakes(s, e); }
  }

  lemma TeardownOwnsOn(s: State, e: Event)
    requires Inv(s) && Next(s, e).Some? && !IsSetup(e)
    ensures OwnsOn(s, Next(s, e).value)
  {
  }

  lemma StaysFound(s: State, t: State)
    requires NoneIsLost(s) && OwnsOn(s, t)
    ensures NoneIsLost(t)
  {
    forall i: nat | i < t.nextContext ensures i in t.freed || t.own.playback == Some(i) || t.own.capture == Some(i) {
      if i < s.nextContext && i !in s.freed {
        var x := if s.own.playback == Some(i) then Playback else Capture;
        assert s.own.Get(x) == Some(i);
      }
    }
  }

  lemma {:induction false} RunLosesNone(s: State, events: seq<Event>)
    requires Inv(s) && NoneIsLost(s) && Run(s, events).Some?
    ensures NoneIsLost(Run(s, events).value)
    decreases |events|
  {
    if events != [] {
      var t := Next(s, events[0]).value;
      if IsSetup(events[0]) { SetupOwnsOn(s, events[0]); } else { TeardownOwnsOn(s, events[0]); }
      StaysFound(s, t);
      StepKeepsInv(s, events[0]);
      RunLosesNone(t, events[1..]);
    }
  }

  /** In every interleaving over any number of sessions, told by the events alone: the driver never works on a context
      that has been freed, no context is freed twice, and when both sides have ended every context is freed. */
  lemma {:induction false} EveryContextIsFreedOnce(events: seq<Event>)
    requires Run(Nobody, events).Some?
    ensures var s := Run(Nobody, events).value;
            var freed := FreedIn(Nobody, events);
            (InUse(s.driver).Some? ==> InUse(s.driver).value !in freed) &&
            (forall x: Side :: s.at.Get(x).Free? ==> s.own.Get(x).Some? && s.own.Get(x).value !in freed) &&
            (s.at == Pair(Ended, Ended) ==> forall i: nat :: i in freed <==> i < s.nextContext)
  {
    NobodyIsInv();
    RunFrees(Nobody, events);
    RunKeepsInv(Nobody, events);
    RunLosesNone(Nobody, events);
    var s := Run(Nobody, events).value;
    assert ContextIsRight(s, Playback) && ContextIsRight(s, Capture);
  }

  /** While both sides stream, a callback finds the contexts of both. */
  lemma {:induction false} StreamingIsServed(events: seq<Event>)
    requires Run(Nobody, events).Some? && Run(Nobody, events).value.at == Pair(Streaming, Streaming)
    ensures var s := Run(Nobody, events).value;
            s.attached && s.own.playback.Some? && s.own.capture.Some? &&
            (s.driver.Quiet? ==> Next(s, CallsBack) == Some(s.(driver := InPlayback(s.own.playback)))) &&
            (s.driver.Between? ==> Next(s, LoadsCapture) == Some(s.(driver := InCapture(s.own.capture))))
  {
    NobodyIsInv();
    RunKeepsInv(Nobody, events);
  }

  // ---------------------------------------------------------------------------------------------
  // The stream
  // ---------------------------------------------------------------------------------------------

  datatype Tally = Tally(creates: nat, patches: nat, starts: nat, stops: nat, disposes: nat)

  const Untold: Tally := Tally(0, 0, 0, 0, 0)

  /** What has been done to the stream since the session began. */
  function Told(t: Tally, e: Event): Tally {
    match e
    case Creates(_, ok) => if ok then t.(creates := t.creates + 1) else t
    case Patches(_) => t.(patches := t.patches + 1)
    case Starts(_, ok) => if ok then t.(starts := t.starts + 1) else t
    case StopsStream(_) => t.(stops := t.stops + 1)
    case Disposes(_) => t.(disposes := t.disposes + 1)
    case NewSession => Untold
    case _ => t
  }

  function ToldAll(t: Tally, events: seq<Event>): Tally
    decreases |events|
  {
    if events == [] then t else ToldAll(Told(t, events[0]), events[1..])
  }

  /** The tally is what the state counts, and the addresses were written before the start. */
  ghost predicate Agrees(s: State, t: Tally) {
    && Counts(s, t.creates, t.starts, t.stops, t.disposes) && t.patches <= t.creates
    && (s.phase.SettingUp? && s.holder.Some? ==>
          t.patches == if s.at.Get(s.holder.value).Start? || s.at.Get(s.holder.value).Commit? then 1 else 0)
    && (s.phase.Gathering? ==> t.patches == 0)
    && (s.phase.Live? || s.phase.Stopped? || s.phase.Disposed? ==> t.patches == 1)
  }

  lemma CreatingAgrees(s: State, x: Side, ok: bool, t: Tally)
    requires Inv(s) && Agrees(s, t) && CreatesStep(s, x, ok).Some?
    ensures Agrees(CreatesStep(s, x, ok).value, Told(t, Creates(x, ok)))
  {
  }

  lemma StartingAgrees(s: State, x: Side, ok: bool, t: Tally)
    requires Inv(s) && Agrees(s, t) && StartsStep(s, x, ok).Some?
    ensures Agrees(StartsStep(s, x, ok).value, Told(t, Starts(x, ok)))
  {
  }

  lemma PatchingAgrees(s: State, x: Side, t: Tally)
    requires Inv(s) && Agrees(s, t)
    ensures PatchesStep(s, x).Some? ==> Agrees(PatchesStep(s, x).value, Told(t, Patches(x)))
    ensures CommitsStep(s, x).Some? ==> Agrees(CommitsStep(s, x).value, t)
  {
  }

  lemma GatheringAgrees(s: State, e: Event, t: Tally)
    requires Inv(s) && Agrees(s, t) && Next(s, e).Some?
    requires e.Opens? || e.Refuses? || e.Publishes? || e.Registers? || e.Wakes?
    ensures Agrees(Next(s, e).value, t)
  {
  }

  lemma SetupAgrees(s: State, e: Event, t: Tally)
    requires Inv(s) && Agrees(s, t) && Next(s, e).Some? && IsSetup(e)
    ensures Agrees(Next(s, e).value, Told(t, e))
  {
    match e
    case Creates(x, ok) => CreatingAgrees(s, x, ok, t);
    case Starts(x, ok) => StartingAgrees(s, x, ok, t);
    case Patches(x) => PatchingAgrees(s, x, t);
    case Commits(x) => PatchingAgrees(s, x, t);
    case _ => GatheringAgrees(s, e, t);
  }

  lemma TeardownAgrees(s: State, e: Event, t: Tally)
    requires Inv(s) && Agrees(s, t) && Next(s, e).Some? && !IsSetup(e)
    ensures Agrees(Next(s, e).value, Told(t, e))
  {
  }

  lemma {:induction false} RunAgrees(s: State, events: seq<Event>, t: Tally)
    requires Inv(s) && Agrees(s, t) && Run(s, events).Some?
    ensures Agrees(Run(s, events).value, ToldAll(t, events))
    decreases |events|
  {
    if events != [] {
      if IsSetup(events[0]) { SetupAgrees(s, events[0], t); } else { TeardownAgrees(s, events[0], t); }
      StepKeepsInv(s, events[0]);
      RunAgrees(Next(s, events[0]).value, events[1..], Told(t, events[0]));
    }
  }

  /** Told by the events alone: in a session the buffers are created, their addresses written into the contexts, the
      stream started, stopped and disposed of, at most once each and in this order; the driver may call back exactly
      between the start and the disposal; and a session
      whose stream was on ends with all of this done. */
  lemma {:induction false} StreamIsHandledOnce(events: seq<Event>)
    requires Run(Nobody, events).Some?
    ensures var s := Run(Nobody, events).value;
            var t := ToldAll(Untold, events);
            t.disposes <= t.stops <= t.starts <= t.patches <= t.creates <= 1 &&
            (s.attached <==> t.starts == 1 && t.disposes == 0) &&
            (s.at == Pair(Ended, Ended) && t.starts == 1 ==> t == Tally(1, 1, 1, 1, 1) && NewSessionStep(s).Some?)
  {
    NobodyIsInv();
    RunKeepsInv(Nobody, events);
    RunAgrees(Nobody, events, Untold);
  }
}
