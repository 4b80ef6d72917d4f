/** What becomes of the chunks on their way from capture through processing to playback. */
module ThreadFlow {
  import opened Audio
  import opened Threads

  // ---------------------------------------------------------------------------------------------
  // What goes in and what comes out
  // ---------------------------------------------------------------------------------------------

  /** The chunk that capture reads in this step: it polls, and is neither told to exit nor left alone. */
  function Reads(s: State, e: Event): seq<nat> {
    if e.OfCapture? && e.c.Polls? && s.capture.CPoll? && e.c.found.Sound? &&
       (if s.commands != [] then !s.commands[0].ExitCommand? else !s.supervisor.SReturned?)
    then [e.c.found.number]
    else []
  }

  /** The chunk that playback writes in this step. */
  function WritesOut(s: State, e: Event): seq<nat> {
    if e.OfPlayback? && e.b.Writes? && s.playback.BWrite? then [s.playback.number] else []
  }

  function Captured(s: State, run: seq<Event>): seq<nat>
    requires Run(s, run).Some?
    decreases |run|
  {
    if run == [] then [] else Reads(s, run[0]) + Captured(Next(s, run[0]).value, run[1..])
  }

  function Written(s: State, run: seq<Event>): seq<nat>
    requires Run(s, run).Some?
    decreases |run|
  {
    if run == [] then [] else WritesOut(s, run[0]) + Written(Next(s, run[0]).value, run[1..])
  }

  // ---------------------------------------------------------------------------------------------
  // What is on its way
  // ---------------------------------------------------------------------------------------------

  function One(x: Item): seq<nat> { if x.Sound? then [x.number] else [] }

  function Sounds(q: seq<Item>): seq<nat> { if q == [] then [] else One(q[0]) + Sounds(q[1..]) }

  lemma {:induction false} SoundsOfMore(q: seq<Item>, x: Item)
    ensures Sounds(q + [x]) == Sounds(q) + One(x)
  {
    if q == [] {
      assert q + [x] == [x] && [x][1..] == [];
      Nothing(One(x));
    } else {
      assert (q + [x])[1..] == q[1..] + [x];
      SoundsOfMore(q[1..], x);
      Grouped(One(q[0]), Sounds(q[1..]), One(x));
    }
  }

  lemma Nothing(a: seq<nat>)
    ensures [] + a == a && a + [] == a
  {
  }

  lemma Grouped(a: seq<nat>, b: seq<nat>, c: seq<nat>)
    ensures (a + b) + c == a + (b + c)
  {
  }

  function InCapture(c: Capture): seq<nat> { if c.CSend? then One(c.item) else [] }

  function InProcessing(p: Processing): seq<nat> { if p.PSend? then One(p.item) else [] }

  function InPlayback(b: Playback): seq<nat> { if b.BWrite? then [b.number] else [] }

  /** Oldest first: what is on its way to playback behind the processing thread, and before it. */
  function Behind(s: State): seq<nat> { InPlayback(s.playback) + Sounds(s.toPlayback) }

  function Before(s: State): seq<nat> {
    InProcessing(s.processing) + (Sounds(s.toProcessing) + InCapture(s.capture))
  }

  /** Playback has got the end of the stream, and is about to report that or has done so. */
  predicate GotEnd(s: State) { s.playback.BReport? || (s.playback.BExited? && s.playbackOk) }

  /** The end comes last in its queue. */
  ghost predicate EndIsLast(q: seq<Item>) { forall i :: 0 <= i < |q| - 1 ==> !q[i].EndOfStream? }

  ghost predicate EndsComeLast(s: State) {
    && EndIsLast(s.toProcessing) && EndIsLast(s.toPlayback)
    && (s.processing.PSendEnd? ==> Sounds(s.toProcessing) == [])
    && (GotEnd(s) ==> s.toPlayback == [])
  }

  /** The end of the stream waits for playback, or playback has got it. */
  ghost predicate EndHandedOn(s: State) { EndOfStream in s.toPlayback || GotEnd(s) }

  /** No thread leaves the next one without an end: the processing thread ends when it has handed the end on, or when
      there is no playback, and capture when it has sent it. So playback never finds its queue broken. */
  ghost predicate EndsArrive(s: State) {
    && (EndHandedOn(s) ==> s.processing.PExited?)
    && (s.processing.PExited? ==> EndHandedOn(s) || !s.playbackOk)
    && (!s.playbackOk ==> s.playback.BBarrier? || s.playback.BExited?)
    && !s.playback.BComplain?
    && (s.capture.CReport? ==> EndOfStream in s.toProcessing || s.processing.PSendEnd? || s.processing.PExited?)
  }

  lemma CaptureKeepsEnds(s: State, e: CaptureEvent)
    requires Inv(s) && EndsArrive(s) && CaptureStep(s, e).Some?
    ensures EndsArrive(CaptureStep(s, e).value)
  {
    if e.SendsEnd? { Appended(s.toProcessing, EndOfStream); }
  }

  lemma ProcessingKeepsEnds(s: State, e: ProcessingEvent)
    requires Inv(s) && EndsArrive(s) && EndsComeLast(s) && ProcessingStep(s, e).Some?
    ensures EndsArrive(ProcessingStep(s, e).value)
  {
    match e
    case Receives =>
      if s.toProcessing != [] {
        assert EndOfStream in s.toProcessing ==> s.toProcessing[|s.toProcessing| - 1].EndOfStream?;
        assert |s.toProcessing| > 1 ==>
          s.toProcessing[1..][|s.toProcessing| - 2] == s.toProcessing[|s.toProcessing| - 1];
      }
    case Forwards => if |s.toPlayback| < s.limit { Appended(s.toPlayback, s.processing.item); }
    case ForwardsEnd => if |s.toPlayback| < s.limit { Appended(s.toPlayback, EndOfStream); }
    case _ =>
  }

  lemma PlaybackKeepsEnds(s: State, e: PlaybackEvent)
    requires Inv(s) && EndsArrive(s) && EndsComeLast(s) && PlaybackStep(s, e).Some?
    ensures EndsArrive(PlaybackStep(s, e).value)
  {
    match e
    case Takes =>
      if s.toPlayback != [] {
        assert EndOfStream in s.toPlayback ==> s.toPlayback[|s.toPlayback| - 1].EndOfStream?;
        assert |s.toPlayback| > 1 ==> s.toPlayback[1..][|s.toPlayback| - 2] == s.toPlayback[|s.toPlayback| - 1];
        assert EndOfStream in s.toPlayback[1..] ==> EndOfStream in s.toPlayback;
      }
    case _ =>
  }

  lemma BarrierKeepsEnds(s: State)
    requires Inv(s) && EndsArrive(s) && BarrierStep(s).Some?
    ensures EndsArrive(BarrierStep(s).value)
  {
  }

  lemma SupervisorKeepsEnds(s: State, e: SupervisorEvent)
    requires EndsArrive(s) && SupervisorStep(s, e).Some? && LeftAlone(s, SupervisorStep(s, e).value)
    ensures EndsArrive(SupervisorStep(s, e).value)
  {
  }

  /** As long as the processing thread runs, everything that was captured is written or on its way. When it has ended,
      that
      still holds if it has sent the end; otherwise chunks are missing at the end only. */
  ghost predicate Flows(s: State, captured: seq<nat>, written: seq<nat>) {
    if !s.processing.PExited? then captured == written + (Behind(s) + Before(s))
    else
      written + Behind(s) <= captured &&
      (EndHandedOn(s) ==> written + Behind(s) == captured)
  }

  // ---------------------------------------------------------------------------------------------
  // Every step keeps it
  // ---------------------------------------------------------------------------------------------

  ghost predicate Flowing(s: State, captured: seq<nat>, written: seq<nat>) {
    EndsComeLast(s) && EndsArrive(s) && Flows(s, captured, written)
  }

  /** The same chunks are at the same places. */
  ghost predicate SamePlaces(s: State, t: State) {
    && t.toProcessing == s.toProcessing && t.toPlayback == s.toPlayback
    && InCapture(t.capture) == InCapture(s.capture)
    && (t.processing == s.processing ||
        (InProcessing(t.processing) == InProcessing(s.processing) && !t.processing.PExited? && !s.processing.PExited? &&
         !t.processing.PSendEnd?))
    && InPlayback(t.playback) == InPlayback(s.playback) && (GotEnd(t) ==> GotEnd(s))
  }

  lemma SamePlacesFlow(s: State, t: State, captured: seq<nat>, written: seq<nat>)
    requires SamePlaces(s, t) && Flowing(s, captured, written) && EndsArrive(t)
    ensures Flowing(t, captured + [], written + [])
  {
    Nothing(captured);
    Nothing(written);
  }

  lemma OneMoreRead(written: seq<nat>, behind: seq<nat>, held: seq<nat>, queued: seq<nat>, x: seq<nat>)
    ensures written + (behind + (held + (queued + []))) + x == written + (behind + (held + (queued + x)))
  {
  }

  lemma LongerPrefix(a: seq<nat>, b: seq<nat>, x: seq<nat>)
    requires a <= b
    ensures a <= b + x
  {
  }

  lemma PollsFlow(s: State, found: Item, captured: seq<nat>, written: seq<nat>)
    requires Inv(s) && CapturePolls(s, found).Some? && Flowing(s, captured, written)
    ensures var e := OfCapture(Polls(found));
            Flowing(CapturePolls(s, found).value, captured + Reads(s, e), written + WritesOut(s, e))
  {
    CaptureKeepsEnds(s, Polls(found));
    var t := CapturePolls(s, found).value;
    var x := Reads(s, OfCapture(Polls(found)));
    Nothing(written);
    assert InCapture(s.capture) == [] && InCapture(t.capture) == x;
    if !s.processing.PExited? {
      OneMoreRead(written, Behind(s), InProcessing(s.processing), Sounds(s.toProcessing), x);
    } else {
      LongerPrefix(written + Behind(s), captured, x);
      assert !EndHandedOn(s);
    }
  }

  lemma SendsFlow(s: State, captured: seq<nat>, written: seq<nat>)
    requires Inv(s) && CaptureSends(s).Some? && Flowing(s, captured, written)
    ensures Flowing(CaptureSends(s).value, captured + [], written + [])
  {
    CaptureKeepsEnds(s, Sends);
    Nothing(captured);
    Nothing(written);
    if !s.processing.PExited? {
      var item := s.capture.item;
      SoundsOfMore(s.toProcessing, item);
      Nothing(Sounds(s.toProcessing + [item]));
      assert EndOfStream !in s.toProcessing;
    }
  }

  lemma SendsEndFlow(s: State, captured: seq<nat>, written: seq<nat>)
    requires Inv(s) && CaptureSendsEnd(s).Some? && Flowing(s, captured, written)
    ensures Flowing(CaptureSendsEnd(s).value, captured + [], written + [])
  {
    CaptureKeepsEnds(s, SendsEnd);
    Nothing(captured);
    Nothing(written);
    if !s.processing.PExited? {
      SoundsOfMore(s.toProcessing, EndOfStream);
      Nothing(Sounds(s.toProcessing));
      assert EndOfStream !in s.toProcessing;
    }
  }

  /** The first item of the queue is in the hands of the processing thread now. */
  lemma {:induction false} FirstTakenOut(q: seq<Item>, held: seq<nat>)
    requires q != [] && EndIsLast(q)
    ensures EndIsLast(q[1..])
    ensures [] + (Sounds(q) + held) == One(q[0]) + (Sounds(q[1..]) + held)
    ensures q[0].EndOfStream? ==> q[1..] == [] && [] + (Sounds(q) + held) == held
  {
    Nothing(Sounds(q) + held);
    Grouped(One(q[0]), Sounds(q[1..]), held);
    Nothing(held);
    assert forall i :: 0 <= i < |q| - 1 ==> q[1..][i] == q[i + 1];
  }

  lemma ReceivesFlow(s: State, captured: seq<nat>, written: seq<nat>)
    requires Inv(s) && ProcessingReceives(s).Some? && Flowing(s, captured, written)
    ensures Flowing(ProcessingReceives(s).value, captured + [], written + [])
  {
    ProcessingKeepsEnds(s, Receives);
    Nothing(captured);
    Nothing(written);
    if s.toProcessing != [] {
      FirstTakenOut(s.toProcessing, InCapture(s.capture));
      Nothing(InCapture(s.capture));
    }
  }

  /** What is handed on moves from before the processing thread to behind it. */
  lemma HandedOn(written: seq<nat>, front: seq<nat>, queued: seq<nat>, x: seq<nat>, before: seq<nat>)
    ensures written + ((front + queued) + (x + before)) == written + ((front + (queued + x)) + ([] + before))
    ensures written + (front + queued) <= written + ((front + queued) + (x + before))
  {
  }

  lemma ForwardsFlow(s: State, captured: seq<nat>, written: seq<nat>)
    requires Inv(s) && ProcessingForwards(s).Some? && Flowing(s, captured, written)
    ensures Flowing(ProcessingForwards(s).value, captured + [], written + [])
  {
    ProcessingKeepsEnds(s, Forwards);
    Nothing(captured);
    Nothing(written);
    var item := s.processing.item;
    HandedOn(written, InPlayback(s.playback), Sounds(s.toPlayback), One(item),
      Sounds(s.toProcessing) + InCapture(s.capture));
    if !s.playback.BExited? {
      SoundsOfMore(s.toPlayback, item);
      assert EndOfStream !in s.toPlayback;
    }
  }

  lemma ForwardsEndFlow(s: State, captured: seq<nat>, written: seq<nat>)
    requires Inv(s) && ProcessingForwardsEnd(s).Some? && Flowing(s, captured, written)
    ensures Flowing(ProcessingForwardsEnd(s).value, captured + [], written + [])
  {
    ProcessingKeepsEnds(s, ForwardsEnd);
    Nothing(captured);
    Nothing(written);
    assert Before(s) == [];
    Nothing(Behind(s));
    if !s.playback.BExited? {
      SoundsOfMore(s.toPlayback, EndOfStream);
      Nothing(Sounds(s.toPlayback));
      assert EndOfStream !in s.toPlayback;
    }
  }

  lemma TakesFlow(s: State, captured: seq<nat>, written: seq<nat>)
    requires Inv(s) && PlaybackTakes(s).Some? && Flowing(s, captured, written)
    ensures Flowing(PlaybackTakes(s).value, captured + [], written + [])
  {
    PlaybackKeepsEnds(s, Takes);
    Nothing(captured);
    Nothing(written);
    if s.toPlayback != [] {
      var x, rest := s.toPlayback[0], s.toPlayback[1..];
      Nothing(One(x) + Sounds(rest));
      Nothing(Sounds(rest));
      assert EndOfStream in rest ==> EndOfStream in s.toPlayback;
      assert x.EndOfStream? ==> rest == [];
    }
  }

  lemma WritesFlow(s: State, ok: bool, wantsSpeed: bool, captured: seq<nat>, written: seq<nat>)
    requires Inv(s) && PlaybackWrites(s, ok, wantsSpeed).Some? && Flowing(s, captured, written)
    ensures var e := OfPlayback(Writes(ok, wantsSpeed));
            Flowing(PlaybackWrites(s, ok, wantsSpeed).value, captured + Reads(s, e), written + WritesOut(s, e))
  {
    PlaybackKeepsEnds(s, Writes(ok, wantsSpeed));
    var x := [s.playback.number];
    Nothing(captured);
    Nothing(Sounds(s.toPlayback));
    Grouped(written, x, Sounds(s.toPlayback));
    Grouped(written, x + Sounds(s.toPlayback), Before(s));
    Grouped(written + x, Sounds(s.toPlayback), Before(s));
  }

  lemma CaptureStays(s: State, e: CaptureEvent)
    requires (e.Opens? || e.Reports?) && CaptureStep(s, e).Some?
    ensures SamePlaces(s, CaptureStep(s, e).value)
  {
  }

  lemma ProcessingStays(s: State, e: ProcessingEvent)
    requires (e.GetsReady? || e.LooksForConfig?) && ProcessingStep(s, e).Some?
    ensures SamePlaces(s, ProcessingStep(s, e).value)
  {
  }

  lemma PlaybackStays(s: State, e: PlaybackEvent)
    requires !e.Takes? && !e.Writes? && PlaybackStep(s, e).Some? && !s.playback.BComplain?
    ensures SamePlaces(s, PlaybackStep(s, e).value)
  {
  }

  /** The supervisor moves no chunk. */
  ghost predicate LeftAlone(s: State, t: State) {
    && t.capture == s.capture && t.processing == s.processing && t.playback == s.playback
    && t.toProcessing == s.toProcessing && t.toPlayback == s.toPlayback && t.playbackOk == s.playbackOk
  }

  lemma SendingLeavesAlone(s: State, c: Command)
    ensures LeftAlone(s, Send(s, c))
  {
  }

  lemma WaitingLeavesAlone(s: State, next: AfterBarrier)
    ensures LeftAlone(s, WaitIfStarting(s, next)) && LeftAlone(s, WaitIfBothReady(s))
  {
  }

  lemma ReadinessLeavesAlone(s: State)
    ensures LeftAlone(s, Hear(s, PlaybackReady)) && LeftAlone(s, Hear(s, CaptureReady))
  {
    WaitingLeavesAlone(s.(playbackReady := true), ThenRun);
    WaitingLeavesAlone(s.(captureReady := true), ThenRun);
  }

  lemma ErrorsLeaveAlone(s: State)
    ensures LeftAlone(s, Hear(s, PlaybackError)) && LeftAlone(s, Hear(s, CaptureError))
  {
    SendingLeavesAlone(s, ExitCommand);
    WaitingLeavesAlone(Send(s, ExitCommand), ThenJoinCapture);
    WaitingLeavesAlone(s, ThenJoinPlayback);
  }

  lemma RequestsLeaveAlone(s: State)
    ensures LeftAlone(s, Hear(s, PlaybackDone)) && LeftAlone(s, Hear(s, CaptureDone))
    ensures LeftAlone(s, Hear(s, SpeedRequest))
  {
    SendingLeavesAlone(s, SetSpeed);
  }

  lemma HearingLeavesAlone(s: State, status: Status)
    ensures LeftAlone(s, Hear(s, status))
  {
    ReadinessLeavesAlone(s);
    ErrorsLeaveAlone(s);
    RequestsLeaveAlone(s);
  }

  lemma ObeyingLeavesAlone(s: State, control: Control)
    requires SupervisorObeys(s, control).Some?
    ensures LeftAlone(s, SupervisorObeys(s, control).value)
  {
  }

  lemma SupervisorLeavesAlone(s: State, e: SupervisorEvent)
    requires SupervisorStep(s, e).Some?
    ensures LeftAlone(s, SupervisorStep(s, e).value)
  {
    match e
    case Hears => HearingLeavesAlone(s.(statuses := s.statuses[1..]), s.statuses[0]);
    case Obeys(control) => ObeyingLeavesAlone(s, control);
    case Joins =>
    case FindsAllGone =>
  }

  lemma BarrierStays(s: State)
    requires BarrierStep(s).Some?
    ensures SamePlaces(s, BarrierStep(s).value)
  {
  }

  lemma CaptureFlows(s: State, e: CaptureEvent, captured: seq<nat>, written: seq<nat>)
    requires Inv(s) && CaptureStep(s, e).Some? && Flowing(s, captured, written)
    ensures Flowing(CaptureStep(s, e).value, captured + Reads(s, OfCapture(e)), written + WritesOut(s, OfCapture(e)))
  {
    match e
    case Polls(found) => PollsFlow(s, found, captured, written);
    case Sends => SendsFlow(s, captured, written);
    case SendsEnd => SendsEndFlow(s, captured, written);
    case _ =>
      CaptureStays(s, e);
      CaptureKeepsEnds(s, e);
      SamePlacesFlow(s, CaptureStep(s, e).value, captured, written);
  }

  lemma ProcessingFlows(s: State, e: ProcessingEvent, captured: seq<nat>, written: seq<nat>)
    requires Inv(s) && ProcessingStep(s, e).Some? && Flowing(s, captured, written)
    ensures Flowing(ProcessingStep(s, e).value, captured + [], written + [])
  {
    match e
    case Receives => ReceivesFlow(s, captured, written);
    case Forwards => ForwardsFlow(s, captured, written);
    case ForwardsEnd => ForwardsEndFlow(s, captured, written);
    case _ =>
      ProcessingStays(s, e);
      ProcessingKeepsEnds(s, e);
      SamePlacesFlow(s, ProcessingStep(s, e).value, captured, written);
  }

  lemma PlaybackFlows(s: State, e: PlaybackEvent, captured: seq<nat>, written: seq<nat>)
    requires Inv(s) && PlaybackStep(s, e).Some? && Flowing(s, captured, written)
    ensures Flowing(PlaybackStep(s, e).value, captured + Reads(s, OfPlayback(e)), written + WritesOut(s, OfPlayback(e)))
  {
    if e.Takes? {
      TakesFlow(s, captured, written);
    } else if e.Writes? {
      WritesFlow(s, e.ok, e.wantsSpeed, captured, written);
    } else {
      PlaybackStays(s, e);
      PlaybackKeepsEnds(s, e);
      SamePlacesFlow(s, PlaybackStep(s, e).value, captured, written);
    }
  }

  /** Every step of every thread keeps the flow. */
  lemma StepFlows(s: State, e: Event, captured: seq<nat>, written: seq<nat>)
    requires Inv(s) && Next(s, e).Some? && Flowing(s, captured, written)
    ensures Flowing(Next(s, e).value, captured + Reads(s, e), written + WritesOut(s, e))
  {
    match e
    case OfCapture(c) => CaptureFlows(s, c, captured, written);
    case OfProcessing(p) => ProcessingFlows(s, p, captured, written);
    case OfPlayback(b) => PlaybackFlows(s, b, captured, written);
    case OfSupervisor(v) =>
      SupervisorLeavesAlone(s, v);
      SupervisorKeepsEnds(s, v);
      SamePlacesFlow(s, SupervisorStep(s, v).value, captured, written);
    case BarrierOpens =>
      BarrierStays(s);
      BarrierKeepsEnds(s);
      SamePlacesFlow(s, BarrierStep(s).value, captured, written);
  }

  lemma {:induction false} RunFlows(s: State, run: seq<Event>, captured: seq<nat>, written: seq<nat>)
    requires (Inv(s) || run == []) && Flowing(s, captured, written) && Run(s, run).Some?
    ensures Flowing(Run(s, run).value, captured + Captured(s, run), written + Written(s, run))
    decreases |run|
  {
    if run == [] {
      Nothing(captured);
      Nothing(written);
    } else {
      StepIsGood(s, run[0]);
      var t := Next(s, run[0]).value;
      StepFlows(s, run[0], captured, written);
      assert t.supervisor.SPanicked? ==> run[1..] == [];
      RunFlows(t, run[1..], captured + Reads(s, run[0]), written + WritesOut(s, run[0]));
      Grouped(captured, Reads(s, run[0]), Captured(t, run[1..]));
      Grouped(written, WritesOut(s, run[0]), Written(t, run[1..]));
    }
  }

  /** Over every run: the chunks that playback writes are the chunks that capture read, in order and each once, up to
      some
      chunk; as long as the processing thread runs, the others are on their way; and when playback, with its device
      open,
      has got the end of the stream or has ended, it has written them all. */
  lemma {:induction false} NoChunkIsLost(limit: nat, run: seq<Event>)
    requires limit >= 1 && Run(Initial(limit), run).Some?
    ensures var s := Run(Initial(limit), run).value;
            var captured, written := Captured(Initial(limit), run), Written(Initial(limit), run);
            written <= captured &&
            (!s.processing.PExited? ==> captured == written + (Behind(s) + Before(s))) &&
            (s.playback.BReport? || (s.playback.BExited? && s.playbackOk) ==> written == captured)
  {
    InitialIsInv(limit);
    RunFlows(Initial(limit), run, [], []);
    Nothing(Captured(Initial(limit), run));
    Nothing(Written(Initial(limit), run));
    var s := Run(Initial(limit), run).value;
    PrefixOfSum(Written(Initial(limit), run), Behind(s), Before(s));
    Nothing(Written(Initial(limit), run));
  }

  /** The end of the stream always gets through: the processing thread never ends without having handed it on to a
      playback that is there, so playback never finds its queue broken. */
  lemma {:induction false} EndGetsThrough(limit: nat, run: seq<Event>)
    requires limit >= 1 && Run(Initial(limit), run).Some?
    ensures var s := Run(Initial(limit), run).value;
            !s.playback.BComplain? &&
            (s.processing.PExited? && s.playbackOk ==>
               EndOfStream in s.toPlayback || s.playback.BReport? || s.playback.BExited?) &&
            (s.capture.CReport? ==> EndOfStream in s.toProcessing || s.processing.PSendEnd? || s.processing.PExited?)
  {
    InitialIsInv(limit);
    RunFlows(Initial(limit), run, [], []);
  }

  lemma PrefixOfSum(a: seq<nat>, b: seq<nat>, c: seq<nat>)
    ensures a <= a + b && a <= a + (b + c)
  {
  }

  // ---------------------------------------------------------------------------------------------
  // Changes of parameters
  // ---------------------------------------------------------------------------------------------

  /** A change that the supervisor is asked for while there is someone to receive it. */
  function Asks(s: State, e: Event): nat {
    if e.OfSupervisor? && e.v.Obeys? && e.v.control.ChangeParameters? && s.supervisor.SRunning? &&
    !s.processing.PExited?
    then 1 else 0
  }

  /** A change that the processing thread takes. */
  function TakesUp(s: State, e: Event): nat {
    if e.OfProcessing? && e.p.LooksForConfig? && s.processing.PConfig? && s.configs > 0 then 1 else 0
  }

  function Asked(s: State, run: seq<Event>): nat
    requires Run(s, run).Some?
    decreases |run|
  {
    if run == [] then 0 else Asks(s, run[0]) + Asked(Next(s, run[0]).value, run[1..])
  }

  function TakenUp(s: State, run: seq<Event>): nat
    requires Run(s, run).Some?
    decreases |run|
  {
    if run == [] then 0 else TakesUp(s, run[0]) + TakenUp(Next(s, run[0]).value, run[1..])
  }

  lemma CaptureTakesNoChange(s: State, e: CaptureEvent)
    requires CaptureStep(s, e).Some?
    ensures CaptureStep(s, e).value.configs == s.configs
  {
  }

  lemma PlaybackTakesNoChange(s: State, e: PlaybackEvent)
    requires PlaybackStep(s, e).Some?
    ensures PlaybackStep(s, e).value.configs == s.configs
  {
  }

  lemma HearingTakesNoChange(s: State, status: Status)
    ensures Hear(s, status).configs == s.configs
  {
  }

  lemma SupervisorPassesChanges(s: State, e: SupervisorEvent)
    requires SupervisorStep(s, e).Some?
    ensures SupervisorStep(s, e).value.configs == s.configs + Asks(s, OfSupervisor(e))
  {
    if e.Hears? { HearingTakesNoChange(s.(statuses := s.statuses[1..]), s.statuses[0]); }
  }

  lemma ProcessingTakesChanges(s: State, e: ProcessingEvent)
    requires ProcessingStep(s, e).Some?
    ensures ProcessingStep(s, e).value.configs + TakesUp(s, OfProcessing(e)) == s.configs
  {
  }

  lemma BarrierTakesNoChange(s: State)
    requires BarrierStep(s).Some?
    ensures BarrierStep(s).value.configs == s.configs
  {
  }

  lemma StepPassesChanges(s: State, e: Event)
    requires Next(s, e).Some?
    ensures Next(s, e).value.configs + TakesUp(s, e) == s.configs + Asks(s, e)
  {
    match e
    case OfCapture(c) => CaptureTakesNoChange(s, c);
    case OfProcessing(p) => ProcessingTakesChanges(s, p);
    case OfPlayback(b) => PlaybackTakesNoChange(s, b);
    case OfSupervisor(v) => SupervisorPassesChanges(s, v);
    case BarrierOpens => BarrierTakesNoChange(s);
  }

  lemma {:induction false} RunPassesChanges(s: State, run: seq<Event>)
    requires Run(s, run).Some?
    ensures Run(s, run).value.configs + TakenUp(s, run) == s.configs + Asked(s, run)
    decreases |run|
  {
    if run != [] {
      StepPassesChanges(s, run[0]);
      RunPassesChanges(Next(s, run[0]).value, run[1..]);
    }
  }

  /** Over every run: each change of parameters that is asked for while the processing thread is there is taken up by it
      once, or still waits for it. */
  lemma {:induction false} NoChangeIsLost(limit: nat, run: seq<Event>)
    requires Run(Initial(limit), run).Some?
    ensures Asked(Initial(limit), run) == TakenUp(Initial(limit), run) + Run(Initial(limit), run).value.configs
  {
    RunPassesChanges(Initial(limit), run);
  }
}
