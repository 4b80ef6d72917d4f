/** What the threads report to the supervisor. */
module ThreadReports {
  import opened Audio
  import opened Threads

  /** What is reported in this step: that a device is open or not, that a write has failed, that another speed is
      wanted,
      and that a side is done. */
  function Reported(s: State, e: Event): seq<Status> {
    match e
    case OfCapture(Opens(ok)) => if s.capture.CStart? then [if ok then CaptureReady else CaptureError] else []
    case OfCapture(Reports) => if s.capture.CReport? then [CaptureDone] else []
    case OfPlayback(OpensOutput(ok)) => if s.playback.BStart? then [if ok then PlaybackReady else PlaybackError] else []
    case OfPlayback(WritesHeader(ok)) => if s.playback.BHeader? && !ok then [PlaybackError] else []
    case OfPlayback(Writes(ok, wantsSpeed)) =>
      if s.playback.BWrite? then
        (if ok then [] else [PlaybackError]) + (if wantsSpeed then [SpeedRequest] else []) else []
    case OfPlayback(ReportsDone) => if s.playback.BReport? then [PlaybackDone] else []
    case OfPlayback(Complains) => if s.playback.BComplain? then [PlaybackError] else []
    case _ => []
  }

  /** What the supervisor hears in this step. */
  function HeardOf(s: State, e: Event): seq<Status> {
    if e.OfSupervisor? && e.v.Hears? && (s.supervisor.SStarting? || s.supervisor.SRunning?) && s.statuses != []
    then [s.statuses[0]] else []
  }

  function AllReported(s: State, run: seq<Event>): seq<Status>
    requires Run(s, run).Some?
    decreases |run|
  {
    if run == [] then [] else Reported(s, run[0]) + AllReported(Next(s, run[0]).value, run[1..])
  }

  function AllHeard(s: State, run: seq<Event>): seq<Status>
    requires Run(s, run).Some?
    decreases |run|
  {
    if run == [] then [] else HeardOf(s, run[0]) + AllHeard(Next(s, run[0]).value, run[1..])
  }

  lemma Nothing(a: seq<Status>)
    ensures [] + a == a && a + [] == a
  {
  }

  lemma CaptureReported(s: State, e: CaptureEvent)
    requires CaptureStep(s, e).Some?
    ensures CaptureStep(s, e).value.statuses == s.statuses + Reported(s, OfCapture(e))
  {
    Nothing(s.statuses);
  }

  lemma ProcessingReportsNothing(s: State, e: ProcessingEvent)
    requires ProcessingStep(s, e).Some?
    ensures ProcessingStep(s, e).value.statuses == s.statuses
  {
  }

  lemma PlaybackReported(s: State, e: PlaybackEvent)
    requires PlaybackStep(s, e).Some?
    ensures PlaybackStep(s, e).value.statuses == s.statuses + Reported(s, OfPlayback(e))
  {
    Nothing(s.statuses);
    if e.Writes? { WriteReported(s, e.ok, e.wantsSpeed); }
  }

  lemma WriteReported(s: State, ok: bool, wantsSpeed: bool)
    requires PlaybackWrites(s, ok, wantsSpeed).Some?
    ensures PlaybackWrites(s, ok, wantsSpeed).value.statuses ==
            s.statuses + ((if ok then [] else [PlaybackError]) + (if wantsSpeed then [SpeedRequest] else []))
  {
    Nothing(s.statuses);
  }

  lemma WaitingReportsNothing(s: State, c: Command, next: AfterBarrier)
    ensures Send(s, c).statuses == s.statuses
    ensures WaitIfStarting(s, next).statuses == s.statuses && WaitIfBothReady(s).statuses == s.statuses
  {
  }

  lemma HearingReportsNothing(s: State, status: Status)
    ensures Hear(s, status).statuses == s.statuses
  {
    WaitingReportsNothing(s.(playbackReady := true), ExitCommand, ThenRun);
    WaitingReportsNothing(s.(captureReady := true), ExitCommand, ThenRun);
    WaitingReportsNothing(Send(s, ExitCommand), ExitCommand, ThenJoinCapture);
    WaitingReportsNothing(s, ExitCommand, ThenJoinPlayback);
    WaitingReportsNothing(s, SetSpeed, ThenRun);
  }

  lemma SupervisorHeard(s: State, e: SupervisorEvent)
    requires SupervisorStep(s, e).Some?
    ensures HeardOf(s, OfSupervisor(e)) + SupervisorStep(s, e).value.statuses == s.statuses
  {
    Nothing(s.statuses);
    if e.Hears? { HearingReportsNothing(s.(statuses := s.statuses[1..]), s.statuses[0]); }
  }

  lemma StepReports(s: State, e: Event)
    requires Next(s, e).Some?
    ensures HeardOf(s, e) + Next(s, e).value.statuses == s.statuses + Reported(s, e)
  {
    Nothing(s.statuses);
    Nothing(Next(s, e).value.statuses);
    match e
    case OfCapture(c) => CaptureReported(s, c);
    case OfProcessing(p) => ProcessingReportsNothing(s, p);
    case OfPlayback(b) => PlaybackReported(s, b);
    case OfSupervisor(v) => SupervisorHeard(s, v);
    case BarrierOpens =>
  }

  lemma Passed(waiting: seq<Status>, reported: seq<Status>, later: seq<Status>, heard: seq<Status>, next: seq<Status>)
    requires heard + next == waiting + reported
    ensures waiting + (reported + later) == heard + (next + later)
  {
    assert waiting + (reported + later) == (waiting + reported) + later;
    assert heard + (next + later) == (heard + next) + later;
  }

  lemma Grouped(a: seq<Status>, b: seq<Status>, c: seq<Status>)
    ensures a + (b + c) == (a + b) + c
  {
  }

  lemma {:induction false} RunReports(s: State, run: seq<Event>)
    requires Run(s, run).Some?
    ensures s.statuses + AllReported(s, run) == AllHeard(s, run) + Run(s, run).value.statuses
    decreases |run|
  {
    if run == [] {
      Nothing(s.statuses);
    } else {
      var t := Next(s, run[0]).value;
      StepReports(s, run[0]);
      RunReports(t, run[1..]);
      Passed(s.statuses, Reported(s, run[0]), AllReported(t, run[1..]), HeardOf(s, run[0]), t.statuses);
      Grouped(HeardOf(s, run[0]), AllHeard(t, run[1..]), Run(s, run).value.statuses);
    }
  }

  /** Over every run: the supervisor hears what was reported, everything once and in the order in which it was reported,
      up to what still waits for it. */
  lemma {:induction false} NoReportIsLost(limit: nat, run: seq<Event>)
    requires Run(Initial(limit), run).Some?
    ensures AllReported(Initial(limit), run) == AllHeard(Initial(limit), run) + Run(Initial(limit), run).value.statuses
  {
    RunReports(Initial(limit), run);
    Nothing(AllReported(Initial(limit), run));
  }
}
