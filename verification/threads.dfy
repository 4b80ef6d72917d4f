/** Supervisor, capture, processing and playback: starting together at a barrier, passing messages through bounded
    queues, and shutting down. */
module Threads {
  import opened Audio

  /** A chunk, told apart from the others by a number, or something else that travels between the threads. */
  datatype Item = Sound(number: nat) | Pausing | EndOfStream

  datatype Command = SetSpeed | ExitCommand

  datatype Status =
    | PlaybackReady | CaptureReady | PlaybackError | CaptureError | PlaybackDone | CaptureDone | SpeedRequest

  /** What the user can ask of the running supervisor. */
  datatype Control = ChangeParameters | ChangeDevices | Stop | Exit

  datatype Capture =
    | CStart | CBarrier
    | CPoll                    // about to look for a command
    | CSend(item: Item)        // about to send audio
    | CSendEnd                 // about to send the end of the stream
    | CReport                  // about to report that capture is done
    | CExited

  datatype Processing =
    | PStart | PBarrier
    | PReceive
    | PSend(item: Item)
    | PConfig                  // about to look for a new configuration
    | PSendEnd
    | PExited

  datatype Playback =
    | BStart | BBarrier
    | BHeader                  // about to write the file header
    | BReceive
    | BWrite(number: nat)      // about to write a chunk
    | BReport                  // about to report that playback is done
    | BComplain                // about to report that the message channel broke
    | BExited

  datatype AfterBarrier = ThenRun | ThenJoinCapture | ThenJoinPlayback

  datatype Supervisor =
    | SStarting
    | SBarrier(next: AfterBarrier)
    | SRunning
    | SJoinPlayback(thenCapture: bool)
    | SJoinCapture
    | SReturned
    | SPanicked                // the whole program goes down

  datatype State = State(
    limit: nat,                // capacity of both audio queues
    capture: Capture, processing: Processing, playback: Playback, supervisor: Supervisor,
    captureOk: bool, playbackOk: bool,            // could the devices be opened
    captureReady: bool, playbackReady: bool,      // what the supervisor has heard of
    toProcessing: seq<Item>, toPlayback: seq<Item>,
    commands: seq<Command>, statuses: seq<Status>, configs: nat,
    released: bool,            // the barrier has opened
    supervisorWaits: nat)      // how often the supervisor has joined the barrier

  function Initial(limit: nat): State {
    State(limit, CStart, PStart, BStart, SStarting, true, true, false, false, [], [], [], [], 0, false, 0)
  }

  datatype CaptureEvent = Opens(ok: bool) | Polls(found: Item) | Sends | SendsEnd | Reports

  datatype ProcessingEvent = GetsReady | Receives | Forwards | LooksForConfig | ForwardsEnd

  datatype PlaybackEvent =
    | OpensOutput(ok: bool) | WritesHeader(ok: bool) | Takes | Writes(ok: bool, wantsSpeed: bool)
    | ReportsDone | Complains

  datatype SupervisorEvent = Hears | Obeys(control: Control) | Joins | FindsAllGone

  /** One step of one thread, with the outcome of what the thread cannot control. */
  datatype Event =
    | OfCapture(c: CaptureEvent)
    | OfProcessing(p: ProcessingEvent)
    | OfPlayback(b: PlaybackEvent)
    | OfSupervisor(v: SupervisorEvent)
    | BarrierOpens

  // ---------------------------------------------------------------------------------------------
  // Steps; None means that the step is not possible now
  // ---------------------------------------------------------------------------------------------

  function CaptureOpens(s: State, ok: bool): Option<State> {
    if !s.capture.CStart? then None
    else
      Some(s.(capture := CBarrier, captureOk := ok,
              statuses := s.statuses + [if ok then CaptureReady else CaptureError]))
  }

  function CapturePolls(s: State, found: Item): Option<State> {
    if !s.capture.CPoll? then None
    else if s.commands != [] then
      Some(s.(commands := s.commands[1..],
              capture := if s.commands[0].ExitCommand? || found.EndOfStream? then CSendEnd else CSend(found)))
    else if s.supervisor.SReturned? then Some(s.(capture := CExited))
    else Some(s.(capture := if found.EndOfStream? then CSendEnd else CSend(found)))
  }

  function CaptureSends(s: State): Option<State> {
    if !s.capture.CSend? then None
    else if s.processing.PExited? then Some(s.(capture := CExited))
    else if |s.toProcessing| < s.limit then
      Some(s.(capture := CPoll, toProcessing := s.toProcessing + [s.capture.item]))
    else None
  }

  function CaptureSendsEnd(s: State): Option<State> {
    if !s.capture.CSendEnd? then None
    else if s.processing.PExited? then Some(s.(capture := CReport))
    else if |s.toProcessing| < s.limit then Some(s.(capture := CReport, toProcessing := s.toProcessing + [EndOfStream]))
    else None
  }

  function CaptureReports(s: State): Option<State> {
    if !s.capture.CReport? then None
    else Some(s.(capture := CExited, statuses := s.statuses + [CaptureDone]))
  }

  function ProcessingGetsReady(s: State): Option<State> {
    if !s.processing.PStart? then None else Some(s.(processing := PBarrier))
  }

  function ProcessingReceives(s: State): Option<State> {
    if !s.processing.PReceive? then None
    else if s.toProcessing != [] then
      Some(s.(toProcessing := s.toProcessing[1..],
              processing := if s.toProcessing[0].EndOfStream? then PSendEnd else PSend(s.toProcessing[0])))
    else if s.capture.CExited? then Some(s.(processing := PSendEnd))
    else None
  }

  function ProcessingForwards(s: State): Option<State> {
    if !s.processing.PSend? then None
    else if s.playback.BExited? then Some(s.(processing := PExited))
    else if |s.toPlayback| < s.limit then
      Some(s.(processing := PConfig, toPlayback := s.toPlayback + [s.processing.item]))
    else None
  }

  function ProcessingLooksForConfig(s: State): Option<State> {
    if !s.processing.PConfig? then None
    else Some(s.(processing := PReceive, configs := if s.configs > 0 then s.configs - 1 else 0))
  }

  function ProcessingForwardsEnd(s: State): Option<State> {
    if !s.processing.PSendEnd? then None
    else if s.playback.BExited? then Some(s.(processing := PExited))
    else if |s.toPlayback| < s.limit then Some(s.(processing := PExited, toPlayback := s.toPlayback + [EndOfStream]))
    else None
  }

  function PlaybackOpens(s: State, ok: bool): Option<State> {
    if !s.playback.BStart? then None
    else
      Some(s.(playback := BBarrier, playbackOk := ok,
              statuses := s.statuses + [if ok then PlaybackReady else PlaybackError]))
  }

  function PlaybackWritesHeader(s: State, ok: bool): Option<State> {
    if !s.playback.BHeader? then None
    else Some(s.(playback := BReceive, statuses := if ok then s.statuses else s.statuses + [PlaybackError]))
  }

  function PlaybackTakes(s: State): Option<State> {
    if !s.playback.BReceive? then None
    else if s.toPlayback != [] then
      Some(s.(toPlayback := s.toPlayback[1..],
              playback := match s.toPlayback[0]
                          case Sound(n) => BWrite(n)
                          case Pausing => BReceive
                          case EndOfStream => BReport))
    else if s.processing.PExited? then Some(s.(playback := BComplain))
    else None
  }

  function PlaybackWrites(s: State, ok: bool, wantsSpeed: bool): Option<State> {
    if !s.playback.BWrite? then None
    else
      var reported := if ok then s.statuses else s.statuses + [PlaybackError];
      Some(s.(playback := BReceive, statuses := if wantsSpeed then reported + [SpeedRequest] else reported))
  }

  function PlaybackReports(s: State): Option<State> {
    if !s.playback.BReport? then None
    else Some(s.(playback := BExited, statuses := s.statuses + [PlaybackDone]))
  }

  function PlaybackComplains(s: State): Option<State> {
    if !s.playback.BComplain? then None
    else Some(s.(playback := BExited, statuses := s.statuses + [PlaybackError]))
  }

  /** A command for a capture thread that has already gone is lost. */
  function Send(s: State, c: Command): State {
    if s.capture.CExited? then s else s.(commands := s.commands + [c])
  }

  /** The barrier is only joined while starting. */
  function WaitIfStarting(s: State, next: AfterBarrier): State {
    if s.supervisor.SStarting? then s.(supervisor := SBarrier(next), supervisorWaits := s.supervisorWaits + 1)
    else s.(supervisor := if next.ThenJoinCapture? then SJoinCapture else SJoinPlayback(false))
  }

  /** Both sides announced: join the barrier, then start to listen to the user. */
  function WaitIfBothReady(s: State): State {
    if s.captureReady && s.playbackReady then
      s.(supervisor := SBarrier(ThenRun), supervisorWaits := s.supervisorWaits + 1)
    else s
  }

  function Hear(s: State, status: Status): State {
    match status
    case PlaybackReady => WaitIfBothReady(s.(playbackReady := true))
    case CaptureReady => WaitIfBothReady(s.(captureReady := true))
    case PlaybackError => WaitIfStarting(Send(s, ExitCommand), ThenJoinCapture)
    case CaptureError => WaitIfStarting(s, ThenJoinPlayback)
    case PlaybackDone => s.(supervisor := SJoinPlayback(true))
    case CaptureDone => s
    case SpeedRequest => Send(s, SetSpeed)
  }

  function SupervisorHears(s: State): Option<State> {
    if (s.supervisor.SStarting? || s.supervisor.SRunning?) && s.statuses != [] then
      Some(Hear(s.(statuses := s.statuses[1..]), s.statuses[0]))
    else None
  }

  function SupervisorFindsAllGone(s: State): Option<State> {
    if (s.supervisor.SStarting? || s.supervisor.SRunning?) && s.statuses == [] && s.capture.CExited? &&
       s.playback.BExited?
    then Some(s.(supervisor := SReturned))
    else None
  }

  /** A change of parameters goes to the processing thread; the supervisor panics when nobody is there to receive it. */
  function SupervisorObeys(s: State, control: Control): Option<State> {
    if !s.supervisor.SRunning? then None
    else if control.ChangeParameters? then
      if s.processing.PExited? then Some(s.(supervisor := SPanicked)) else Some(s.(configs := s.configs + 1))
    else Some(Send(s, ExitCommand).(supervisor := SJoinPlayback(true)))
  }

  function SupervisorJoins(s: State): Option<State> {
    if s.supervisor.SJoinPlayback? && s.playback.BExited? then
      Some(s.(supervisor := if s.supervisor.thenCapture then SJoinCapture else SReturned))
    else if s.supervisor.SJoinCapture? && s.capture.CExited? then Some(s.(supervisor := SReturned))
    else None
  }

  /** All four are there: everyone proceeds. A thread whose device could not be opened leaves. */
  function BarrierStep(s: State): Option<State> {
    if s.capture.CBarrier? && s.processing.PBarrier? && s.playback.BBarrier? && s.supervisor.SBarrier? then
      Some(s.(released := true,
              capture := if s.captureOk then CPoll else CExited,
              processing := PReceive,
              playback := if s.playbackOk then BHeader else BExited,
              supervisor := match s.supervisor.next
                            case ThenRun => SRunning
                            case ThenJoinCapture => SJoinCapture
                            case ThenJoinPlayback => SJoinPlayback(false)))
    else None
  }

  function CaptureStep(s: State, e: CaptureEvent): Option<State> {
    match e
    case Opens(ok) => CaptureOpens(s, ok)
    case Polls(found) => CapturePolls(s, found)
    case Sends => CaptureSends(s)
    case SendsEnd => CaptureSendsEnd(s)
    case Reports => CaptureReports(s)
  }

  function ProcessingStep(s: State, e: ProcessingEvent): Option<State> {
    match e
    case GetsReady => ProcessingGetsReady(s)
    case Receives => ProcessingReceives(s)
    case Forwards => ProcessingForwards(s)
    case LooksForConfig => ProcessingLooksForConfig(s)
    case ForwardsEnd => ProcessingForwardsEnd(s)
  }

  function PlaybackStep(s: State, e: PlaybackEvent): Option<State> {
    match e
    case OpensOutput(ok) => PlaybackOpens(s, ok)
    case WritesHeader(ok) => PlaybackWritesHeader(s, ok)
    case Takes => PlaybackTakes(s)
    case Writes(ok, wantsSpeed) => PlaybackWrites(s, ok, wantsSpeed)
    case ReportsDone => PlaybackReports(s)
    case Complains => PlaybackComplains(s)
  }

  function SupervisorStep(s: State, e: SupervisorEvent): Option<State> {
    match e
    case Hears => SupervisorHears(s)
    case Obeys(control) => SupervisorObeys(s, control)
    case Joins => SupervisorJoins(s)
    case FindsAllGone => SupervisorFindsAllGone(s)
  }

  function Next(s: State, e: Event): Option<State> {
    if s.supervisor.SPanicked? then None
    else
      match e
    case OfCapture(c) => CaptureStep(s, c)
    case OfProcessing(p) => ProcessingStep(s, p)
    case OfPlayback(b) => PlaybackStep(s, b)
    case OfSupervisor(v) => SupervisorStep(s, v)
    case BarrierOpens => BarrierStep(s)
  }

  /** The state after a run, if every step of the run was possible. */
  function Run(s: State, run: seq<Event>): Option<State>
    decreases |run|
  {
    if run == [] then Some(s)
    else
      match Next(s, run[0])
      case None => None
      case Some(t) => Run(t, run[1..])
  }

  // ---------------------------------------------------------------------------------------------
  // What every step keeps
  // ---------------------------------------------------------------------------------------------

  /** Capture has sent its last message, or never will send one. */
  predicate CaptureEnded(s: State) { s.capture.CReport? || s.capture.CExited? }

  /** Capture is bound to end: it is on its way out, or a command to exit is waiting for it. */
  predicate CaptureEnding(s: State) {
    CaptureEnded(s) || s.capture.CSendEnd? || ExitCommand in s.commands
  }

  predicate Joining(s: State) {
    s.supervisor.SJoinPlayback? || s.supervisor.SJoinCapture? || s.supervisor.SReturned?
  }

  ghost predicate BeforeBarrier(s: State) {
    && (s.capture.CStart? || s.capture.CBarrier?)
    && (s.processing.PStart? || s.processing.PBarrier?)
    && (s.playback.BStart? || s.playback.BBarrier?)
    && (s.supervisor.SStarting? || s.supervisor.SBarrier?)
    && s.supervisorWaits == (if s.supervisor.SBarrier? then 1 else 0)
    && s.toProcessing == [] && s.toPlayback == []
    // every thread has made itself heard, and the supervisor has not lost its message
    && (s.captureReady ==> s.capture.CBarrier? && s.captureOk)
    && (s.playbackReady ==> s.playback.BBarrier? && s.playbackOk)
    && (forall m :: m in s.statuses ==>
          m == PlaybackReady || m == CaptureReady || m == PlaybackError || m == CaptureError)
    && (CaptureReady in s.statuses ==> s.capture.CBarrier? && s.captureOk)
    && (CaptureError in s.statuses ==> s.capture.CBarrier? && !s.captureOk)
    && (PlaybackReady in s.statuses ==> s.playback.BBarrier? && s.playbackOk)
    && (PlaybackError in s.statuses ==> s.playback.BBarrier? && !s.playbackOk)
    && (s.capture.CBarrier? && s.captureOk ==> s.captureReady || CaptureReady in s.statuses)
    && (s.playback.BBarrier? && s.playbackOk ==> s.playbackReady || PlaybackReady in s.statuses)
    && (s.supervisor.SStarting? ==>
          && !(s.captureReady && s.playbackReady)
          && (s.capture.CBarrier? && !s.captureOk ==> CaptureError in s.statuses)
          && (s.playback.BBarrier? && !s.playbackOk ==> PlaybackError in s.statuses))
    && (s.supervisor == SBarrier(ThenRun) ==> s.captureReady && s.playbackReady)
    && (s.supervisor == SBarrier(ThenJoinCapture) ==>
          ExitCommand in s.commands && s.playback.BBarrier? && !s.playbackOk)
    && (s.supervisor == SBarrier(ThenJoinPlayback) ==> s.capture.CBarrier? && !s.captureOk)
    // each announcement is made and heard only once
    && |s.statuses| + Heard(s) == (if s.capture.CBarrier? then 1 else 0) + (if s.playback.BBarrier? then 1 else 0)
  }

  /** Announcements the supervisor has taken from its queue before the barrier opens. */
  function Heard(s: State): nat {
    (if s.captureReady then 1 else 0) + (if s.playbackReady then 1 else 0)
    + if s.supervisor.SBarrier? && !s.supervisor.next.ThenRun? then 1 else 0
  }

  ghost predicate AfterBarrierOpened(s: State) {
    && !s.capture.CStart? && !s.capture.CBarrier? && !s.processing.PStart? && !s.processing.PBarrier?
    && !s.playback.BStart? && !s.playback.BBarrier? && !s.supervisor.SStarting? && !s.supervisor.SBarrier?
    && !s.supervisor.SPanicked? && s.supervisorWaits == 1
    && (Joining(s) || (PlaybackReady !in s.statuses && CaptureReady !in s.statuses))
    && (CaptureError in s.statuses ==> s.capture.CExited?)
    && (Joining(s) ==> CaptureEnding(s))
    && (!s.playbackOk ==> Joining(s))
    && (s.supervisor.SReturned? ==> s.capture.CExited?)
    && (s.supervisor == SJoinPlayback(false) ==> s.capture.CExited?)
  }

  ghost predicate EndTravels(s: State) {
    && (s.capture.CSend? ==> !s.capture.item.EndOfStream?)
    && (s.processing.PSend? ==> !s.processing.item.EndOfStream?)
    && (EndOfStream in s.toProcessing ==> CaptureEnded(s))
    && (EndOfStream in s.toPlayback ==> CaptureEnded(s))
    && (s.processing.PSendEnd? ==> CaptureEnded(s))
    && (s.playback.BReport? || PlaybackDone in s.statuses ==> CaptureEnded(s))
    && (s.processing.PExited? ==> CaptureEnded(s) || !s.playbackOk)
    && (s.playback.BComplain? || s.playback.BExited? ==> CaptureEnded(s) || !s.playbackOk)
  }

  ghost predicate Inv(s: State) {
    && s.limit >= 1 && |s.toProcessing| <= s.limit && |s.toPlayback| <= s.limit
    && EndTravels(s)
    && (if s.released then AfterBarrierOpened(s) else BeforeBarrier(s))
  }

  lemma InitialIsInv(limit: nat)
    requires limit >= 1
    ensures Inv(Initial(limit))
  {
  }

  lemma Appended<T>(q: seq<T>, x: T)
    ensures forall m :: m in q + [x] <==> m in q || m == x
  {
  }

  lemma Popped<T>(q: seq<T>)
    requires q != []
    ensures forall m :: m in q <==> m == q[0] || m in q[1..]
  {
    assert q == [q[0]] + q[1..];
  }

  function StartMeasure(s: State): nat {
    (if s.capture.CStart? then 2 else 0) + (if s.playback.BStart? then 2 else 0) +
      (if s.processing.PStart? then 1 else 0)
    + |s.statuses| + if s.released then 0 else 1
  }

  function CaptureWork(c: Capture): nat {
    match c
    case CStart | CBarrier => 16
    case CPoll => 8
    case CSend(_) => 14
    case CSendEnd => 7
    case CReport => 1
    case CExited => 0
  }

  function ProcessingWork(p: Processing): nat {
    match p
    case PStart | PBarrier => 9
    case PReceive => 4
    case PSend(_) => 8
    case PConfig => 5
    case PSendEnd => 3
    case PExited => 0
  }

  function PlaybackWork(b: Playback): nat {
    match b
    case BStart | BBarrier => 5
    case BHeader => 4
    case BReceive => 2
    case BWrite(_) => 3
    case BReport => 1
    case BComplain => 1
    case BExited => 0
  }

  function SupervisorWork(v: Supervisor): nat {
    match v
    case SJoinPlayback(_) => 2
    case SJoinCapture => 1
    case SReturned => 0
    case _ => 3
  }

  /** What is left to do: commands ahead of capture, messages in flight, and the threads' own steps. */
  function WorkLeft(s: State): nat {
    7 * |s.commands| + CaptureWork(s.capture) + 5 * |s.toProcessing| + ProcessingWork(s.processing)
    + 2 * |s.toPlayback| + PlaybackWork(s.playback) + SupervisorWork(s.supervisor)
  }

  /** The supervisor has panicked over a change of parameters that came after the stream had ended. */
  predicate Crashed(s: State) {
    s.supervisor.SPanicked? && s.released && s.supervisorWaits == 1 && s.processing.PExited? && CaptureEnded(s)
  }

  /** What is claimed of every step: it keeps the invariant; before the barrier opens it brings the opening closer; and
      once the supervisor waits for the other threads it leaves less work. A running supervisor may panic. */
  ghost predicate IsGoodStep(s: State, next: Option<State>) {
    next.Some? ==>
      if next.value.supervisor.SPanicked? then s.supervisor.SRunning? && s.released && Crashed(next.value)
      else
        Inv(next.value) &&
        (s.released ==> next.value.released) &&
        (!s.released ==> StartMeasure(next.value) < StartMeasure(s)) &&
        (Joining(s) ==> Joining(next.value) && WorkLeft(next.value) < WorkLeft(s))
  }

  lemma CaptureOpensIsGood(s: State, ok: bool)
    requires Inv(s)
    ensures IsGoodStep(s, CaptureOpens(s, ok))
  {
    Appended(s.statuses, if ok then CaptureReady else CaptureError);
  }

  lemma CapturePollsIsGood(s: State, found: Item)
    requires Inv(s)
    ensures IsGoodStep(s, CapturePolls(s, found))
  {
    if s.commands != [] { Popped(s.commands); }
  }

  lemma CaptureSendsIsGood(s: State)
    requires Inv(s)
    ensures IsGoodStep(s, CaptureSends(s))
  {
    if s.capture.CSend? { Appended(s.toProcessing, s.capture.item); }
  }

  lemma CaptureSendsEndIsGood(s: State)
    requires Inv(s)
    ensures IsGoodStep(s, CaptureSendsEnd(s))
  {
    Appended(s.toProcessing, EndOfStream);
  }

  lemma CaptureReportsIsGood(s: State)
    requires Inv(s)
    ensures IsGoodStep(s, CaptureReports(s))
  {
    Appended(s.statuses, CaptureDone);
  }

  lemma ProcessingGetsReadyIsGood(s: State)
    requires Inv(s)
    ensures IsGoodStep(s, ProcessingGetsReady(s))
  {
  }

  lemma ProcessingReceivesIsGood(s: State)
    requires Inv(s)
    ensures IsGoodStep(s, ProcessingReceives(s))
  {
    if s.toProcessing != [] { Popped(s.toProcessing); }
  }

  lemma ProcessingForwardsIsGood(s: State)
    requires Inv(s)
    ensures IsGoodStep(s, ProcessingForwards(s))
  {
    if s.processing.PSend? {
      ProcessingIsReleased(s);
      if s.playback.BExited? { GivesUpForwarding(s); } else { Appended(s.toPlayback, s.processing.item); }
    }
  }

  lemma GivesUpForwarding(s: State)
    requires Inv(s) && s.released && s.processing.PSend? && s.playback.BExited?
    ensures IsGoodStep(s, Some(s.(processing := PExited)))
  {
  }

  lemma ProcessingIsReleased(s: State)
    requires Inv(s) && !s.processing.PStart? && !s.processing.PBarrier?
    ensures s.released
  {
  }

  lemma ProcessingLooksForConfigIsGood(s: State)
    requires Inv(s)
    ensures IsGoodStep(s, ProcessingLooksForConfig(s))
  {
  }

  lemma ProcessingForwardsEndIsGood(s: State)
    requires Inv(s)
    ensures IsGoodStep(s, ProcessingForwardsEnd(s))
  {
    if s.processing.PSendEnd? {
      ForwardingEnd(s);
      Appended(s.toPlayback, EndOfStream);
    }
  }

  lemma ForwardingEnd(s: State)
    requires Inv(s) && s.processing.PSendEnd?
    ensures s.released && CaptureEnded(s)
  {
  }

  /** A supervisor that is past the barrier has seen it open. */
  lemma PastTheBarrier(s: State)
    requires Inv(s) && !s.supervisor.SStarting? && !s.supervisor.SBarrier?
    ensures s.released
  {
  }

  lemma PlaybackOpensIsGood(s: State, ok: bool)
    requires Inv(s)
    ensures IsGoodStep(s, PlaybackOpens(s, ok))
  {
    Appended(s.statuses, if ok then PlaybackReady else PlaybackError);
  }

  lemma PlaybackWritesHeaderIsGood(s: State, ok: bool)
    requires Inv(s)
    ensures IsGoodStep(s, PlaybackWritesHeader(s, ok))
  {
    Appended(s.statuses, PlaybackError);
  }

  lemma PlaybackTakesIsGood(s: State)
    requires Inv(s)
    ensures IsGoodStep(s, PlaybackTakes(s))
  {
    if s.toPlayback != [] { Popped(s.toPlayback); }
  }

  lemma PlaybackWritesIsGood(s: State, ok: bool, wantsSpeed: bool)
    requires Inv(s)
    ensures IsGoodStep(s, PlaybackWrites(s, ok, wantsSpeed))
  {
    Appended(s.statuses, PlaybackError);
    Appended(if ok then s.statuses else s.statuses + [PlaybackError], SpeedRequest);
  }

  lemma PlaybackReportsIsGood(s: State)
    requires Inv(s)
    ensures IsGoodStep(s, PlaybackReports(s))
  {
    Appended(s.statuses, PlaybackDone);
  }

  lemma PlaybackComplainsIsGood(s: State)
    requires Inv(s)
    ensures IsGoodStep(s, PlaybackComplains(s))
  {
    Appended(s.statuses, PlaybackError);
  }

  // The supervisor hears one status message. While starting only announcements can be waiting.

  lemma HearsPlaybackReady(s: State)
    requires Inv(s) && s.supervisor.SStarting? && s.statuses != [] && s.statuses[0] == PlaybackReady
    ensures IsGoodStep(s, Some(WaitIfBothReady(s.(statuses := s.statuses[1..], playbackReady := true))))
  {
    Popped(s.statuses);
  }

  lemma HearsCaptureReady(s: State)
    requires Inv(s) && s.supervisor.SStarting? && s.statuses != [] && s.statuses[0] == CaptureReady
    ensures IsGoodStep(s, Some(WaitIfBothReady(s.(statuses := s.statuses[1..], captureReady := true))))
  {
    Popped(s.statuses);
  }

  lemma HearsCaptureErrorStarting(s: State)
    requires Inv(s) && s.supervisor.SStarting? && s.statuses != [] && s.statuses[0] == CaptureError
    ensures IsGoodStep(s, Some(WaitIfStarting(s.(statuses := s.statuses[1..]), ThenJoinPlayback)))
  {
    Popped(s.statuses);
  }

  lemma HearsPlaybackErrorStarting(s: State)
    requires Inv(s) && s.supervisor.SStarting? && s.statuses != [] && s.statuses[0] == PlaybackError
    ensures IsGoodStep(s, Some(WaitIfStarting(Send(s.(statuses := s.statuses[1..]), ExitCommand), ThenJoinCapture)))
  {
    Popped(s.statuses);
    Appended(s.commands, ExitCommand);
  }

  lemma HearsCaptureError(s: State)
    requires Inv(s) && s.supervisor.SRunning? && s.statuses != [] && s.statuses[0] == CaptureError
    ensures IsGoodStep(s, Some(WaitIfStarting(s.(statuses := s.statuses[1..]), ThenJoinPlayback)))
  {
    Popped(s.statuses);
  }

  lemma HearsPlaybackError(s: State)
    requires Inv(s) && s.supervisor.SRunning? && s.statuses != [] && s.statuses[0] == PlaybackError
    ensures IsGoodStep(s, Some(WaitIfStarting(Send(s.(statuses := s.statuses[1..]), ExitCommand), ThenJoinCapture)))
  {
    PastTheBarrier(s);
    Popped(s.statuses);
    var heard := s.(statuses := s.statuses[1..]);
    ExitIsWaiting(heard);
    assert EndTravels(heard);
  }

  /** A command to exit either waits for the capture thread or finds it gone; it changes nothing else. */
  lemma ExitIsWaiting(s: State)
    ensures var t := Send(s, ExitCommand);
            t == s.(commands := t.commands) && (ExitCommand in t.commands || s.capture.CExited?) &&
              |t.commands| <= |s.commands| + 1
  {
    Appended(s.commands, ExitCommand);
  }

  lemma HearsPlaybackDone(s: State)
    requires Inv(s) && s.supervisor.SRunning? && s.statuses != [] && s.statuses[0] == PlaybackDone
    ensures IsGoodStep(s, Some(s.(statuses := s.statuses[1..], supervisor := SJoinPlayback(true))))
  {
    Popped(s.statuses);
  }

  lemma HearsCaptureDone(s: State)
    requires Inv(s) && s.supervisor.SRunning? && s.statuses != [] && s.statuses[0] == CaptureDone
    ensures IsGoodStep(s, Some(s.(statuses := s.statuses[1..])))
  {
    Popped(s.statuses);
  }

  lemma HearsSpeedRequest(s: State)
    requires Inv(s) && s.supervisor.SRunning? && s.statuses != [] && s.statuses[0] == SpeedRequest
    ensures IsGoodStep(s, Some(Send(s.(statuses := s.statuses[1..]), SetSpeed)))
  {
    PastTheBarrier(s);
    Popped(s.statuses);
    Appended(s.commands, SetSpeed);
  }

  lemma SupervisorHearsIsGood(s: State)
    requires Inv(s)
    ensures IsGoodStep(s, SupervisorHears(s))
  {
    if s.statuses != [] && s.supervisor.SStarting? {
      WaitingAtStart(s);
      match s.statuses[0] {
        case PlaybackReady => HearsPlaybackReady(s);
        case CaptureReady => HearsCaptureReady(s);
        case PlaybackError => HearsPlaybackErrorStarting(s);
        case CaptureError => HearsCaptureErrorStarting(s);
      }
    } else if s.statuses != [] && s.supervisor.SRunning? {
      WaitingWhileRunning(s);
      match s.statuses[0] {
        case PlaybackError => HearsPlaybackError(s);
        case CaptureError => HearsCaptureError(s);
        case PlaybackDone => HearsPlaybackDone(s);
        case CaptureDone => HearsCaptureDone(s);
        case SpeedRequest => HearsSpeedRequest(s);
      }
    }
  }

  lemma WaitingAtStart(s: State)
    requires Inv(s) && s.statuses != [] && s.supervisor.SStarting?
    ensures s.statuses[0] == PlaybackReady || s.statuses[0] == CaptureReady || s.statuses[0] == PlaybackError ||
      s.statuses[0] == CaptureError
  {
    Popped(s.statuses);
  }

  lemma WaitingWhileRunning(s: State)
    requires Inv(s) && s.statuses != [] && s.supervisor.SRunning?
    ensures s.statuses[0] != PlaybackReady && s.statuses[0] != CaptureReady
  {
    Popped(s.statuses);
  }

  lemma SupervisorObeysIsGood(s: State, control: Control)
    requires Inv(s)
    ensures IsGoodStep(s, SupervisorObeys(s, control))
  {
    if s.supervisor.SRunning? {
      PastTheBarrier(s);
      if !control.ChangeParameters? { ObeysExit(s); } else { EndedWhileRunning(s); }
    }
  }

  /** While the supervisor is running, processing ends only after capture has. */
  lemma EndedWhileRunning(s: State)
    requires Inv(s) && s.supervisor.SRunning?
    ensures s.processing.PExited? ==> CaptureEnded(s)
  {
    PastTheBarrier(s);
  }

  lemma ObeysExit(s: State)
    requires Inv(s) && s.released && s.supervisor.SRunning?
    ensures IsGoodStep(s, Some(Send(s, ExitCommand).(supervisor := SJoinPlayback(true))))
  {
    Appended(s.commands, ExitCommand);
  }

  lemma SupervisorJoinsIsGood(s: State)
    requires Inv(s)
    ensures IsGoodStep(s, SupervisorJoins(s))
  {
    if s.supervisor.SJoinPlayback? {
      JoinsPlayback(s);
    } else if s.supervisor.SJoinCapture? {
      PastTheBarrier(s);
    }
  }

  lemma JoinsPlayback(s: State)
    requires Inv(s) && s.supervisor.SJoinPlayback?
    ensures IsGoodStep(s, SupervisorJoins(s))
  {
    PastTheBarrier(s);
  }

  lemma SupervisorFindsAllGoneIsGood(s: State)
    requires Inv(s)
    ensures IsGoodStep(s, SupervisorFindsAllGone(s))
  {
  }

  lemma BarrierIsGood(s: State)
    requires Inv(s)
    ensures IsGoodStep(s, BarrierStep(s))
  {
  }

  lemma CaptureStepIsGood(s: State, e: CaptureEvent)
    requires Inv(s)
    ensures IsGoodStep(s, CaptureStep(s, e))
  {
    match e
    case Opens(ok) => CaptureOpensIsGood(s, ok);
    case Polls(found) => CapturePollsIsGood(s, found);
    case Sends => CaptureSendsIsGood(s);
    case SendsEnd => CaptureSendsEndIsGood(s);
    case Reports => CaptureReportsIsGood(s);
  }

  lemma ProcessingStepIsGood(s: State, e: ProcessingEvent)
    requires Inv(s)
    ensures IsGoodStep(s, ProcessingStep(s, e))
  {
    match e
    case GetsReady => ProcessingGetsReadyIsGood(s);
    case Receives => ProcessingReceivesIsGood(s);
    case Forwards => ProcessingForwardsIsGood(s);
    case LooksForConfig => ProcessingLooksForConfigIsGood(s);
    case ForwardsEnd => ProcessingForwardsEndIsGood(s);
  }

  lemma PlaybackStepIsGood(s: State, e: PlaybackEvent)
    requires Inv(s)
    ensures IsGoodStep(s, PlaybackStep(s, e))
  {
    match e
    case OpensOutput(ok) => PlaybackOpensIsGood(s, ok);
    case WritesHeader(ok) => PlaybackWritesHeaderIsGood(s, ok);
    case Takes => PlaybackTakesIsGood(s);
    case Writes(ok, wantsSpeed) => PlaybackWritesIsGood(s, ok, wantsSpeed);
    case ReportsDone => PlaybackReportsIsGood(s);
    case Complains => PlaybackComplainsIsGood(s);
  }

  lemma SupervisorStepIsGood(s: State, e: SupervisorEvent)
    requires Inv(s)
    ensures IsGoodStep(s, SupervisorStep(s, e))
  {
    match e
    case Hears => SupervisorHearsIsGood(s);
    case Obeys(control) => SupervisorObeysIsGood(s, control);
    case Joins => SupervisorJoinsIsGood(s);
    case FindsAllGone => SupervisorFindsAllGoneIsGood(s);
  }

  lemma StepIsGood(s: State, e: Event)
    requires Inv(s)
    ensures IsGoodStep(s, Next(s, e))
  {
    match e
    case OfCapture(c) => CaptureStepIsGood(s, c);
    case OfProcessing(p) => ProcessingStepIsGood(s, p);
    case OfPlayback(b) => PlaybackStepIsGood(s, b);
    case OfSupervisor(v) => SupervisorStepIsGood(s, v);
    case BarrierOpens => BarrierIsGood(s);
  }

  lemma {:induction false} RunKeepsInv(s: State, run: seq<Event>)
    requires Inv(s) && Run(s, run).Some?
    ensures var t := Run(s, run).value; if t.supervisor.SPanicked? then Crashed(t) && !Joining(s) else Inv(t)
    decreases |run|
  {
    if run != [] {
      StepIsGood(s, run[0]);
      var t := Next(s, run[0]).value;
      if t.supervisor.SPanicked? {
        assert run[1..] == [];
      } else {
        RunKeepsInv(t, run[1..]);
      }
    }
  }

  // ---------------------------------------------------------------------------------------------
  // Nothing ever gets stuck
  // ---------------------------------------------------------------------------------------------

  predicate AllDone(s: State) {
    s.capture.CExited? && s.processing.PExited? && s.playback.BExited? && s.supervisor.SReturned?
  }

  predicate IsUserCommand(e: Event) { e.OfSupervisor? && e.v.Obeys? }

  /** A step that some thread can take now. */
  function SomeStep(s: State): Event {
    if s.capture.CStart? then OfCapture(Opens(true))
    else if s.playback.BStart? then OfPlayback(OpensOutput(true))
    else if s.processing.PStart? then OfProcessing(GetsReady)
    else if s.supervisor.SStarting? then OfSupervisor(Hears)
    else if s.supervisor.SBarrier? then BarrierOpens
    else if s.playback.BHeader? then OfPlayback(WritesHeader(true))
    else if s.playback.BWrite? then OfPlayback(Writes(true, false))
    else if s.playback.BReport? then OfPlayback(ReportsDone)
    else if s.playback.BComplain? then OfPlayback(Complains)
    else if s.playback.BReceive? && (s.toPlayback != [] || s.processing.PExited?) then OfPlayback(Takes)
    else if s.processing.PConfig? then OfProcessing(LooksForConfig)
    else if s.processing.PSend? then OfProcessing(Forwards)
    else if s.processing.PSendEnd? then OfProcessing(ForwardsEnd)
    else if s.processing.PReceive? && (s.toProcessing != [] || s.capture.CExited?) then OfProcessing(Receives)
    else if s.capture.CPoll? then OfCapture(Polls(Sound(0)))
    else if s.capture.CSend? then OfCapture(Sends)
    else if s.capture.CSendEnd? then OfCapture(SendsEnd)
    else if s.capture.CReport? then OfCapture(Reports)
    else if s.supervisor.SRunning? then if s.statuses != [] then OfSupervisor(Hears) else OfSupervisor(FindsAllGone)
    else OfSupervisor(Joins)
  }

  /** In every reachable state in which not everything has ended, and the supervisor has not panicked, some thread can
      take a step without any help from the user. */
  lemma {:induction false} NeverStuck(limit: nat, run: seq<Event>)
    requires limit >= 1 && Run(Initial(limit), run).Some?
    ensures var s := Run(Initial(limit), run).value;
            AllDone(s) || s.supervisor.SPanicked? || (Next(s, SomeStep(s)).Some? && !IsUserCommand(SomeStep(s)))
  {
    InitialIsInv(limit);
    RunKeepsInv(Initial(limit), run);
    var s := Run(Initial(limit), run).value;
    if !AllDone(s) && !s.supervisor.SPanicked? { SomeStepIsPossible(s); }
  }

  lemma SomeStepIsPossible(s: State)
    requires Inv(s) && !AllDone(s)
    ensures Next(s, SomeStep(s)).Some? && !IsUserCommand(SomeStep(s))
  {
    if !s.released && s.supervisor.SStarting? && s.capture.CBarrier? && s.playback.BBarrier? {
      assert s.statuses != [];
    }
  }

  // ---------------------------------------------------------------------------------------------
  // Starting
  // ---------------------------------------------------------------------------------------------

  /** The supervisor joins the barrier at most once in every run, and has joined it exactly once whenever the barrier
      has opened; by then both devices were announced, or one of them failed. */
  lemma {:induction false} BarrierIsJoinedOnce(limit: nat, run: seq<Event>)
    requires limit >= 1 && Run(Initial(limit), run).Some?
    ensures var s := Run(Initial(limit), run).value;
            s.supervisorWaits <= 1 && (s.released ==> s.supervisorWaits == 1) && (AllDone(s) ==> s.released)
  {
    InitialIsInv(limit);
    RunKeepsInv(Initial(limit), run);
  }

  /** Until the barrier opens every step brings the opening closer; as nothing gets stuck, it always opens. */
  lemma StartMakesProgress(s: State, e: Event)
    requires Inv(s) && !s.released && Next(s, e).Some?
    ensures StartMeasure(Next(s, e).value) < StartMeasure(s)
  {
    StepIsGood(s, e);
  }

  /** In every run of more than five steps the barrier has opened. */
  lemma {:induction false} BarrierOpensSoon(limit: nat, run: seq<Event>)
    requires limit >= 1 && Run(Initial(limit), run).Some? && |run| > 5
    ensures Run(Initial(limit), run).value.released
  {
    InitialIsInv(limit);
    StartIsBounded(Initial(limit), run);
  }

  lemma {:induction false} StartIsBounded(s: State, run: seq<Event>)
    requires Inv(s) && Run(s, run).Some?
    ensures Run(s, run).value.released || |run| + StartMeasure(Run(s, run).value) <= StartMeasure(s)
    ensures s.released ==> Run(s, run).value.released
    decreases |run|
  {
    if run != [] {
      StepIsGood(s, run[0]);
      var t := Next(s, run[0]).value;
      if t.supervisor.SPanicked? {
        assert run[1..] == [];
      } else {
        StartIsBounded(t, run[1..]);
      }
    }
  }

  // ---------------------------------------------------------------------------------------------
  // Changes of parameters
  // ---------------------------------------------------------------------------------------------

  lemma {:induction false} LastStep(s: State, run: seq<Event>)
    requires Run(s, run).Some? && run != []
    ensures Run(s, run[..|run| - 1]).Some?
    ensures Run(s, run) == Next(Run(s, run[..|run| - 1]).value, run[|run| - 1])
    decreases |run|
  {
    if |run| > 1 {
      LastStep(Next(s, run[0]).value, run[1..]);
      assert run[1..][..|run| - 2] == run[..|run| - 1][1..];
    }
  }

  /** In every run, the supervisor panics if and only if it obeys a change of parameters when processing has exited. */
  lemma {:induction false} PanicsIffChangeIsTooLate(limit: nat, run: seq<Event>)
    requires limit >= 1 && Run(Initial(limit), run).Some? && run != []
    ensures var last := |run| - 1;
            Run(Initial(limit), run[..last]).Some? &&
            (Run(Initial(limit), run).value.supervisor.SPanicked? <==>
             run[last] == OfSupervisor(Obeys(ChangeParameters)) &&
               Run(Initial(limit), run[..last]).value.processing.PExited?)
  {
    LastStep(Initial(limit), run);
    PanickingStep(Run(Initial(limit), run[..|run| - 1]).value, run[|run| - 1]);
  }

  lemma PanickingStep(s: State, e: Event)
    requires Next(s, e).Some?
    ensures Next(s, e).value.supervisor.SPanicked? <==>
      e == OfSupervisor(Obeys(ChangeParameters)) && s.processing.PExited?
  {
    match e
    case OfCapture(c) => CaptureLeavesSupervisor(s, c);
    case OfProcessing(p) => ProcessingLeavesSupervisor(s, p);
    case OfPlayback(b) => PlaybackLeavesSupervisor(s, b);
    case OfSupervisor(v) => SupervisorPanics(s, v);
    case BarrierOpens =>
  }

  lemma CaptureLeavesSupervisor(s: State, e: CaptureEvent)
    ensures CaptureStep(s, e).Some? ==> CaptureStep(s, e).value.supervisor == s.supervisor
  {
  }

  lemma ProcessingLeavesSupervisor(s: State, e: ProcessingEvent)
    ensures ProcessingStep(s, e).Some? ==> ProcessingStep(s, e).value.supervisor == s.supervisor
  {
  }

  lemma PlaybackLeavesSupervisor(s: State, e: PlaybackEvent)
    ensures PlaybackStep(s, e).Some? ==> PlaybackStep(s, e).value.supervisor == s.supervisor
  {
  }

  lemma SupervisorPanics(s: State, e: SupervisorEvent)
    requires !s.supervisor.SPanicked? && SupervisorStep(s, e).Some?
    ensures SupervisorStep(s, e).value.supervisor.SPanicked? <==> e == Obeys(ChangeParameters) && s.processing.PExited?
  {
    if e.Hears? { HearingGoesOn(s.(statuses := s.statuses[1..]), s.statuses[0]); }
  }

  lemma HearingGoesOn(s: State, status: Status)
    requires !s.supervisor.SPanicked?
    ensures !Hear(s, status).supervisor.SPanicked?
  {
  }

  /** A change of parameters is safe as long as capture has not sent its last message. */
  lemma {:induction false} ChangeIsSafeDuringCapture(limit: nat, run: seq<Event>)
    requires limit >= 1 && Run(Initial(limit), run).Some? && Run(Initial(limit), run).value.supervisor.SRunning?
    requires !CaptureEnded(Run(Initial(limit), run).value)
    ensures var next := Next(Run(Initial(limit), run).value, OfSupervisor(Obeys(ChangeParameters)));
            next.Some? && Inv(next.value)
  {
    InitialIsInv(limit);
    RunKeepsInv(Initial(limit), run);
    var s := Run(Initial(limit), run).value;
    EndedWhileRunning(s);
    StepIsGood(s, OfSupervisor(Obeys(ChangeParameters)));
  }

  lemma {:induction false} RunAlong(states: seq<State>, run: seq<Event>)
    requires |states| == |run| + 1 && forall i :: 0 <= i < |run| ==> Next(states[i], run[i]) == Some(states[i + 1])
    ensures Run(states[0], run) == Some(states[|run|])
    decreases |run|
  {
    if run != [] {
      assert Next(states[0], run[0]) == Some(states[1]);
      RunAlong(states[1..], run[1..]);
    }
  }

  lemma {:induction false} RunConcat(s: State, a: seq<Event>, b: seq<Event>)
    requires Run(s, a).Some?
    ensures Run(s, a + b) == Run(Run(s, a).value, b)
    decreases |a|
  {
    if a == [] {
      assert a + b == b;
    } else {
      assert (a + b)[1..] == a[1..] + b;
      RunConcat(Next(s, a[0]).value, a[1..], b);
    }
  }

  /** Everything has started, and nothing has been sent yet. */
  function JustStarted(): State {
    Initial(1).(capture := CPoll, processing := PReceive, playback := BHeader, supervisor := SRunning,
                captureReady := true, playbackReady := true, released := true, supervisorWaits := 1)
  }

  lemma StartsUp() returns (run: seq<Event>)
    ensures Run(Initial(1), run) == Some(JustStarted())
  {
    run := [OfCapture(Opens(true)), OfPlayback(OpensOutput(true)), OfProcessing(GetsReady),
            OfSupervisor(Hears), OfSupervisor(Hears), BarrierOpens];
    var s0 := Initial(1);
    var s1 := Next(s0, run[0]).value;
    var s2 := Next(s1, run[1]).value;
    var s3 := Next(s2, run[2]).value;
    assert s3.statuses == [CaptureReady, PlaybackReady];
    var s4 := Next(s3, run[3]).value;
    assert s4.statuses == [PlaybackReady];
    var s5 := Next(s4, run[4]).value;
    assert s5.statuses == [];
    var s6 := Next(s5, run[5]).value;
    RunAlong([s0, s1, s2, s3, s4, s5, s6], run);
  }

  lemma EndsAtOnce() returns (run: seq<Event>)
    ensures Run(JustStarted(), run).Some? && Run(JustStarted(), run).value.supervisor.SPanicked?
  {
    run := [OfCapture(Polls(EndOfStream)), OfCapture(SendsEnd), OfProcessing(Receives), OfProcessing(ForwardsEnd),
            OfSupervisor(Obeys(ChangeParameters))];
    var s0 := JustStarted();
    var s1 := Next(s0, run[0]).value;
    var s2 := Next(s1, run[1]).value;
    assert s2.toProcessing == [EndOfStream];
    var s3 := Next(s2, run[2]).value;
    var s4 := Next(s3, run[3]).value;
    var s5 := Next(s4, run[4]).value;
    RunAlong([s0, s1, s2, s3, s4, s5], run);
  }

  /** It does happen: a stream ends by itself before playback has begun, and then the parameters are changed. */
  lemma LateChangePanics() returns (run: seq<Event>)
    ensures Run(Initial(1), run).Some? && Run(Initial(1), run).value.supervisor.SPanicked?
  {
    var first := StartsUp();
    var rest := EndsAtOnce();
    RunConcat(Initial(1), first, rest);
    run := first + rest;
  }

  // ---------------------------------------------------------------------------------------------
  // Shutting down
  // ---------------------------------------------------------------------------------------------

  /** Once the supervisor waits for the threads, every step of every thread reduces the work left. */
  lemma ShutdownMakesProgress(s: State, e: Event)
    requires Inv(s) && Joining(s) && Next(s, e).Some?
    ensures Joining(Next(s, e).value) && WorkLeft(Next(s, e).value) < WorkLeft(s)
  {
    StepIsGood(s, e);
  }

  /** Every interleaving after a shutdown began is short. */
  lemma {:induction false} ShutdownIsBounded(s: State, run: seq<Event>)
    requires Inv(s) && Joining(s) && Run(s, run).Some?
    ensures |run| <= WorkLeft(s)
    decreases |run|
  {
    if run != [] {
      ShutdownMakesProgress(s, run[0]);
      StepIsGood(s, run[0]);
      ShutdownIsBounded(Next(s, run[0]).value, run[1..]);
    }
  }

  /** Every interleaving after a shutdown began that cannot be continued has ended all threads: both joins return. */
  lemma {:induction false} ShutdownCompletes(s: State, run: seq<Event>)
    requires Inv(s) && Joining(s) && Run(s, run).Some?
    requires forall e :: Next(Run(s, run).value, e).None?
    ensures AllDone(Run(s, run).value)
  {
    RunKeepsInv(s, run);
    var t := Run(s, run).value;
    if !AllDone(t) {
      SomeStepIsPossible(t);
      assert false;
    }
  }

  /** Stop, Exit and a change of devices begin such a shutdown, in every reachable state in which they are obeyed. */
  lemma {:induction false} CommandBeginsShutdown(limit: nat, run: seq<Event>, control: Control)
    requires limit >= 1 && Run(Initial(limit), run).Some? && !control.ChangeParameters?
    requires Run(Initial(limit), run).value.supervisor.SRunning?
    ensures var s := Run(Initial(limit), run).value;
            Next(s, OfSupervisor(Obeys(control))).Some? &&
            Inv(Next(s, OfSupervisor(Obeys(control))).value) && Joining(Next(s, OfSupervisor(Obeys(control))).value)
  {
    InitialIsInv(limit);
    RunKeepsInv(Initial(limit), run);
    StepIsGood(Run(Initial(limit), run).value, OfSupervisor(Obeys(control)));
  }

  /** What the running supervisor hears begins a shutdown if and only if it is that playback is done or that one side
      has
      failed; a failed playback has capture told to exit, unless it has gone, and a request for another speed is passed
      on
      to it. */
  lemma {:induction false} HearingBeginsShutdownIff(limit: nat, run: seq<Event>)
    requires limit >= 1 && Run(Initial(limit), run).Some?
    requires var s := Run(Initial(limit), run).value; s.supervisor.SRunning? && s.statuses != []
    ensures var s := Run(Initial(limit), run).value;
            var t, status := Next(s, OfSupervisor(Hears)), s.statuses[0];
            t.Some? && Inv(t.value) && t.value.statuses == s.statuses[1..] &&
            (Joining(t.value) <==> status.PlaybackDone? || status.PlaybackError? || status.CaptureError?) &&
            t.value.commands ==
              if s.capture.CExited? then s.commands
              else if status.PlaybackError? then s.commands + [ExitCommand]
              else if status.SpeedRequest? then s.commands + [SetSpeed]
              else s.commands
  {
    InitialIsInv(limit);
    RunKeepsInv(Initial(limit), run);
    StepIsGood(Run(Initial(limit), run).value, OfSupervisor(Hears));
    NoAnnouncementWhileRunning(Run(Initial(limit), run).value);
  }

  lemma NoAnnouncementWhileRunning(s: State)
    requires Inv(s) && s.supervisor.SRunning?
    ensures PlaybackReady !in s.statuses && CaptureReady !in s.statuses
  {
  }
}
