/** Full-duplex ASIO: two threads meet under a mutex to start one stream, a driver thread calls back into contexts that
    they have published, and a two-phase release stops the stream and then disposes of it. */
module Rendezvous {
  import opened Audio

  datatype Side = Playback | Capture

  function Other(x: Side): Side { if x.Playback? then Capture else Playback }

  datatype Pair<T> = Pair(playback: T, capture: T) {
    function Get(x: Side): T { if x.Playback? then playback else capture }

    function Set(x: Side, v: T): Pair<T> {
      if x.Playback? then Pair(v, capture) else Pair(playback, v)
    }
  }

  /** What one side is about to do. */
  datatype Place =
    | Begin                      // open the shared driver
    | Publish                    // create a context and store its pointer
    | Register                   // enter register_and_wait
    | Create                     // holding the mutex: create the buffers
    | Patch                      // holding the mutex: write the buffer addresses into both contexts
    | Start                      // holding the mutex: start the stream
    | Commit                     // holding the mutex: mark the stream as started
    | Wait(woken: bool)          // on the condition variable
    | Streaming                  // registration has succeeded; next is the release
    | ClearPlayback              // holding the mutex: null the playback pointer
    | ClearCapture               // holding the mutex: null the capture pointer
    | Stop                       // holding the mutex: stop the stream
    | Dispose                    // holding the mutex: dispose of the buffers and the driver
    | ClearOwn                   // null the own pointer
    | Free                       // free the own context
    | Ended

  datatype Shared = Shared(pending: Pair<bool>, started: bool, error: bool, activeCount: nat)

  /** The driver thread, which calls the playback part and then the capture part. A context that it has loaded is in
      use until it moves on. */
  datatype Driver = Quiet | InPlayback(context: Option<nat>) | Between | InCapture(context: Option<nat>)

  datatype Phase = Gathering | SettingUp | Failed | Live | Stopped | Disposed

  datatype State = State(
    at: Pair<Place>,
    own: Pair<Option<nat>>,      // the context of each side, by number
    pointer: Pair<Option<nat>>,  // the two global pointers
    nextContext: nat,            // number of the next context
    freed: set<nat>,
    holder: Option<Side>,        // of the mutex, while it is held over several steps
    shared: Option<Shared>,
    driver: Driver,
    attached: bool,              // the driver may call back
    phase: Phase,                // how far the session is; only used to state properties
    creates: nat, starts: nat, stops: nat, disposes: nat)

  const Nobody: State :=
    State(Pair(Begin, Begin), Pair(None, None), Pair(None, None), 0, {}, None, None, Quiet, false, Gathering,
          0, 0, 0, 0)

  datatype Event =
    | Opens(x: Side, ok: bool) | Refuses(x: Side) | Publishes(x: Side) | Registers(x: Side)
    | Creates(x: Side, ok: bool) | Patches(x: Side) | Starts(x: Side, ok: bool) | Commits(x: Side)
    | Wakes(x: Side) | Releases(x: Side)
    | ClearsPlayback(x: Side) | ClearsCapture(x: Side) | StopsStream(x: Side) | Disposes(x: Side)
    | ClearsOwn(x: Side) | Frees(x: Side)
    | NewSession
    | CallsBack | LeavesPlayback | LoadsCapture | LeavesCapture

  // ---------------------------------------------------------------------------------------------
  // Steps; None means that the step is not possible now
  // ---------------------------------------------------------------------------------------------

  function Go(s: State, x: Side, p: Place): State { s.(at := s.at.Set(x, p)) }

  /** The shared state as it is created. */
  const Untouched: Shared := Shared(Pair(false, false), false, false, 0)

  function OpensStep(s: State, x: Side, ok: bool): Option<State> {
    if !s.at.Get(x).Begin? || s.holder.Some? then None
    else if !ok then Some(Go(s, x, Ended))
    else
      var t := if s.shared.Some? then s else s.(shared := Some(Untouched));
      Some(Go(t, x, Publish))
  }

  /** The driver is open, but has too few channels or no fitting format: the side leaves without a trace. */
  function RefusesStep(s: State, x: Side): Option<State> {
    if !s.at.Get(x).Publish? then None else Some(Go(s, x, Ended))
  }

  function PublishesStep(s: State, x: Side): Option<State> {
    if !s.at.Get(x).Publish? then None
    else Some(Go(s.(own := s.own.Set(x, Some(s.nextContext)), pointer := s.pointer.Set(x, Some(s.nextContext)),
                 nextContext := s.nextContext + 1), x, Register))
  }

  /** The second side to register goes on with the mutex held, the first one waits. */
  function RegistersStep(s: State, x: Side): Option<State> {
    if !s.at.Get(x).Register? || s.holder.Some? || s.shared.None? then None
    else
      var h := s.shared.value;
      if h.error then Some(Go(s, x, ClearOwn))
      else if h.pending.Get(Other(x)) then
        Some(Go(s.(shared := Some(h.(pending := Pair(false, false))), holder := Some(x), phase := SettingUp),
                x, Create))
      else
        Some(Go(s.(shared := Some(h.(pending := h.pending.Set(x, true)))), x, Wait(false)))
  }

  /** notify_all */
  function Notify(s: State, x: Side): State {
    if s.at.Get(Other(x)).Wait? then Go(s, Other(x), Wait(true)) else s
  }

  function Fail(s: State, x: Side): State
    requires s.shared.Some?
  {
    Go(Notify(s.(shared := Some(s.shared.value.(error := true)), holder := None, phase := Failed), x), x, ClearOwn)
  }

  function CreatesStep(s: State, x: Side, ok: bool): Option<State> {
    if !s.at.Get(x).Create? || s.shared.None? then None
    else if ok then Some(Go(s.(creates := s.creates + 1), x, Patch))
    else Some(Fail(s, x))
  }

  function PatchesStep(s: State, x: Side): Option<State> {
    if !s.at.Get(x).Patch? then None else Some(Go(s, x, Start))
  }

  function StartsStep(s: State, x: Side, ok: bool): Option<State> {
    if !s.at.Get(x).Start? || s.shared.None? then None
    else if ok then Some(Go(s.(starts := s.starts + 1, attached := true), x, Commit))
    else Some(Fail(s, x))
  }

  function CommitsStep(s: State, x: Side): Option<State> {
    if !s.at.Get(x).Commit? || s.shared.None? then None
    else
      var h := s.shared.value.(started := true, error := false, activeCount := 2);
      Some(Go(Notify(s.(shared := Some(h), holder := None, phase := Live), x), x, Streaming))
  }

  /** Waking up, perhaps for no reason: goes on only when the stream has started or the setup has failed. */
  function WakesStep(s: State, x: Side): Option<State> {
    if !s.at.Get(x).Wait? || s.holder.Some? || s.shared.None? then None
    else if s.shared.value.error then Some(Go(s, x, ClearOwn))
    else if s.shared.value.started then Some(Go(s, x, Streaming))
    else Some(Go(s, x, Wait(false)))
  }

  /** The first side to leave stops the stream, the last one disposes of it. */
  function ReleasesStep(s: State, x: Side): Option<State> {
    if !s.at.Get(x).Streaming? || s.holder.Some? then None
    else if s.shared.None? then Some(Go(s, x, ClearOwn))
    else
      var n := if s.shared.value.activeCount > 0 then s.shared.value.activeCount - 1 else 0;
      var t := s.(shared := Some(s.shared.value.(activeCount := n)));
      if n == 1 then Some(Go(t.(holder := Some(x)), x, ClearPlayback))
      else if n == 0 then Some(Go(t.(holder := Some(x)), x, Dispose))
      else Some(Go(t, x, ClearOwn))
  }

  function ClearsPlaybackStep(s: State, x: Side): Option<State> {
    if !s.at.Get(x).ClearPlayback? then None
    else Some(Go(s.(pointer := s.pointer.Set(Playback, None)), x, ClearCapture))
  }

  function ClearsCaptureStep(s: State, x: Side): Option<State> {
    if !s.at.Get(x).ClearCapture? then None else Some(Go(s.(pointer := s.pointer.Set(Capture, None)), x, Stop))
  }

  /** Stopping returns only when no callback is running; later callbacks are still possible. */
  function StopsStreamStep(s: State, x: Side): Option<State> {
    if !s.at.Get(x).Stop? || !s.driver.Quiet? then None
    else Some(Go(s.(stops := s.stops + 1, holder := None, phase := Stopped), x, ClearOwn))
  }

  function DisposesStep(s: State, x: Side): Option<State> {
    if !s.at.Get(x).Dispose? || !s.driver.Quiet? then None
    else Some(Go(s.(disposes := s.disposes + 1, attached := false, shared := None, holder := None, phase := Disposed),
                 x, ClearOwn))
  }

  function ClearsOwnStep(s: State, x: Side): Option<State> {
    if !s.at.Get(x).ClearOwn? then None else Some(Go(s.(pointer := s.pointer.Set(x, None)), x, Free))
  }

  function FreesStep(s: State, x: Side): Option<State> {
    if !s.at.Get(x).Free? || s.own.Get(x).None? then None
    else Some(Go(s.(freed := s.freed + {s.own.Get(x).value}, own := s.own.Set(x, None)), x, Ended))
  }

  /** Both threads are gone, and the shared state is empty again or nobody ever registered in it. */
  function NewSessionStep(s: State): Option<State> {
    if s.at == Pair(Ended, Ended) && (s.shared.None? || s.shared == Some(Untouched)) && s.driver.Quiet? then
      Some(s.(at := Pair(Begin, Begin), phase := Gathering, creates := 0, starts := 0, stops := 0, disposes := 0))
    else None
  }

  function DriverStep(s: State, e: Event): Option<State> {
    match (s.driver, e)
    case (Quiet, CallsBack) => if s.attached then Some(s.(driver := InPlayback(s.pointer.playback))) else None
    case (InPlayback(_), LeavesPlayback) => Some(s.(driver := Between))
    case (Between, LoadsCapture) => Some(s.(driver := InCapture(s.pointer.capture)))
    case (InCapture(_), LeavesCapture) => Some(s.(driver := Quiet))
    case _ => None
  }

  function Next(s: State, e: Event): Option<State> {
    match e
    case Opens(x, ok) => OpensStep(s, x, ok)
    case Refuses(x) => RefusesStep(s, x)
    case Publishes(x) => PublishesStep(s, x)
    case Registers(x) => RegistersStep(s, x)
    case Creates(x, ok) => CreatesStep(s, x, ok)
    case Patches(x) => PatchesStep(s, x)
    case Starts(x, ok) => StartsStep(s, x, ok)
    case Commits(x) => CommitsStep(s, x)
    case Wakes(x) => WakesStep(s, x)
    case Releases(x) => ReleasesStep(s, x)
    case ClearsPlayback(x) => ClearsPlaybackStep(s, x)
    case ClearsCapture(x) => ClearsCaptureStep(s, x)
    case StopsStream(x) => StopsStreamStep(s, x)
    case Disposes(x) => DisposesStep(s, x)
    case ClearsOwn(x) => ClearsOwnStep(s, x)
    case Frees(x) => FreesStep(s, x)
    case NewSession => NewSessionStep(s)
    case _ => DriverStep(s, e)
  }

  function Run(s: State, events: seq<Event>): Option<State>
    decreases |events|
  {
    if events == [] then Some(s)
    else
      match Next(s, events[0])
      case None => None
      case Some(t) => Run(t, events[1..])
  }

  // ---------------------------------------------------------------------------------------------
  // What every step keeps
  // ---------------------------------------------------------------------------------------------

  predicate HasContext(p: Place) { !p.Begin? && !p.Publish? && !p.Ended? }

  predicate IsSettingUp(p: Place) { p.Create? || p.Patch? || p.Start? || p.Commit? }

  predicate IsStopping(p: Place) { p.ClearPlayback? || p.ClearCapture? || p.Stop? }

  predicate IsLeaving(p: Place) { p.ClearOwn? || p.Free? || p.Ended? }

  /** Told that the stream has started, or about to be told. */
  predicate IsOn(p: Place) { p == Wait(true) || p.Streaming? }

  /** The context the driver is working on. */
  function InUse(d: Driver): Option<nat> {
    if d.InPlayback? || d.InCapture? then d.context else None
  }

  /** The context of one side is alive as long as the side has it, and its pointer leads there or nowhere. */
  ghost predicate ContextIsRight(s: State, x: Side) {
    var own, p := s.own.Get(x), s.at.Get(x);
    && (own.Some? <==> HasContext(p))
    && (own.Some? ==> own.value < s.nextContext && own.value !in s.freed)
    && (s.pointer.Get(x) == None || (s.pointer.Get(x) == own && !p.Free?))
  }

  ghost predicate ContextsAreRight(s: State) {
    && ContextIsRight(s, Playback) && ContextIsRight(s, Capture)
    && (s.own.playback == s.own.capture ==> s.own.playback == None)
    && (forall i :: i in s.freed ==> i < s.nextContext)
  }

  ghost predicate Counts(s: State, creates: nat, starts: nat, stops: nat, disposes: nat) {
    s.creates == creates && s.starts == starts && s.stops == stops && s.disposes == disposes
  }

  /** The driver works, if at all, on the contexts of the two sides. */
  ghost predicate DriverUsesPublished(s: State) {
    && (s.driver.InPlayback? && s.driver.context.Some? ==> s.driver.context == s.own.playback)
    && (s.driver.InCapture? && s.driver.context.Some? ==> s.driver.context == s.own.capture)
  }

  ghost predicate WhileGathering(s: State) {
    && Counts(s, 0, 0, 0, 0) && !s.attached && s.driver.Quiet? && s.holder.None?
    && (forall x: Side ::
          var p := s.at.Get(x);
          (p.Begin? || p.Publish? || p.Register? || p == Wait(false) || p.Ended?) &&
          s.pointer.Get(x) == s.own.Get(x) &&
          (p.Publish? || p.Register? || p.Wait? ==> s.shared.Some?))
    && (s.shared.Some? ==>
          s.shared.value == Shared(Pair(s.at.playback.Wait?, s.at.capture.Wait?), false, false, 0) &&
          !(s.at.playback.Wait? && s.at.capture.Wait?))
  }

  ghost predicate WhileSettingUp(s: State) {
    s.holder.Some? &&
    var p, q := s.at.Get(s.holder.value), s.at.Get(Other(s.holder.value));
    && IsSettingUp(p) && q == Wait(false)
    && Counts(s, if p.Create? then 0 else 1, if p.Commit? then 1 else 0, 0, 0)
    && s.attached == p.Commit? && (!s.attached ==> s.driver.Quiet?) && DriverUsesPublished(s)
    && s.pointer == s.own
    && s.shared == Some(Shared(Pair(false, false), false, false, 0))
  }

  ghost predicate AfterFailure(s: State) {
    && s.creates <= 1 && Counts(s, s.creates, 0, 0, 0) && !s.attached && s.driver.Quiet? && s.holder.None?
    && (forall x: Side :: (s.at.Get(x) == Wait(true) || IsLeaving(s.at.Get(x))))
    && s.shared == Some(Shared(Pair(false, false), false, true, 0))
  }

  ghost predicate WhileLive(s: State) {
    && Counts(s, 1, 1, 0, 0) && s.attached && DriverUsesPublished(s)
    && match s.holder
       case None =>
         IsOn(s.at.playback) && IsOn(s.at.capture) && s.pointer == s.own &&
         s.shared == Some(Shared(Pair(false, false), true, false, 2))
       case Some(x) =>
         var p := s.at.Get(x);
         IsStopping(p) && IsOn(s.at.Get(Other(x))) &&
         s.pointer.playback == (if p.ClearPlayback? then s.own.playback else None) &&
         s.pointer.capture == (if p.Stop? then None else s.own.capture) &&
         s.shared == Some(Shared(Pair(false, false), true, false, 1))
  }

  ghost predicate OneHasLeft(s: State, x: Side) {
    IsLeaving(s.at.Get(x)) &&
    match s.holder
    case None => IsOn(s.at.Get(Other(x))) && s.shared == Some(Shared(Pair(false, false), true, false, 1))
    case Some(y) =>
      y == Other(x) && s.at.Get(y).Dispose? &&
      s.shared == Some(Shared(Pair(false, false), true, false, 0))
  }

  ghost predicate AfterStop(s: State) {
    && Counts(s, 1, 1, 1, 0) && s.attached && s.pointer == Pair(None, None) && InUse(s.driver) == None
    && (OneHasLeft(s, Playback) || OneHasLeft(s, Capture))
  }

  ghost predicate AfterDispose(s: State) {
    && Counts(s, 1, 1, 1, 1) && s.pointer == Pair(None, None) && !s.attached && s.driver.Quiet? && s.holder.None?
    && s.shared.None? && IsLeaving(s.at.playback) && IsLeaving(s.at.capture)
  }

  ghost predicate Inv(s: State) {
    ContextsAreRight(s) &&
    match s.phase
    case Gathering => WhileGathering(s)
    case SettingUp => WhileSettingUp(s)
    case Failed => AfterFailure(s)
    case Live => WhileLive(s)
    case Stopped => AfterStop(s)
    case Disposed => AfterDispose(s)
  }

  ghost predicate Keeps(t: Option<State>) { t.Some? ==> Inv(t.value) }

  lemma OpensKeepsInv(s: State, x: Side, ok: bool)
    requires Inv(s)
    ensures Keeps(OpensStep(s, x, ok))
  {
  }

  lemma RefusesKeepsInv(s: State, x: Side)
    requires Inv(s)
    ensures Keeps(RefusesStep(s, x))
  {
  }

  lemma PublishesKeepsInv(s: State, x: Side)
    requires Inv(s)
    ensures Keeps(PublishesStep(s, x))
  {
  }

  lemma RegistersKeepsInv(s: State, x: Side)
    requires Inv(s)
    ensures Keeps(RegistersStep(s, x))
  {
    if RegistersStep(s, x).Some? {
      OnlyGatheringSidesRegister(s, x);
      if s.shared.value.pending.Get(Other(x)) {
        SecondSideKeepsInv(s, x);
      } else {
        FirstSideKeepsInv(s, x);
      }
    }
  }

  lemma OnlyGatheringSidesRegister(s: State, x: Side)
    requires Inv(s) && s.at.Get(x).Register?
    ensures s.phase.Gathering? && s.shared.Some? && !s.shared.value.error
  {
  }

  lemma FirstSideKeepsInv(s: State, x: Side)
    requires Inv(s) && s.phase.Gathering? && s.at.Get(x).Register? && !s.shared.value.pending.Get(Other(x))
    ensures Keeps(RegistersStep(s, x))
  {
  }

  lemma SecondSideKeepsInv(s: State, x: Side)
    requires Inv(s) && s.phase.Gathering? && s.at.Get(x).Register? && s.shared.value.pending.Get(Other(x))
    ensures Keeps(RegistersStep(s, x))
  {
  }

  lemma FailKeepsInv(s: State, x: Side)
    requires Inv(s) && (s.at.Get(x).Create? || s.at.Get(x).Start?)
    ensures s.shared.Some? && Inv(Fail(s, x))
  {
    FailKeepsContexts(s, x);
  }

  lemma FailKeepsContexts(s: State, x: Side)
    requires Inv(s) && (s.at.Get(x).Create? || s.at.Get(x).Start?)
    ensures s.shared.Some? && s.at.Get(Other(x)) == Wait(false) && ContextsAreRight(Fail(s, x))
  {
  }

  lemma CreatesKeepsInv(s: State, x: Side, ok: bool)
    requires Inv(s)
    ensures Keeps(CreatesStep(s, x, ok))
  {
    if CreatesStep(s, x, ok).Some? {
      if ok { CreatedKeepsInv(s, x); } else { FailKeepsInv(s, x); }
    }
  }

  lemma CreatedKeepsInv(s: State, x: Side)
    requires Inv(s)
    ensures Keeps(CreatesStep(s, x, true))
  {
  }

  lemma PatchesKeepsInv(s: State, x: Side)
    requires Inv(s)
    ensures Keeps(PatchesStep(s, x))
  {
  }

  lemma StartsKeepsInv(s: State, x: Side, ok: bool)
    requires Inv(s)
    ensures Keeps(StartsStep(s, x, ok))
  {
    if StartsStep(s, x, ok).Some? {
      if ok { StartedKeepsInv(s, x); } else { FailKeepsInv(s, x); }
    }
  }

  lemma StartedKeepsInv(s: State, x: Side)
    requires Inv(s)
    ensures Keeps(StartsStep(s, x, true))
  {
  }

  lemma CommitsKeepsInv(s: State, x: Side)
    requires Inv(s)
    ensures Keeps(CommitsStep(s, x))
  {
  }

  lemma WakesKeepsInv(s: State, x: Side)
    requires Inv(s)
    ensures Keeps(WakesStep(s, x))
  {
    if WakesStep(s, x).Some? {
      if s.shared.value.error { FailedSideKeepsInv(s, x); } else { WokenSideKeepsInv(s, x); }
    }
  }

  lemma FailedSideKeepsInv(s: State, x: Side)
    requires Inv(s) && s.shared.Some? && s.shared.value.error
    ensures Keeps(WakesStep(s, x))
  {
  }

  lemma WokenSideKeepsInv(s: State, x: Side)
    requires Inv(s) && s.shared.Some? && !s.shared.value.error
    ensures Keeps(WakesStep(s, x))
  {
  }

  lemma ReleasesKeepsInv(s: State, x: Side)
    requires Inv(s)
    ensures Keeps(ReleasesStep(s, x))
  {
    if ReleasesStep(s, x).Some? {
      if s.phase.Live? { FirstReleaseKeepsInv(s, x); } else { LastReleaseKeepsInv(s, x); }
    }
  }

  lemma FirstReleaseKeepsInv(s: State, x: Side)
    requires Inv(s) && s.phase.Live?
    ensures Keeps(ReleasesStep(s, x))
  {
  }

  lemma LastReleaseKeepsInv(s: State, x: Side)
    requires Inv(s) && !s.phase.Live?
    ensures Keeps(ReleasesStep(s, x))
  {
  }

  lemma ClearsPlaybackKeepsInv(s: State, x: Side)
    requires Inv(s)
    ensures Keeps(ClearsPlaybackStep(s, x))
  {
  }

  lemma ClearsCaptureKeepsInv(s: State, x: Side)
    requires Inv(s)
    ensures Keeps(ClearsCaptureStep(s, x))
  {
  }

  lemma StopsStreamKeepsInv(s: State, x: Side)
    requires Inv(s)
    ensures Keeps(StopsStreamStep(s, x))
  {
  }

  lemma DisposesKeepsInv(s: State, x: Side)
    requires Inv(s)
    ensures Keeps(DisposesStep(s, x))
  {
  }

  lemma ClearsOwnKeepsInv(s: State, x: Side)
    requires Inv(s)
    ensures Keeps(ClearsOwnStep(s, x))
  {
  }

  lemma FreesKeepsInv(s: State, x: Side)
    requires Inv(s)
    ensures Keeps(FreesStep(s, x))
  {
  }

  lemma NewSessionKeepsInv(s: State)
    requires Inv(s)
    ensures Keeps(NewSessionStep(s))
  {
  }

  lemma DriverKeepsInv(s: State, e: Event)
    requires Inv(s)
    ensures Keeps(DriverStep(s, e))
  {
    var t := DriverStep(s, e);
    if t.Some? {
      OnlyTheDriverMoves(s, e);
      DriverStaysOnContexts(s, e);
    }
  }

  lemma OnlyTheDriverMoves(s: State, e: Event)
    requires Inv(s) && DriverStep(s, e).Some?
    ensures s.phase.SettingUp? || s.phase.Live? || s.phase.Stopped?
    ensures DriverStep(s, e).value == s.(driver := DriverStep(s, e).value.driver)
  {
  }

  lemma DriverStaysOnContexts(s: State, e: Event)
    requires Inv(s) && DriverStep(s, e).Some? && (s.phase.SettingUp? || s.phase.Live? || s.phase.Stopped?)
    ensures if s.phase.Stopped? then InUse(DriverStep(s, e).value.driver) == None
            else DriverUsesPublished(DriverStep(s, e).value) && s.attached
  {
  }

  predicate IsSetup(e: Event) {
    e.Opens? || e.Refuses? || e.Publishes? || e.Registers? || e.Creates? || e.Patches? || e.Starts? || e.Commits? ||
    e.Wakes?
  }

  lemma SetupKeepsInv(s: State, e: Event)
    requires Inv(s) && IsSetup(e)
    ensures Keeps(Next(s, e))
  {
    match e
    case Opens(x, ok) => OpensKeepsInv(s, x, ok);
    case Refuses(x) => RefusesKeepsInv(s, x);
    case Publishes(x) => PublishesKeepsInv(s, x);
    case Registers(x) => RegistersKeepsInv(s, x);
    case Creates(x, ok) => CreatesKeepsInv(s, x, ok);
    case Patches(x) => PatchesKeepsInv(s, x);
    case Starts(x, ok) => StartsKeepsInv(s, x, ok);
    case Commits(x) => CommitsKeepsInv(s, x);
    case Wakes(x) => WakesKeepsInv(s, x);
  }

  lemma StepKeepsInv(s: State, e: Event)
    requires Inv(s)
    ensures Keeps(Next(s, e))
  {
    if IsSetup(e) {
      SetupKeepsInv(s, e);
    } else {
      TeardownKeepsInv(s, e);
    }
  }

  lemma TeardownKeepsInv(s: State, e: Event)
    requires Inv(s) && !IsSetup(e)
    ensures Keeps(Next(s, e))
  {
    match e
    case Releases(x) => ReleasesKeepsInv(s, x);
    case ClearsPlayback(x) => ClearsPlaybackKeepsInv(s, x);
    case ClearsCapture(x) => ClearsCaptureKeepsInv(s, x);
    case StopsStream(x) => StopsStreamKeepsInv(s, x);
    case Disposes(x) => DisposesKeepsInv(s, x);
    case ClearsOwn(x) => ClearsOwnKeepsInv(s, x);
    case Frees(x) => FreesKeepsInv(s, x);
    case NewSession => NewSessionKeepsInv(s);
    case _ => DriverKeepsInv(s, e);
  }

  lemma {:induction false} RunKeepsInv(s: State, events: seq<Event>)
    requires Inv(s) && Run(s, events).Some?
    ensures Inv(Run(s, events).value)
    decreases |events|
  {
    if events != [] {
      StepKeepsInv(s, events[0]);
      RunKeepsInv(Next(s, events[0]).value, events[1..]);
    }
  }

  lemma NobodyIsInv()
    ensures Inv(Nobody)
  {
  }

  // ---------------------------------------------------------------------------------------------
  // Safety of the contexts
  // ---------------------------------------------------------------------------------------------

  /** In every interleaving of the two sides and the driver, over any number of sessions: the context the driver works
      on has not been freed, and neither has a context that is about to be given its buffers. */
  lemma {:induction false} NoUseAfterFree(events: seq<Event>)
    requires Run(Nobody, events).Some?
    ensures var s := Run(Nobody, events).value;
            (InUse(s.driver).Some? ==> InUse(s.driver).value !in s.freed) &&
            forall x: Side, y: Side :: s.at.Get(x).Patch? ==>
              s.pointer.Get(y).Some? && s.pointer.Get(y).value !in s.freed
  {
    NobodyIsInv();
    RunKeepsInv(Nobody, events);
  }

  /** A context is freed only when its pointer is null, the driver is not working on it, and the stream was never
      started or has been stopped. */
  lemma {:induction false} FreedWhenOutOfReach(events: seq<Event>, x: Side)
    requires Run(Nobody, events).Some? && FreesStep(Run(Nobody, events).value, x).Some?
    ensures var s := Run(Nobody, events).value;
            s.own.Get(x).Some? && s.pointer.Get(x) == None && InUse(s.driver) != s.own.Get(x) &&
              (s.starts == 0 || s.stops == 1)
  {
    NobodyIsInv();
    RunKeepsInv(Nobody, events);
  }

  // ---------------------------------------------------------------------------------------------
  // The life of the stream
  // ---------------------------------------------------------------------------------------------

  /** Within a session buffers are created, the stream is started, stopped and disposed of at most once each and in this
      order; buffers are created and the stream is started with both contexts published; no side is told that the
      stream is on before it is. */
  lemma {:induction false} StreamLivesOnce(events: seq<Event>)
    requires Run(Nobody, events).Some?
    ensures var s := Run(Nobody, events).value;
            s.disposes <= s.stops <= s.starts <= s.creates <= 1 &&
            forall x: Side ::
              (s.at.Get(x).Create? || s.at.Get(x).Start? ==> s.pointer.playback.Some? && s.pointer.capture.Some?) &&
              (s.at.Get(x).Streaming? ==> s.starts == 1)
  {
    NobodyIsInv();
    RunKeepsInv(Nobody, events);
  }

  /** When both sides have ended and the stream was on in this session, it was stopped once, disposed of once, and the
      shared state is empty again, so that a new session can begin. */
  lemma {:induction false} SessionEndsClean(events: seq<Event>)
    requires Run(Nobody, events).Some?
    requires Run(Nobody, events).value.at == Pair(Ended, Ended) && Run(Nobody, events).value.starts == 1
    ensures var s := Run(Nobody, events).value;
            Counts(s, 1, 1, 1, 1) && s.shared.None? && s.pointer == Pair(None, None) && NewSessionStep(s).Some?
  {
    NobodyIsInv();
    RunKeepsInv(Nobody, events);
  }

  // ---------------------------------------------------------------------------------------------
  // Progress
  // ---------------------------------------------------------------------------------------------

  /** One side is gone, and the other one waits without having been woken. */
  predicate Abandoned(s: State) {
    (s.at.playback.Ended? && s.at.capture == Wait(false)) || (s.at.capture.Ended? && s.at.playback == Wait(false))
  }

  /** A step that the side can take now if nothing keeps it waiting. */
  function StepOf(p: Place, x: Side): Event {
    match p
    case Begin => Opens(x, true)
    case Publish => Publishes(x)
    case Register => Registers(x)
    case Create => Creates(x, true)
    case Patch => Patches(x)
    case Start => Starts(x, true)
    case Commit => Commits(x)
    case Wait(_) => Wakes(x)
    case Streaming => Releases(x)
    case ClearPlayback => ClearsPlayback(x)
    case ClearCapture => ClearsCapture(x)
    case Stop => StopsStream(x)
    case Dispose => Disposes(x)
    case ClearOwn => ClearsOwn(x)
    case Free => Frees(x)
    case Ended => NewSession
  }

  function SomeStep(s: State): Event {
    if s.driver.InPlayback? then LeavesPlayback
    else if s.driver.Between? then LoadsCapture
    else if s.driver.InCapture? then LeavesCapture
    else if s.holder.Some? then StepOf(s.at.Get(s.holder.value), s.holder.value)
    else if s.at.playback.Ended? || s.at.playback == Wait(false) then StepOf(s.at.capture, Capture)
    else StepOf(s.at.playback, Playback)
  }

  function Work(p: Place): nat {
    match p
    case Begin => 16
    case Publish => 15
    case Register => 14
    case Wait(woken) => if woken then 9 else 13
    case Create => 13
    case Patch => 12
    case Start => 11
    case Commit => 10
    case Streaming => 8
    case ClearPlayback => 7
    case ClearCapture => 6
    case Stop => 5
    case Dispose => 5
    case ClearOwn => 3
    case Free => 2
    case Ended => 0
  }

  function DriverWork(d: Driver): nat {
    match d
    case Quiet => 0
    case InPlayback(_) => 3
    case Between => 2
    case InCapture(_) => 1
  }

  /** What the two sides still have to do in this session, and the callback that is running. */
  function WorkLeft(s: State): nat { Work(s.at.playback) + Work(s.at.capture) + DriverWork(s.driver) }

  /** No wake-up is lost: in a reachable state in which not both sides have ended, some side or the running callback
      can take a step that leaves less to do, if and only if it is not so that one side is gone and the other one still
      waits to be woken. */
  lemma {:induction false} NeverStuck(events: seq<Event>)
    requires Run(Nobody, events).Some? && Run(Nobody, events).value.at != Pair(Ended, Ended)
    ensures var s := Run(Nobody, events).value;
            (exists e :: Progresses(s, e)) <==> !Abandoned(s)
  {
    NobodyIsInv();
    RunKeepsInv(Nobody, events);
    var s := Run(Nobody, events).value;
    if Abandoned(s) {
      AbandonedStays(s);
    } else {
      SomeStepIsPossible(s);
    }
  }

  /** Once a side has been abandoned nothing ever changes again. A side is abandoned only before anything was set up:
      its partner left without registering. */
  lemma {:induction false} AbandonedForever(events: seq<Event>, more: seq<Event>)
    requires Run(Nobody, events).Some? && Abandoned(Run(Nobody, events).value)
    requires Run(Run(Nobody, events).value, more).Some?
    ensures var s := Run(Nobody, events).value;
            Run(s, more).value == s && Counts(s, 0, 0, 0, 0) && s.shared.Some? && !s.shared.value.error
  {
    NobodyIsInv();
    RunKeepsInv(Nobody, events);
    StaysAbandoned(Run(Nobody, events).value, more);
  }

  lemma AbandonedStays(s: State)
    requires Inv(s) && Abandoned(s)
    ensures Counts(s, 0, 0, 0, 0) && s.shared.Some? && !s.shared.value.error
    ensures forall e :: Next(s, e).Some? ==> Next(s, e).value == s
  {
  }

  lemma {:induction false} StaysAbandoned(s: State, more: seq<Event>)
    requires Inv(s) && Abandoned(s) && Run(s, more).Some?
    ensures Run(s, more).value == s
    ensures Counts(s, 0, 0, 0, 0) && s.shared.Some? && !s.shared.value.error
    decreases |more|
  {
    AbandonedStays(s);
    if more != [] {
      assert Next(s, more[0]).value == s;
      StaysAbandoned(s, more[1..]);
    }
  }

  ghost predicate Progresses(s: State, e: Event) {
    Next(s, e).Some? && WorkLeft(Next(s, e).value) < WorkLeft(s)
  }

  lemma HolderCanMove(s: State, x: Side)
    requires Inv(s) && s.holder == Some(x) && s.driver.Quiet?
    ensures Progresses(s, StepOf(s.at.Get(x), x))
  {
    if s.at.Get(x).Create? || s.at.Get(x).Patch? || s.at.Get(x).Start? || s.at.Get(x).Commit? {
      StartingHolderCanMove(s, x);
    } else {
      StoppingHolderCanMove(s, x);
    }
  }

  lemma StartingHolderCanMove(s: State, x: Side)
    requires Inv(s) && s.holder == Some(x) && s.driver.Quiet?
    requires s.at.Get(x).Create? || s.at.Get(x).Patch? || s.at.Get(x).Start? || s.at.Get(x).Commit?
    ensures Progresses(s, StepOf(s.at.Get(x), x))
  {
  }

  lemma StoppingHolderCanMove(s: State, x: Side)
    requires Inv(s) && s.holder == Some(x) && s.driver.Quiet?
    requires !s.at.Get(x).Create? && !s.at.Get(x).Patch? && !s.at.Get(x).Start? && !s.at.Get(x).Commit?
    ensures Progresses(s, StepOf(s.at.Get(x), x))
  {
  }

  /** Less work once x has moved on and the other side is where it was. */
  lemma MovedOn(s: State, t: State, x: Side)
    requires t.driver == s.driver && t.at.Get(Other(x)) == s.at.Get(Other(x)) && Work(t.at.Get(x)) < Work(s.at.Get(x))
    ensures WorkLeft(t) < WorkLeft(s)
  {
  }

  lemma GatheringSideCanMove(s: State, x: Side)
    requires Inv(s) && s.holder.None? && (s.at.Get(x).Begin? || s.at.Get(x).Publish? || s.at.Get(x).Register?)
    ensures Progresses(s, StepOf(s.at.Get(x), x))
  {
  }

  lemma StreamingSideCanMove(s: State, x: Side)
    requires Inv(s) && s.holder.None? && s.at.Get(x).Streaming?
    ensures Progresses(s, Releases(x))
  {
    assert s.shared.Some?;
    MovedOn(s, ReleasesStep(s, x).value, x);
  }

  lemma LeavingSideCanMove(s: State, x: Side)
    requires Inv(s) && (s.at.Get(x).ClearOwn? || s.at.Get(x).Free?)
    ensures Progresses(s, StepOf(s.at.Get(x), x))
  {
    ContextIsThere(s, x);
    if s.at.Get(x).ClearOwn? { ClearingMoves(s, x); } else { FreeingMoves(s, x); }
  }

  lemma ClearingMoves(s: State, x: Side)
    requires s.at.Get(x).ClearOwn?
    ensures Progresses(s, ClearsOwn(x))
  {
    MovedOn(s, ClearsOwnStep(s, x).value, x);
  }

  lemma FreeingMoves(s: State, x: Side)
    requires s.at.Get(x).Free? && s.own.Get(x).Some?
    ensures Progresses(s, Frees(x))
  {
    MovedOn(s, FreesStep(s, x).value, x);
  }

  lemma ContextIsThere(s: State, x: Side)
    requires Inv(s) && (s.at.Get(x).ClearOwn? || s.at.Get(x).Free?)
    ensures s.own.Get(x).Some?
  {
  }

  lemma FreeSideIsSomewhere(s: State, x: Side)
    requires Inv(s) && s.holder.None?
    ensures var p := s.at.Get(x);
            p.Begin? || p.Publish? || p.Register? || p.Wait? || p.Streaming? || p.ClearOwn? || p.Free? || p.Ended?
  {
  }

  lemma FreeSideCanMove(s: State, x: Side)
    requires Inv(s) && s.holder.None? && s.at.Get(x) != Ended && s.at.Get(x) != Wait(false)
    ensures Progresses(s, StepOf(s.at.Get(x), x))
  {
    FreeSideIsSomewhere(s, x);
    if s.at.Get(x).Wait? {
      WokenCanMove(s, x);
    } else if s.at.Get(x).Begin? || s.at.Get(x).Publish? || s.at.Get(x).Register? {
      GatheringSideCanMove(s, x);
    } else if s.at.Get(x).Streaming? {
      StreamingSideCanMove(s, x);
    } else {
      LeavingSideCanMove(s, x);
    }
  }

  lemma WokenCanMove(s: State, x: Side)
    requires Inv(s) && s.holder.None? && s.at.Get(x) == Wait(true)
    ensures WakesStep(s, x).Some? && WorkLeft(WakesStep(s, x).value) < WorkLeft(s)
  {
    assert s.shared.Some? && (s.shared.value.started || s.shared.value.error);
    MovedOn(s, WakesStep(s, x).value, x);
  }

  lemma SomeSideIsFree(s: State)
    requires Inv(s) && s.holder.None? && s.at != Pair(Ended, Ended) && !Abandoned(s)
    requires s.at.playback.Ended? || s.at.playback == Wait(false)
    ensures s.at.capture != Ended && s.at.capture != Wait(false)
  {
  }

  lemma SomeStepIsPossible(s: State)
    requires Inv(s) && s.at != Pair(Ended, Ended) && !Abandoned(s)
    ensures Progresses(s, SomeStep(s))
  {
    if !s.driver.Quiet? {
    } else if s.holder.Some? {
      HolderCanMove(s, s.holder.value);
    } else if s.at.playback.Ended? || s.at.playback == Wait(false) {
      SomeSideIsFree(s);
      FreeSideCanMove(s, Capture);
    } else {
      FreeSideCanMove(s, Playback);
    }
  }

  /** Which sides have failed to open the driver, or refused it, in the session so far. */
  function AlsoGaveUp(g: Pair<bool>, e: Event): Pair<bool> {
    match e
    case Opens(x, ok) => if ok then g else g.Set(x, true)
    case Refuses(x) => g.Set(x, true)
    case NewSession => Pair(false, false)
    case _ => g
  }

  function GaveUp(g: Pair<bool>, events: seq<Event>): Pair<bool>
    decreases |events|
  {
    if events == [] then g else GaveUp(AlsoGaveUp(g, events[0]), events[1..])
  }

  /** A side that has given up has ended before anything was set up. */
  ghost predicate Tracks(g: Pair<bool>, s: State, x: Side) {
    g.Get(x) <==> s.phase.Gathering? && s.at.Get(x).Ended?
  }

  lemma SetupTracks(g: Pair<bool>, s: State, e: Event, x: Side)
    requires Inv(s) && Tracks(g, s, x) && IsSetup(e) && Next(s, e).Some?
    ensures Tracks(AlsoGaveUp(g, e), Next(s, e).value, x)
  {
  }

  lemma OthersTrack(g: Pair<bool>, s: State, e: Event, x: Side)
    requires Inv(s) && Tracks(g, s, x) && !IsSetup(e) && Next(s, e).Some?
    ensures Tracks(AlsoGaveUp(g, e), Next(s, e).value, x)
  {
  }

  lemma {:induction false} RunTracks(g: Pair<bool>, s: State, events: seq<Event>)
    requires Inv(s) && Run(s, events).Some? && Tracks(g, s, Playback) && Tracks(g, s, Capture)
    ensures Tracks(GaveUp(g, events), Run(s, events).value, Playback)
    ensures Tracks(GaveUp(g, events), Run(s, events).value, Capture)
    decreases |events|
  {
    if events != [] {
      var e := events[0];
      StepKeepsInv(s, e);
      if IsSetup(e) {
        SetupTracks(g, s, e, Playback);
        SetupTracks(g, s, e, Capture);
      } else {
        OthersTrack(g, s, e, Playback);
        OthersTrack(g, s, e, Capture);
      }
      RunTracks(AlsoGaveUp(g, e), Next(s, e).value, events[1..]);
    }
  }

  /** A session that cannot go on has a side left behind if and only if exactly one side failed to open the driver or
      refused it. */
  lemma {:induction false} LeftBehindIffOneGaveUp(events: seq<Event>)
    requires Run(Nobody, events).Some? && forall e :: !Progresses(Run(Nobody, events).value, e)
    ensures var g := GaveUp(Pair(false, false), events);
            Run(Nobody, events).value.at != Pair(Ended, Ended) <==> g.playback != g.capture
  {
    NobodyIsInv();
    RunKeepsInv(Nobody, events);
    RunTracks(Pair(false, false), Nobody, events);
    if Run(Nobody, events).value.at != Pair(Ended, Ended) {
      NeverStuck(events);
      AbandonedStays(Run(Nobody, events).value);
    }
  }

  /** It does happen: the capture side cannot open the driver, so it never registers. */
  lemma LoneSideWaitsForever()
    ensures var events := [Opens(Playback, true), Opens(Capture, false), Publishes(Playback), Registers(Playback)];
            Run(Nobody, events).Some? && Abandoned(Run(Nobody, events).value)
  {
  }
}
