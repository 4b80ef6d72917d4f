/** The commands of the user: how the main loop and the running supervisor turn them into the active configuration. */
module Commands {
  import opened Audio
  import C = Config
  import opened Reconfigure
  import opened Engine

  datatype Command = ConfigChanged(conf: C.Configuration) | Stop | Exit

  /** The main loop waits for a configuration, runs with it, or has ended. */
  datatype Mode = Waiting | Running(start: C.Configuration, active: C.Configuration, sent: seq<Message>) | Ended

  datatype State = State(
    mode: Mode,
    shared: Option<C.Configuration>,      // the active configuration, as everyone sees it
    previous: Option<C.Configuration>,
    queue: seq<Command>,
    history: seq<Command>)                // every command queued since the beginning, or since threads last failed

  const Begin: State := State(Waiting, None, None, [], [])

  datatype Event =
    | Arrives(command: Command)
    | MainLoopStep(wait: bool)
    | SupervisorStep(change: ConfigChange)
    | ThreadsFail

  // ---------------------------------------------------------------------------------------------
  // Steps
  // ---------------------------------------------------------------------------------------------

  /** The loop that waits for a configuration. It starts running only when no command is left in the queue. */
  function MainStep(s: State, wait: bool): Option<State> {
    if !s.mode.Waiting? then None
    else if s.queue == [] then
      match s.shared
      case Some(conf) => Some(s.(mode := Running(conf, conf, [])))
      case None => if wait then None else Some(s.(mode := Ended))
    else
      var rest := s.(queue := s.queue[1..]);
      match s.queue[0]
      case ConfigChanged(conf) => Some(rest.(shared := Some(conf)))
      case Stop => Some(rest.(shared := None))
      case Exit => Some(rest.(mode := Ended))
  }

  /** The running supervisor takes one command. `change` is the difference between the active and a new
      configuration. */
  function SuperviseStep(s: State, change: ConfigChange): Option<State> {
    if !s.mode.Running? || s.queue == [] then None
    else
      var rest := s.(queue := s.queue[1..]);
      match s.queue[0]
      case ConfigChanged(conf) =>
        if s.queue[1..] != [] then Some(rest)
        else if change.NoChange? then Some(rest)
        else if change.DevicesChange? then Some(rest.(mode := Waiting, shared := Some(conf)))
        else
          Some(rest.(shared := Some(conf),
                     mode := s.mode.(active := conf, sent := s.mode.sent + [Message(change, conf)])))
      case Stop => Some(rest.(mode := Waiting, shared := None, previous := Some(s.mode.active)))
      case Exit => Some(rest.(mode := Ended, previous := Some(s.mode.active)))
  }

  ghost predicate Possible(s: State, e: Event) {
    e.SupervisorStep? && s.mode.Running? && s.queue != [] && s.queue[0].ConfigChanged? ==>
      IsDiff(s.mode.active, s.queue[0].conf, e.change)
  }

  function Next(s: State, e: Event): Option<State> {
    match e
    case Arrives(command) => Some(s.(queue := s.queue + [command], history := s.history + [command]))
    case MainLoopStep(wait) => MainStep(s, wait)
    case SupervisorStep(change) => SuperviseStep(s, change)
    case ThreadsFail =>
      if s.mode.Running? then
        Some(s.(mode := Waiting, shared := None, previous := Some(s.mode.active), history := s.queue))
      else None
  }

  ghost predicate Reachable(run: seq<State>, events: seq<Event>) {
    |run| == |events| + 1 && run[0] == Begin &&
    forall i :: 0 <= i < |events| ==> Possible(run[i], events[i]) && Next(run[i], events[i]) == Some(run[i + 1])
  }

  // ---------------------------------------------------------------------------------------------
  // The last command wins
  // ---------------------------------------------------------------------------------------------

  /** The active configuration the commands ask for, when they start from the given one. */
  function Asked(commands: seq<Command>, from: Option<C.Configuration>): Option<C.Configuration> {
    if commands == [] then from
    else
      match commands[|commands| - 1]
      case ConfigChanged(conf) => Some(conf)
      case Stop => None
      case Exit => Asked(commands[..|commands| - 1], from)
  }

  /** The messages sent to the pipeline lead, difference by difference, from one configuration to another. */
  ghost predicate LeadsTo(start: C.Configuration, sent: seq<Message>, end: C.Configuration) {
    if sent == [] then start == end
    else
      var n := |sent| - 1;
      sent[n].conf == end && !sent[n].change.NoChange? && !sent[n].change.DevicesChange? &&
      var before := ConfigAfter(start, sent, n);
      IsDiff(before, end, sent[n].change) && LeadsTo(start, sent[..n], before)
  }

  ghost predicate Inv(s: State) {
    && (s.mode.Running? ==> s.shared == Some(s.mode.active) && LeadsTo(s.mode.start, s.mode.sent, s.mode.active))
    && (!s.mode.Ended? && Exit in s.history ==> Exit in s.queue)
    && (!s.mode.Ended? && Exit !in s.history ==> Exit !in s.queue && Asked(s.queue, s.shared) == Asked(s.history, None))
  }

  lemma StepKeepsInv(s: State, e: Event)
    requires Inv(s) && Possible(s, e) && Next(s, e).Some?
    ensures Inv(Next(s, e).value)
  {
    match e
    case Arrives(command) => ArrivalKeepsInv(s, command);
    case MainLoopStep(wait) => MainStepKeepsInv(s, wait);
    case SupervisorStep(change) =>
      if s.queue[0].ConfigChanged? { ChangeKeepsInv(s, change); } else { LeavingKeepsInv(s, change); }
    case ThreadsFail => FailureKeepsInv(s);
  }

  lemma ArrivalKeepsInv(s: State, command: Command)
    requires Inv(s)
    ensures Inv(s.(queue := s.queue + [command], history := s.history + [command]))
  {
  }

  lemma FailureKeepsInv(s: State)
    requires Inv(s) && s.mode.Running?
    ensures Inv(s.(mode := Waiting, shared := None, previous := Some(s.mode.active), history := s.queue))
  {
  }

  /** Taking the first command away: what the others ask for, from where the first one leads, is the same. */
  lemma FirstCommand(queue: seq<Command>, from: Option<C.Configuration>)
    requires queue != [] && Exit !in queue
    ensures Exit !in queue[1..]
    ensures Asked(queue, from) == Asked(queue[1..], if queue[0].ConfigChanged? then Some(queue[0].conf) else None)
    ensures queue[1..] != [] ==> Asked(queue, from) == Asked(queue[1..], from)
  {
  }

  lemma MainStepKeepsInv(s: State, wait: bool)
    requires Inv(s) && MainStep(s, wait).Some?
    ensures Inv(MainStep(s, wait).value)
  {
    if s.queue != [] && Exit !in s.queue { FirstCommand(s.queue, s.shared); }
  }

  lemma ChangeKeepsInv(s: State, change: ConfigChange)
    requires Inv(s) && Possible(s, SupervisorStep(change)) && SuperviseStep(s, change).Some? &&
      s.queue[0].ConfigChanged?
    ensures Inv(SuperviseStep(s, change).value)
  {
    if Exit !in s.queue { FirstCommand(s.queue, s.shared); }
    if s.queue[1..] == [] && !change.NoChange? && !change.DevicesChange? { MessageLeadsOn(s, change); }
  }

  lemma MessageLeadsOn(s: State, change: ConfigChange)
    requires Inv(s) && s.mode.Running? && s.queue != [] && s.queue[0].ConfigChanged?
    requires IsDiff(s.mode.active, s.queue[0].conf, change) && !change.NoChange? && !change.DevicesChange?
    ensures LeadsTo(s.mode.start, s.mode.sent + [Message(change, s.queue[0].conf)], s.queue[0].conf)
  {
    var sent := s.mode.sent + [Message(change, s.queue[0].conf)];
    assert sent[..|s.mode.sent|] == s.mode.sent;
    assert ConfigAfter(s.mode.start, sent, |s.mode.sent|) == s.mode.active;
  }

  lemma LeavingKeepsInv(s: State, change: ConfigChange)
    requires Inv(s) && SuperviseStep(s, change).Some? && !s.queue[0].ConfigChanged?
    ensures Inv(SuperviseStep(s, change).value)
  {
    if Exit !in s.queue { FirstCommand(s.queue, s.shared); }
  }

  lemma {:induction false} RunKeepsInv(run: seq<State>, events: seq<Event>, i: nat)
    requires Reachable(run, events) && i < |run|
    ensures Inv(run[i])
  {
    if i > 0 {
      RunKeepsInv(run, events, i - 1);
      var k := i - 1;
      assert Possible(run[k], events[k]) && Next(run[k], events[k]) == Some(run[k + 1]);
      StepKeepsInv(run[k], events[k]);
    }
  }

  /** Whenever the command queue has drained and the program has not ended, the shared active configuration is the one
      of the last command, and there is none if the last command was to stop, although the supervisor drops changes
      that are superseded. Commands from before a failure of the threads do not count any more. */
  lemma LastCommandWins(run: seq<State>, events: seq<Event>, i: nat)
    requires Reachable(run, events) && i < |run|
    requires run[i].queue == [] && !run[i].mode.Ended?
    ensures var s := run[i];
            if s.history == [] then s.shared == None
            else
              var last := s.history[|s.history| - 1];
              (last.ConfigChanged? && s.shared == Some(last.conf)) || (last.Stop? && s.shared == None)
  {
    RunKeepsInv(run, events, i);
    var s := run[i];
    if s.history != [] { assert s.history[|s.history| - 1] in s.history; }
  }

  // ---------------------------------------------------------------------------------------------
  // When the program runs, waits and ends
  // ---------------------------------------------------------------------------------------------

  /** The command to exit is taken from the queue, or there is nothing to run, nothing to wait for and no command. */
  ghost predicate AsksToEnd(s: State, e: Event) {
    || ((e.MainLoopStep? || e.SupervisorStep?) && s.queue != [] && s.queue[0].Exit?)
    || (e == MainLoopStep(false) && s.queue == [] && s.shared.None?)
  }

  /** In every run the program ends by such a step, and by no other; and it has ended for good. */
  lemma EndsIff(run: seq<State>, events: seq<Event>, i: nat)
    requires Reachable(run, events) && i < |events|
    ensures run[i + 1].mode.Ended? <==> run[i].mode.Ended? || AsksToEnd(run[i], events[i])
  {
    assert Possible(run[i], events[i]) && Next(run[i], events[i]) == Some(run[i + 1]);
  }

  /** In every run, running stops with the step that obeys Stop or Exit, with a configuration for other devices behind
      which no command waits, and when the threads fail; with no other step. Then there is nothing to run, except for
      the
      new configuration, and what was running is remembered unless there is one. */
  lemma StopsRunningIff(run: seq<State>, events: seq<Event>, i: nat)
    requires Reachable(run, events) && i < |events| && run[i].mode.Running?
    ensures var s, t, active := run[i], run[i + 1], run[i].mode.active;
            if events[i].ThreadsFail? || (events[i].SupervisorStep? && s.queue != [] && s.queue[0].Stop?) then
              t.mode.Waiting? && t.shared == None && t.previous == Some(active)
            else if events[i].SupervisorStep? && s.queue != [] && s.queue[0].Exit? then
              t.mode.Ended? && t.previous == Some(active)
            else if events[i].SupervisorStep? && |s.queue| == 1 && s.queue[0].conf.devices != active.devices then
              t.mode.Waiting? && t.shared == Some(s.queue[0].conf) && t.previous == s.previous
            else
              t.mode.Running? && t.mode.start == s.mode.start && t.previous == s.previous
  {
    assert Possible(run[i], events[i]) && Next(run[i], events[i]) == Some(run[i + 1]);
  }

  /** In every run, the running configuration changes with a step that takes a different configuration for the same
      devices behind which no command waits, and with no other step; each such step sends one message. */
  lemma SwitchesIff(run: seq<State>, events: seq<Event>, i: nat)
    requires Reachable(run, events) && i < |events| && run[i].mode.Running? && run[i + 1].mode.Running?
    ensures var s, m, n := run[i], run[i].mode, run[i + 1].mode;
            if events[i].SupervisorStep? && |s.queue| == 1 && s.queue[0].ConfigChanged? &&
              s.queue[0].conf != m.active then
              n.active == s.queue[0].conf && n.sent == m.sent + [Message(events[i].change, s.queue[0].conf)]
            else n == m
  {
    assert Possible(run[i], events[i]) && Next(run[i], events[i]) == Some(run[i + 1]);
  }

  /** In every run, running starts with a step of the main loop that finds a configuration and no command, with no other
      step, and with that configuration. */
  lemma StartsRunningIff(run: seq<State>, events: seq<Event>, i: nat)
    requires Reachable(run, events) && i < |events| && run[i].mode.Waiting?
    ensures run[i + 1].mode.Running? <==> events[i].MainLoopStep? && run[i].queue == [] && run[i].shared.Some?
    ensures run[i + 1].mode.Running? ==> run[i + 1].mode == Running(run[i].shared.value, run[i].shared.value, [])
  {
    assert Possible(run[i], events[i]) && Next(run[i], events[i]) == Some(run[i + 1]);
  }

  /** In every run, what is remembered as the previous configuration is what ran until a command or a failure stopped
      it;
      a restart for other devices is no such stop. */
  lemma PreviousIsWhatStopped(run: seq<State>, events: seq<Event>, i: nat)
    requires Reachable(run, events) && i < |events|
    ensures var s, t := run[i], run[i + 1];
            t.previous ==
              if s.mode.Running? && !t.mode.Running? && (events[i].ThreadsFail? || !s.queue[0].ConfigChanged?)
              then Some(s.mode.active) else s.previous
  {
    assert Possible(run[i], events[i]) && Next(run[i], events[i]) == Some(run[i + 1]);
  }

  /** After a stop, as at the beginning: once the queue has drained and the last command brought a configuration, the
      next
      step of the main loop runs it. */
  lemma RunsAgain(run: seq<State>, events: seq<Event>, i: nat, wait: bool)
    requires Reachable(run, events) && i < |run| && run[i].mode.Waiting? && run[i].queue == []
    requires run[i].history != [] && run[i].history[|run[i].history| - 1].ConfigChanged?
    ensures var t := MainStep(run[i], wait);
            var conf := run[i].history[|run[i].history| - 1].conf;
            t.Some? && t.value.mode == Running(conf, conf, []) && t.value.shared == Some(conf)
  {
    LastCommandWins(run, events, i);
  }

  // ---------------------------------------------------------------------------------------------
  // What reaches the processing thread
  // ---------------------------------------------------------------------------------------------

  ghost predicate KindsKept(start: C.Configuration, sent: seq<Message>) {
    forall k :: 0 <= k < |sent| && sent[k].change.FilterParameters? ==>
      KeepsProcessorKinds(ConfigAfter(start, sent, k), sent[k].conf)
  }

  lemma {:induction false} LeadsToPrefix(start: C.Configuration, sent: seq<Message>, end: C.Configuration, k: nat)
    requires LeadsTo(start, sent, end) && k < |sent|
    ensures IsDiff(ConfigAfter(start, sent, k), sent[k].conf, sent[k].change)
    ensures !sent[k].change.NoChange? && !sent[k].change.DevicesChange?
  {
    var n := |sent| - 1;
    if k < n {
      LeadsToPrefix(start, sent[..n], ConfigAfter(start, sent, n), k);
      assert ConfigAfter(start, sent[..n], k) == ConfigAfter(start, sent, k);
    }
  }

  lemma {:induction false} ChainIsSentBySupervisor(w: C.World, current: C.Configuration, msgs: seq<Message>)
    requires forall k :: 0 <= k < |msgs| ==>
      IsDiff(ConfigAfter(current, msgs, k), msgs[k].conf, msgs[k].change) &&
      !msgs[k].change.NoChange? && !msgs[k].change.DevicesChange? && Usable(w, msgs[k].conf)
    requires KindsKept(current, msgs)
    ensures SentBySupervisor(w, current, msgs)
    decreases |msgs|
  {
    if msgs != [] {
      assert IsDiff(ConfigAfter(current, msgs, 0), msgs[0].conf, msgs[0].change);
      var c, rest := msgs[0].conf, msgs[1..];
      forall k | 0 <= k < |rest|
        ensures ConfigAfter(c, rest, k) == ConfigAfter(current, msgs, k + 1) && rest[k] == msgs[k + 1]
      {
      }
      ChainIsSentBySupervisor(w, c, rest);
    }
  }

  /** The running supervisor sends the processing thread what its loop relies on, as long as the configurations can be
      built and no processor changes its kind; and the messages lead to the configuration everyone sees. */
  lemma {:induction false} SupervisorSendsTheDifferences(w: C.World, run: seq<State>, events: seq<Event>, i: nat)
    requires Reachable(run, events) && i < |run| && run[i].mode.Running?
    requires forall k :: 0 <= k < |run[i].mode.sent| ==> Usable(w, run[i].mode.sent[k].conf)
    requires KindsKept(run[i].mode.start, run[i].mode.sent)
    ensures var m := run[i].mode;
            SentBySupervisor(w, m.start, m.sent) &&
            run[i].shared == Some(ConfigAfter(m.start, m.sent, |m.sent|))
  {
    RunKeepsInv(run, events, i);
    var m := run[i].mode;
    forall k | 0 <= k < |m.sent|
      ensures IsDiff(ConfigAfter(m.start, m.sent, k), m.sent[k].conf, m.sent[k].change)
      ensures !m.sent[k].change.NoChange? && !m.sent[k].change.DevicesChange?
    {
      LeadsToPrefix(m.start, m.sent, m.active, k);
    }
    ChainIsSentBySupervisor(w, m.start, m.sent);
  }

  // ---------------------------------------------------------------------------------------------
  // The supervisor's handling of one command
  // ---------------------------------------------------------------------------------------------

  datatype ExitState = RestartRun | ExitProgram

  class Supervisor {
    var active: C.Configuration
    var shared: Option<C.Configuration>
    var previous: Option<C.Configuration>
    var sent: seq<Message>
    ghost const start: C.Configuration

    constructor (conf: C.Configuration, previous: Option<C.Configuration>)
      ensures active == start == conf && shared == Some(conf) && this.previous == previous && sent == []
    {
      active, start, shared, sent := conf, conf, Some(conf), [];
      this.previous := previous;
    }

    /** The state of the whole program while this supervisor runs. */
    ghost function Value(queue: seq<Command>, history: seq<Command>): State
      reads this
    {
      State(Running(start, active, sent), shared, previous, queue, history)
    }

    /** Takes the first command of the queue; `more` tells whether others are waiting behind it. */
    method Obey(command: Command, ghost rest: seq<Command>, ghost history: seq<Command>, more: bool)
      returns (leave: Option<ExitState>, ghost change: ConfigChange)
      requires more <==> rest != []
      modifies this
      ensures leave == match command
                       case Stop => Some(RestartRun)
                       case Exit => Some(ExitProgram)
                       case ConfigChanged(conf) =>
                         if !more && conf.devices != old(active).devices then Some(RestartRun) else None
      ensures Possible(old(Value([command] + rest, history)), SupervisorStep(change))
      ensures var t := Next(old(Value([command] + rest, history)), SupervisorStep(change)).value;
              t == Value(rest, history).(mode := match leave
                                                 case None => Running(start, active, sent)
                                                 case Some(RestartRun) => Waiting
                                                 case Some(ExitProgram) => Ended)
    {
      ghost var queue := [command] + rest;
      assert queue[1..] == rest;
      leave, change := None, NoChange;
      match command {
        case ConfigChanged(conf) =>
          var diff := ConfigDiff(active, conf);
          change := diff;
          if !more {
            if diff.DevicesChange? {
              shared := Some(conf);
              leave := Some(RestartRun);
            } else if !diff.NoChange? {
              sent := sent + [Message(diff, conf)];
              active := conf;
              shared := Some(conf);
            }
          }
        case Stop =>
          shared, previous := None, Some(active);
          leave := Some(RestartRun);
        case Exit =>
          previous := Some(active);
          leave := Some(ExitProgram);
      }
    }
  }
}
