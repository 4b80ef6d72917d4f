/** The pipeline object, and the loop of the thread that owns it. */
module Engine {
  import opened Audio
  import opened VolumeControl
  import C = Config
  import opened Mixers
  import opened Validation
  import opened Pipelines
  import opened Parallel
  import opened Reconfigure

  /** Applies the filters of one channel in turn, each working in place on the waveform. */
  method FilterInSequence(w: C.World, filters: seq<Filter>, waveform: Waveform)
    returns (filters': seq<Filter>, waveform': Waveform)
    ensures (filters', waveform') == RunChannel(w, filters, waveform)
  {
    filters', waveform' := filters, waveform;
    if waveform != [] {
      filters' := [];
      for i := 0 to |filters|
        invariant (filters', waveform') == RunFilters(w, filters[..i], waveform)
      {
        var (f, x) := RunFilter(w, filters[i], waveform');
        filters', waveform' := filters' + [f], x;
        assert filters[..i + 1][..i] == filters[..i];
      }
      assert filters[..|filters|] == filters;
    }
  }

  /** Runs one step on a chunk, in place as far as the step is concerned. */
  method RunOneStep(w: C.World, step: Step, chunk: Chunk) returns (step': Step, out: Chunk)
    requires StepFits(step, |chunk.waveforms|)
    ensures (step', out) == RunStep(w, step, chunk)
  {
    step', out := step, chunk;
    match step {
      case MixerStep(mix) =>
        out := Mixers.ProcessChunk(mix, chunk);
      case FilterGroup(ch, filters) =>
        var fs, x := FilterInSequence(w, filters, chunk.waveforms[ch]);
        step', out := FilterGroup(ch, fs), chunk.(waveforms := chunk.waveforms[ch := x]);
      case ParallelFilters(bank) =>
        var bank', ws := FilterInParallel(w, bank, chunk.waveforms);
        step', out := ParallelFilters(bank'), chunk.(waveforms := ws);
      case ProcessorStep(p) =>
        var (s, ws) := w.processor(p.config, p.state, chunk.waveforms);
        step', out := ProcessorStep(p.(state := s)), chunk.(waveforms := ws);
    }
  }

  /** The first i of the original steps have been run; the rest is still untouched. */
  ghost predicate RanFirstSteps(w: C.World, before: seq<Step>, start: Chunk, i: nat, steps: seq<Step>, c: Chunk)
    requires Fits(before, |start.waveforms|)
  {
    i <= |before| == |steps| && steps[i..] == before[i..] && Fits(before[i..], |c.waveforms|) &&
    var (rest, last) := RunSteps(w, before[i..], c);
    RunSteps(w, before, start) == (steps[..i] + rest, last)
  }

  lemma {:induction false} NothingRun(w: C.World, before: seq<Step>, start: Chunk)
    requires Fits(before, |start.waveforms|)
    ensures RanFirstSteps(w, before, start, 0, before, start)
  {
    assert before[0..] == before;
    var rest := RunSteps(w, before, start).0;
    assert [] + rest == rest;
  }

  lemma {:induction false} RanToHere(w: C.World, before: seq<Step>, start: Chunk, i: nat, steps: seq<Step>, c: Chunk)
    requires Fits(before, |start.waveforms|) && RanFirstSteps(w, before, start, i, steps, c) && i < |before|
    ensures steps[i] == before[i] && StepFits(steps[i], |c.waveforms|)
  {
    assert steps[i] == steps[i..][0] && before[i] == before[i..][0];
  }

  lemma {:induction false} NextStepRun(w: C.World, before: seq<Step>, start: Chunk, i: nat, steps: seq<Step>, c: Chunk)
    requires Fits(before, |start.waveforms|) && RanFirstSteps(w, before, start, i, steps, c) && i < |before|
    requires steps[i] == before[i] && StepFits(steps[i], |c.waveforms|)
    ensures var (s, d) := RunStep(w, steps[i], c);
            RanFirstSteps(w, before, start, i + 1, steps[i := s], d)
  {
    var (s, d) := RunStep(w, steps[i], c);
    assert before[i..] == [before[i]] + before[i + 1..];
    RunStepsCons(w, before[i], before[i + 1..], c);
    OneFurther(before, steps, i, s, RunSteps(w, before[i + 1..], d).0);
  }

  lemma OneFurther(before: seq<Step>, steps: seq<Step>, i: nat, s: Step, rest: seq<Step>)
    requires i < |before| == |steps| && steps[i..] == before[i..]
    ensures steps[i := s][i + 1..] == before[i + 1..]
    ensures steps[..i] + ([s] + rest) == steps[i := s][..i + 1] + rest
  {
    assert steps[i + 1..] == steps[i..][1..] && before[i + 1..] == before[i..][1..];
  }

  lemma {:induction false} AllRun(w: C.World, before: seq<Step>, start: Chunk, steps: seq<Step>, c: Chunk)
    requires Fits(before, |start.waveforms|) && RanFirstSteps(w, before, start, |before|, steps, c)
    ensures RunSteps(w, before, start) == (steps, c)
  {
    assert before[|before|..] == [] && steps[..|before|] + [] == steps;
  }

  method BuildGroups(w: C.World, conf: C.Configuration, step: C.PipelineStep, width: nat) returns (groups: seq<Step>)
    requires step.FilterStep? && !step.IsBypassed() && StepBuildable(conf, step, width)
    ensures groups == BuildStep(w, conf, step, width)
  {
    var channels := Channels(step, width);
    groups := [];
    for k := 0 to |channels|
      invariant |groups| == k
      invariant forall j :: 0 <= j < k ==> groups[j] == FilterGroup(channels[j], NewFilters(w, conf, step.names))
    {
      var filters: seq<Filter> := [];
      for n := 0 to |step.names|
        invariant |filters| == n
        invariant forall m :: 0 <= m < n ==>
          step.names[m] in step.names && filters[m] == NewFilter(w, conf, step.names[m])
      {
        assert step.names[n] in step.names;
        filters := filters + [NewFilter(w, conf, step.names[n])];
      }
      assert filters == NewFilters(w, conf, step.names);
      groups := groups + [FilterGroup(channels[k], filters)];
    }
  }

  method BuildPipeline(w: C.World, conf: C.Configuration) returns (steps: seq<Step>)
    requires Usable(w, conf)
    ensures steps == Fresh(w, conf)
  {
    steps := [];
    var width := conf.devices.captureChannels;
    var config := conf.pipeline.GetOr([]);
    for i := 0 to |config|
      invariant config == Steps(conf)
      invariant width == WidthAt(conf, i) && steps == BuildSteps(w, conf, i)
    {
      var step := config[i];
      assert StepBuildableAt(conf, i) && StepIsOkAt(w, conf, i);
      ghost var built := BuildStep(w, conf, step, width);
      if !step.IsBypassed() {
        match step {
          case MixerStep(name, _) =>
            var mixconf := conf.mixers.value[name];
            width := mixconf.channelsOut;
            var table := BuildTable(w.pow10, mixconf, true);
            steps := steps + [MixerStep(Mixer(name, mixconf.channelsIn, mixconf.channelsOut, table))];
          case FilterStep(_, _, _) =>
            var groups := BuildGroups(w, conf, step, width);
            steps := steps + groups;
          case ProcessorStep(name, _) =>
            var cfg := conf.processors.value[name];
            steps := steps + [ProcessorStep(Processor(name, cfg, w.newProcessor(cfg, conf.devices)))];
        }
      } else {
        assert steps + [] == steps;
      }
    }
    BuildStepsFit(w, conf, |Steps(conf)|);
    if conf.devices.multithreaded {
      steps := ParallelizeFilters(steps, conf.devices.captureChannels);
    }
  }

  /** A volume control that starts at the current volume. */
  function NewVolume(w: C.World, conf: C.Configuration, current: Fader): VolumeState {
    VolumeState(w.rampChunks(conf.devices), if current.mute then MUTED_DB else current.db, current.db, current.mute,
                current.db, 0, conf.devices.chunksize, w.volumeLimit(conf.devices))
  }

  class Pipeline {
    const world: C.World
    const volume: Volume
    var steps: seq<Step>

    ghost predicate Valid()
      reads this, volume
    {
      volume.Valid() && volume.pow10 == world.pow10
    }

    ghost function Value(): Live
      reads this, volume
    {
      Live(steps, volume.State())
    }

    /** Builds all steps and a volume control that starts at the current volume. */
    constructor FromConfig(w: C.World, conf: C.Configuration, current: Fader)
      requires Usable(w, conf) && conf.devices.chunksize > 0
      ensures Valid() && fresh(volume) && world == w
      ensures Value() == Live(Fresh(w, conf), NewVolume(w, conf, current))
    {
      world := w;
      volume := new Volume(w.pow10, w.rampChunks(conf.devices), w.volumeLimit(conf.devices), current,
        conf.devices.chunksize);
      steps := [];
      new;
      steps := BuildPipeline(w, conf);
    }

    method ProcessChunk(chunk: Chunk, fader: Fader) returns (out: Chunk)
      requires Valid() && Fits(steps, |chunk.waveforms|)
      modifies this, volume
      ensures Valid()
      ensures (Value(), out) == RunOne(world, old(Value()), Input(chunk, fader))
    {
      ghost var before := steps;
      out := volume.ProcessChunk(chunk, fader);
      ghost var start := out;
      NothingRun(world, before, start);
      for i := 0 to |steps|
        invariant |steps| == |before| && RanFirstSteps(world, before, start, i, steps, out)
        invariant volume.State() == Advance(old(volume.State()), fader).0 && volume.Valid()
      {
        ghost var entered, was := out, steps;
        RanToHere(world, before, start, i, steps, out);
        var step, next := RunOneStep(world, steps[i], out);
        out := next;
        steps := steps[i := step];
        NextStepRun(world, before, start, i, was, entered);
      }
      AllRun(world, before, start, steps, out);
    }

    /** Hands the new settings to the steps whose names are listed. */
    method UpdateParameters(conf: C.Configuration, change: ConfigChange)
      requires Valid() && change.FilterParameters?
      requires forall i :: 0 <= i < |steps| ==> UpdateIsSafe(steps[i], conf, change)
      modifies this`steps
      ensures Valid() && steps == UpdatedSteps(world, old(steps), conf, change)
      ensures forall i :: 0 <= i < |steps| ==> HandedOver(world, old(steps)[i], steps[i], conf, change)
    {
      ghost var before := steps;
      for i := 0 to |steps|
        invariant |steps| == |before| && steps[i..] == before[i..]
        invariant forall j :: 0 <= j < i ==> steps[j] == UpdatedStep(world, before[j], conf, change)
        invariant Valid()
      {
        assert steps[i] == steps[i..][0] == before[i];
        assert steps[i + 1..] == steps[i..][1..];
        assert UpdateIsSafe(before[i], conf, change);
        match steps[i] {
          case MixerStep(_) =>
          case FilterGroup(ch, fs) =>
            var fs' := UpdateFilters(world, fs, conf, change.filters);
            steps := steps[i := FilterGroup(ch, fs')];
          case ParallelFilters(bank) =>
            var bank' := UpdateBank(world, bank, conf, change);
            steps := steps[i := ParallelFilters(bank')];
          case ProcessorStep(p) =>
            if p.name in change.processors {
              var cfg := conf.processors.value[p.name];
              steps := steps[i := ProcessorStep(p.(config := cfg, state := world.retuneProcessor(cfg, p.state)))];
            }
        }
        assert steps[i] == UpdatedStep(world, before[i], conf, change);
        assert before[i + 1..] == before[i..][1..];
      }
      forall i | 0 <= i < |steps| ensures HandedOver(world, before[i], steps[i], conf, change) {
        UpdateHandsOver(world, before[i], conf, change);
      }
    }
  }

  method UpdateBank(w: C.World, bank: Bank, conf: C.Configuration, change: ConfigChange) returns (bank': Bank)
    requires change.FilterParameters? && UpdateIsSafe(ParallelFilters(bank), conf, change)
    ensures ParallelFilters(bank') == UpdatedStep(w, ParallelFilters(bank), conf, change)
  {
    bank' := [];
    for c := 0 to |bank|
      invariant |bank'| == c
      invariant forall d :: 0 <= d < c ==> bank'[d] == UpdatedFilters(w, bank[d], conf, change.filters)
    {
      var fs := UpdateFilters(w, bank[c], conf, change.filters);
      bank' := bank' + [fs];
    }
  }

  method UpdateFilters(w: C.World, fs: seq<Filter>, conf: C.Configuration, changed: seq<string>)
    returns (fs': seq<Filter>)
    requires forall i :: 0 <= i < |fs| ==> FilterUpdateIsSafe(fs[i], conf, changed)
    ensures fs' == UpdatedFilters(w, fs, conf, changed)
  {
    fs' := [];
    for i := 0 to |fs|
      invariant |fs'| == i
      invariant forall j :: 0 <= j < i ==> fs'[j] == UpdatedFilter(w, fs[j], conf, changed)
    {
      var f := fs[i];
      if f.name in changed {
        var cfg := conf.filters.value[f.name];
        f := f.(config := cfg, state := w.retuneFilter(cfg, f.state));
      }
      fs' := fs' + [f];
    }
  }

  // ---------------------------------------------------------------------------------------------
  // The processing thread
  // ---------------------------------------------------------------------------------------------

  datatype AudioMessage = AudioData(chunk: Chunk) | Pause | EndOfStream

  /** A change of configuration, as the supervisor sends it. */
  datatype Message = Message(change: ConfigChange, conf: C.Configuration)

  /** One round of the loop: what arrives from the capture side, the shared fader values at that moment, and whether
      the next message of the supervisor is already waiting when the round ends. */
  datatype Round = Round(message: AudioMessage, target: Fader, current: Fader, configWaiting: bool)

  /** What the supervisor can send: each message is the difference to the configuration before it. */
  ghost predicate SentBySupervisor(w: C.World, current: C.Configuration, msgs: seq<Message>)
    decreases |msgs|
  {
    msgs != [] ==>
      Usable(w, msgs[0].conf) && IsDiff(current, msgs[0].conf, msgs[0].change) &&
      !msgs[0].change.DevicesChange? && !msgs[0].change.NoChange? &&
      (msgs[0].change.FilterParameters? ==> KeepsProcessorKinds(current, msgs[0].conf)) &&
      SentBySupervisor(w, msgs[0].conf, msgs[1..])
  }

  function ConfigAfter(initial: C.Configuration, msgs: seq<Message>, k: nat): C.Configuration
    requires k <= |msgs|
  {
    if k == 0 then initial else msgs[k - 1].conf
  }

  lemma {:induction false} NextMessage(w: C.World, initial: C.Configuration, msgs: seq<Message>, k: nat)
    requires SentBySupervisor(w, initial, msgs) && k < |msgs|
    ensures var c, m := ConfigAfter(initial, msgs, k), msgs[k];
            Usable(w, m.conf) && IsDiff(c, m.conf, m.change) && !m.change.DevicesChange? && !m.change.NoChange? &&
            c.devices == m.conf.devices && (m.change.FilterParameters? ==> KeepsProcessorKinds(c, m.conf))
    decreases |msgs|
  {
    if k > 0 {
      assert ConfigAfter(msgs[0].conf, msgs[1..], k - 1) == ConfigAfter(initial, msgs, k);
      NextMessage(w, msgs[0].conf, msgs[1..], k - 1);
    }
  }

  ghost predicate Forwarded(incoming: AudioMessage, outgoing: AudioMessage, width: nat) {
    match incoming
    case AudioData(c) => outgoing.AudioData? && |outgoing.chunk.waveforms| == width && outgoing.chunk.frames == c.frames
    case Pause => outgoing == Pause
    case EndOfStream => outgoing == EndOfStream
  }

  /** Each message sent is the one of its round. */
  ghost predicate AllForwarded(rounds: seq<Round>, sent: seq<AudioMessage>, width: nat) {
    |sent| <= |rounds| && forall i :: 0 <= i < |sent| ==> Forwarded(rounds[i].message, sent[i], width)
  }

  lemma OneMoreForwarded(rounds: seq<Round>, sent: seq<AudioMessage>, out: AudioMessage, width: nat)
    requires AllForwarded(rounds, sent, width) && |sent| < |rounds| && Forwarded(rounds[|sent|].message, out, width)
    ensures AllForwarded(rounds, sent + [out], width)
  {
  }

  /** Apart from its states, a pipeline is the one built from this configuration. */
  ghost predicate Follows(w: C.World, d: C.Devices, steps: seq<Step>, conf: C.Configuration) {
    Usable(w, conf) && conf.devices == d && Reset(w, d, steps) == Fresh(w, conf)
  }

  /** What becomes of the live pipeline and of an incoming message. */
  ghost function Handled(w: C.World, live: Live, message: AudioMessage, target: Fader): (Live, AudioMessage) {
    if message.AudioData? && Ready(live, |message.chunk.waveforms|) then
      var (next, out) := RunOne(w, live, Input(message.chunk, target));
      (next, AudioData(out))
    else (live, message)
  }

  /** The live pipeline after a change of configuration. */
  ghost function Changed(w: C.World, live: Live, m: Message, fader: Fader): Live {
    if m.change.FilterParameters? then live.(steps := UpdatedSteps(w, live.steps, m.conf, m.change))
    else if Usable(w, m.conf) then Live(Fresh(w, m.conf), NewVolume(w, m.conf, fader))
    else live
  }

  datatype Progress = Progress(live: Live, applied: nat)

  /** All rounds up to the end of the stream: audio first, then at most one message of the supervisor. */
  ghost function LoopRun(w: C.World, msgs: seq<Message>, p: Progress, rounds: seq<Round>): (Progress, seq<AudioMessage>)
    decreases |rounds|
  {
    if rounds == [] then (p, [])
    else
      var (live, out) := Handled(w, p.live, rounds[0].message, rounds[0].target);
      if out.EndOfStream? then (p.(live := live), [out])
      else
        var next := if rounds[0].configWaiting && p.applied < |msgs|
                    then Progress(Changed(w, live, msgs[p.applied], rounds[0].current), p.applied + 1)
                    else p.(live := live);
        var (last, outs) := LoopRun(w, msgs, next, rounds[1..]);
        (last, [out] + outs)
  }

  /** Applies one message: rebuilds the pipeline, or updates it in place. */
  method ApplyMessage(w: C.World, pipeline: Pipeline, ghost current: C.Configuration, m: Message, fader: Fader)
    returns (next: Pipeline)
    requires pipeline.Valid() && pipeline.world == w && Follows(w, m.conf.devices, pipeline.steps, current)
    requires Usable(w, m.conf) && IsDiff(current, m.conf, m.change)
    requires !m.change.DevicesChange? && !m.change.NoChange? && m.conf.devices.chunksize > 0
    requires m.change.FilterParameters? ==> KeepsProcessorKinds(current, m.conf)
    modifies pipeline`steps
    ensures next.Valid() && next.world == w && (next == pipeline || (fresh(next) && fresh(next.volume)))
    ensures Follows(w, m.conf.devices, next.steps, m.conf)
    ensures next.Value() == Changed(w, old(pipeline.Value()), m, fader)
    ensures if m.change.FilterParameters? then next == pipeline && next.volume.State() == old(pipeline.volume.State())
            else next.Value() == Live(Fresh(w, m.conf), NewVolume(w, m.conf, fader))
  {
    if m.change.FilterParameters? {
      UpdateIsRebuild(w, current, m.conf, m.change, pipeline.steps);
      pipeline.UpdateParameters(m.conf, m.change);
      next := pipeline;
    } else {
      next := new Pipeline.FromConfig(w, m.conf, fader);
      ResetOfFresh(w, m.conf);
    }
  }

  method TakeMessage(w: C.World, pipeline: Pipeline, ghost initial: C.Configuration, msgs: seq<Message>, k: nat,
                     fader: Fader)
    returns (next: Pipeline)
    requires pipeline.Valid() && pipeline.world == w && SentBySupervisor(w, initial, msgs) && k < |msgs|
    requires initial.devices.chunksize > 0 && Follows(w, initial.devices, pipeline.steps, ConfigAfter(initial, msgs, k))
    modifies pipeline`steps
    ensures next.Valid() && next.world == w && (next == pipeline || (fresh(next) && fresh(next.volume)))
    ensures Follows(w, initial.devices, next.steps, ConfigAfter(initial, msgs, k + 1))
    ensures next.Value() == Changed(w, old(pipeline.Value()), msgs[k], fader)
  {
    NextMessage(w, initial, msgs, k);
    next := ApplyMessage(w, pipeline, ConfigAfter(initial, msgs, k), msgs[k], fader);
  }

  /** Handles one message from the capture side: processes audio, passes everything else on. */
  method HandleMessage(w: C.World, pipeline: Pipeline, ghost conf: C.Configuration, message: AudioMessage,
                       target: Fader)
    returns (out: AudioMessage)
    requires pipeline.Valid() && pipeline.world == w && Follows(w, conf.devices, pipeline.steps, conf)
    requires message.AudioData? ==> |message.chunk.waveforms| == conf.devices.captureChannels
    modifies pipeline, pipeline.volume
    ensures pipeline.Valid() && Follows(w, conf.devices, pipeline.steps, conf)
    ensures Forwarded(message, out, conf.devices.playbackChannels)
    ensures (pipeline.Value(), out) == Handled(w, old(pipeline.Value()), message, target)
  {
    out := message;
    if message.AudioData? {
      LiveFits(w, conf, pipeline.steps);
      ghost var before := pipeline.Value();
      var chunk := pipeline.ProcessChunk(message.chunk, target);
      RunningKeepsSettings(w, conf.devices, before.steps,
        ApplyToChunk(w.pow10, Advance(before.volume, target).1, message.chunk));
      out := AudioData(chunk);
    }
  }

  /** What was sent so far and what the rounds that are left send make up the whole. */
  ghost predicate RanRounds(w: C.World, msgs: seq<Message>, goal: (Progress, seq<AudioMessage>),
                            sent: seq<AudioMessage>, p: Progress, left: seq<Round>) {
    goal.0 == LoopRun(w, msgs, p, left).0 && goal.1 == sent + LoopRun(w, msgs, p, left).1
  }

  lemma NextRound(w: C.World, msgs: seq<Message>, goal: (Progress, seq<AudioMessage>),
                  sent: seq<AudioMessage>, p: Progress, left: seq<Round>)
    requires left != [] && RanRounds(w, msgs, goal, sent, p, left)
    ensures var (live, out) := Handled(w, p.live, left[0].message, left[0].target);
            if out.EndOfStream? then goal.0 == p.(live := live) && goal.1 == sent + [out]
            else if left[0].configWaiting && p.applied < |msgs| then
              RanRounds(w, msgs, goal, sent + [out],
                Progress(Changed(w, live, msgs[p.applied], left[0].current), p.applied + 1), left[1..])
            else RanRounds(w, msgs, goal, sent + [out], p.(live := live), left[1..])
  {
  }

  /** The body of the loop: a message from the capture side, then perhaps one of the supervisor. */
  method OneRound(w: C.World, pipeline: Pipeline, ghost initial: C.Configuration, msgs: seq<Message>, applied: nat,
                  ghost goal: (Progress, seq<AudioMessage>), ghost sent: seq<AudioMessage>, left: seq<Round>)
    returns (next: Pipeline, applied': nat, out: AudioMessage)
    requires pipeline.Valid() && pipeline.world == w && SentBySupervisor(w, initial, msgs) && applied <= |msgs|
    requires initial.devices.chunksize > 0 &&
      Follows(w, initial.devices, pipeline.steps, ConfigAfter(initial, msgs, applied))
    requires left != []
    requires left[0].message.AudioData? ==> |left[0].message.chunk.waveforms| == initial.devices.captureChannels
    requires RanRounds(w, msgs, goal, sent, Progress(pipeline.Value(), applied), left)
    modifies pipeline, pipeline.volume
    ensures next.Valid() && next.world == w && (next == pipeline || (fresh(next) && fresh(next.volume)))
    ensures applied' <= |msgs| && Follows(w, initial.devices, next.steps, ConfigAfter(initial, msgs, applied'))
    ensures Forwarded(left[0].message, out, initial.devices.playbackChannels)
    ensures if out.EndOfStream? then goal.0 == Progress(next.Value(), applied') && goal.1 == sent + [out]
            else RanRounds(w, msgs, goal, sent + [out], Progress(next.Value(), applied'), left[1..])
  {
    next, applied' := pipeline, applied;
    NextRound(w, msgs, goal, sent, Progress(pipeline.Value(), applied), left);
    out := HandleMessage(w, pipeline, ConfigAfter(initial, msgs, applied), left[0].message, left[0].target);
    if !out.EndOfStream? {
      next, applied' := TakeWaiting(w, pipeline, initial, msgs, applied, left[0]);
    }
  }

  /** Takes the next configuration message, if one is waiting. */
  method TakeWaiting(w: C.World, pipeline: Pipeline, ghost initial: C.Configuration, msgs: seq<Message>, k: nat,
                     round: Round)
    returns (next: Pipeline, k': nat)
    requires pipeline.Valid() && pipeline.world == w && SentBySupervisor(w, initial, msgs) && k <= |msgs|
    requires initial.devices.chunksize > 0 && Follows(w, initial.devices, pipeline.steps, ConfigAfter(initial, msgs, k))
    modifies pipeline`steps
    ensures next.Valid() && next.world == w && (next == pipeline || (fresh(next) && fresh(next.volume)))
    ensures k' == (if round.configWaiting && k < |msgs| then k + 1 else k)
    ensures Follows(w, initial.devices, next.steps, ConfigAfter(initial, msgs, k'))
    ensures next.Value() ==
      if k' == k then old(pipeline.Value()) else Changed(w, old(pipeline.Value()), msgs[k], round.current)
  {
    next, k' := pipeline, k;
    if round.configWaiting && k < |msgs| {
      next := TakeMessage(w, pipeline, initial, msgs, k, round.current);
      k' := k + 1;
    }
  }

  /** For every sequence of audio messages, every sequence of configuration messages and every interleaving of the two:
      the loop is the run of its rounds; each audio message is forwarded once, in order, up to and including the end of
      the stream, every chunk has the playback width, and after k configuration messages the live pipeline, apart from
      its states, is the pipeline built from the k-th configuration. */
  method ProcessingLoop(w: C.World, initial: C.Configuration, msgs: seq<Message>, rounds: seq<Round>, start: Fader)
    returns (sent: seq<AudioMessage>, applied: nat, pipeline: Pipeline)
    requires Usable(w, initial) && initial.devices.chunksize > 0 && SentBySupervisor(w, initial, msgs)
    requires forall i :: 0 <= i < |rounds| && rounds[i].message.AudioData? ==>
      |rounds[i].message.chunk.waveforms| == initial.devices.captureChannels
    ensures AllForwarded(rounds, sent, initial.devices.playbackChannels)
    ensures |sent| < |rounds| ==> |sent| > 0 && rounds[|sent| - 1].message.EndOfStream?
    ensures applied <= |msgs| && Follows(w, initial.devices, pipeline.steps, ConfigAfter(initial, msgs, applied))
    ensures (Progress(pipeline.Value(), applied), sent) ==
            LoopRun(w, msgs, Progress(Live(Fresh(w, initial), NewVolume(w, initial, start)), 0), rounds)
  {
    var d := initial.devices;
    pipeline := new Pipeline.FromConfig(w, initial, start);
    ResetOfFresh(w, initial);
    sent, applied := [], 0;
    ghost var goal := LoopRun(w, msgs, Progress(pipeline.Value(), 0), rounds);
    for i := 0 to |rounds|
      invariant RanRounds(w, msgs, goal, sent, Progress(pipeline.Value(), applied), rounds[i..])
      invariant pipeline.Valid() && pipeline.world == w && fresh(pipeline) && fresh(pipeline.volume)
      invariant |sent| == i && applied <= |msgs|
      invariant AllForwarded(rounds, sent, d.playbackChannels)
      invariant Follows(w, d, pipeline.steps, ConfigAfter(initial, msgs, applied))
    {
      var out;
      pipeline, applied, out := OneRound(w, pipeline, initial, msgs, applied, goal, sent, rounds[i..]);
      OneMoreForwarded(rounds, sent, out, d.playbackChannels);
      sent := sent + [out];
      if out.EndOfStream? {
        return;
      }
      assert rounds[i..][1..] == rounds[i + 1..];
    }
    assert rounds[|rounds|..] == [] && sent + [] == sent;
  }

  lemma {:induction false} LiveFits(w: C.World, conf: C.Configuration, live: seq<Step>)
    requires Usable(w, conf) && Reset(w, conf.devices, live) == Fresh(w, conf)
    ensures Fits(live, conf.devices.captureChannels)
    ensures OutWidth(live, conf.devices.captureChannels) == conf.devices.playbackChannels
  {
    FreshFits(w, conf);
    MapFits(f => ResetFilter(w, conf.devices, f), p => ResetProcessor(w, conf.devices, p), live,
            conf.devices.captureChannels);
    ResetKeepsWidth(w, conf.devices, live, conf.devices.captureChannels);
  }

  lemma {:induction false} ResetKeepsWidth(w: C.World, d: C.Devices, steps: seq<Step>, width: nat)
    ensures OutWidth(Reset(w, d, steps), width) == OutWidth(steps, width)
    decreases |steps|
  {
    if steps != [] {
      assert Reset(w, d, steps)[1..] == Reset(w, d, steps[1..]);
      ResetKeepsWidth(w, d, steps[1..], StepWidth(steps[0], width));
    }
  }
}
