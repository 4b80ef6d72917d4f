/** The pipeline: built from a configuration, run chunk by chunk. */
module Pipelines {
  import opened Audio
  import opened VolumeControl
  import C = Config
  import opened Mixers
  import opened Validation

  datatype Filter = Filter(name: string, config: C.FilterConfig, state: C.FilterState)

  datatype Processor = Processor(name: string, config: C.ProcessorConfig, state: C.ProcessorState)

  datatype Step =
    | MixerStep(mix: Mixer)
    | FilterGroup(channel: nat, filters: seq<Filter>)
    | ParallelFilters(perChannel: seq<seq<Filter>>)
    | ProcessorStep(proc: Processor)

  // ---------------------------------------------------------------------------------------------
  // What a chunk goes through
  // ---------------------------------------------------------------------------------------------

  function RunFilter(w: C.World, f: Filter, x: Waveform): (r: (Filter, Waveform))
    ensures |r.1| == |x|
  {
    assert C.KeepsLength(w.filter);
    var (s, y) := w.filter(f.config, f.state, x);
    (f.(state := s), y)
  }

  /** Filters of one channel, one after the other. */
  function RunFilters(w: C.World, fs: seq<Filter>, x: Waveform): (r: (seq<Filter>, Waveform))
    ensures |r.0| == |fs| && |r.1| == |x|
  {
    if fs == [] then ([], x)
    else
      var n := |fs| - 1;
      var (gs, y) := RunFilters(w, fs[..n], x);
      var (g, z) := RunFilter(w, fs[n], y);
      (gs + [g], z)
  }

  /** A channel that is not in use is left alone, and so are its filters. */
  function RunChannel(w: C.World, fs: seq<Filter>, x: Waveform): (r: (seq<Filter>, Waveform))
    ensures |r.0| == |fs| && |r.1| == |x|
  {
    if x == [] then (fs, x) else RunFilters(w, fs, x)
  }

  ghost predicate StepFits(step: Step, width: nat) {
    match step
    case MixerStep(mix) => mix.Valid() && mix.channelsIn == width
    case FilterGroup(channel, _) => channel < width
    case ParallelFilters(_) => true
    case ProcessorStep(_) => true
  }

  function StepWidth(step: Step, width: nat): nat {
    if step.MixerStep? then step.mix.channelsOut else width
  }

  /** Every step can be run on the channels that the steps before it leave. */
  ghost predicate Fits(steps: seq<Step>, width: nat) {
    steps != [] ==> StepFits(steps[0], width) && Fits(steps[1..], StepWidth(steps[0], width))
  }

  function OutWidth(steps: seq<Step>, width: nat): nat {
    if steps == [] then width else OutWidth(steps[1..], StepWidth(steps[0], width))
  }

  function RunParallel(w: C.World, perChannel: seq<seq<Filter>>,
                       ws: seq<Waveform>): (r: (seq<seq<Filter>>, seq<Waveform>))
    ensures |r.0| == |perChannel| && |r.1| == |ws|
  {
    (seq(|perChannel|, i requires 0 <= i < |perChannel| =>
       if i < |ws| then RunChannel(w, perChannel[i], ws[i]).0 else perChannel[i]),
     seq(|ws|, i requires 0 <= i < |ws| =>
       if i < |perChannel| then RunChannel(w, perChannel[i], ws[i]).1 else ws[i]))
  }

  function RunStep(w: C.World, step: Step, c: Chunk): (r: (Step, Chunk))
    requires StepFits(step, |c.waveforms|)
    ensures |r.1.waveforms| == StepWidth(step, |c.waveforms|) && r.1.frames == c.frames
    ensures c.Valid() ==> r.1.Valid()
    ensures StepFits(r.0, |c.waveforms|) && StepWidth(r.0, |c.waveforms|) == StepWidth(step, |c.waveforms|)
  {
    match step
    case MixerStep(mix) => (step, Mix(mix, c))
    case FilterGroup(ch, fs) =>
      var (gs, x) := RunChannel(w, fs, c.waveforms[ch]);
      (FilterGroup(ch, gs), c.(waveforms := c.waveforms[ch := x]))
    case ParallelFilters(fss) =>
      var (gss, ws) := RunParallel(w, fss, c.waveforms);
      (ParallelFilters(gss), c.(waveforms := ws))
    case ProcessorStep(p) =>
      assert C.KeepsShape(w.processor);
      var (s, ws) := w.processor(p.config, p.state, c.waveforms);
      (ProcessorStep(p.(state := s)), c.(waveforms := ws))
  }

  function RunSteps(w: C.World, steps: seq<Step>, c: Chunk): (r: (seq<Step>, Chunk))
    requires Fits(steps, |c.waveforms|)
    ensures |r.0| == |steps| && Fits(r.0, |c.waveforms|)
    ensures |r.1.waveforms| == OutWidth(steps, |c.waveforms|) == OutWidth(r.0, |c.waveforms|)
    ensures r.1.frames == c.frames && (c.Valid() ==> r.1.Valid())
    decreases |steps|
  {
    if steps == [] then ([], c)
    else
      var (s, d) := RunStep(w, steps[0], c);
      var (rest, out) := RunSteps(w, steps[1..], d);
      var all := [s] + rest;
      assert all[1..] == rest;
      (all, out)
  }

  ghost predicate AreWide(chunks: seq<Chunk>, width: nat) {
    forall i :: 0 <= i < |chunks| ==> |chunks[i].waveforms| == width
  }

  /** What some steps make of a stream of chunks. */
  function RunChunks(w: C.World, steps: seq<Step>, chunks: seq<Chunk>, width: nat): (r: seq<Chunk>)
    requires Fits(steps, width) && AreWide(chunks, width)
    ensures |r| == |chunks| && AreWide(r, OutWidth(steps, width))
    decreases |chunks|
  {
    if chunks == [] then []
    else
      var (next, out) := RunSteps(w, steps, chunks[0]);
      [out] + RunChunks(w, next, chunks[1..], width)
  }

  /** One chunk together with the fader reading at the moment it is processed. */
  datatype Input = Input(chunk: Chunk, fader: Fader)

  datatype Live = Live(steps: seq<Step>, volume: VolumeState)

  ghost predicate Ready(p: Live, width: nat) {
    Fits(p.steps, width) && p.volume.chunksize > 0
  }

  /** The volume control first, then every step. */
  function RunOne(w: C.World, p: Live, input: Input): (r: (Live, Chunk))
    requires Ready(p, |input.chunk.waveforms|)
    ensures Ready(r.0, |input.chunk.waveforms|)
    ensures |r.1.waveforms| == OutWidth(p.steps, |input.chunk.waveforms|)
    ensures OutWidth(r.0.steps, |input.chunk.waveforms|) == OutWidth(p.steps, |input.chunk.waveforms|)
    ensures r.1.frames == input.chunk.frames && (input.chunk.Valid() ==> r.1.Valid())
  {
    var (v, plan) := Advance(p.volume, input.fader);
    var (steps, out) := RunSteps(w, p.steps, ApplyToChunk(w.pow10, plan, input.chunk));
    (Live(steps, v), out)
  }

  ghost predicate Width(inputs: seq<Input>, width: nat) {
    forall i :: 0 <= i < |inputs| ==> |inputs[i].chunk.waveforms| == width
  }

  function RunAll(w: C.World, p: Live, inputs: seq<Input>, width: nat): (r: (Live, seq<Chunk>))
    requires Ready(p, width) && Width(inputs, width)
    ensures Ready(r.0, width) && |r.1| == |inputs|
    ensures OutWidth(r.0.steps, width) == OutWidth(p.steps, width)
    ensures forall i :: 0 <= i < |inputs| ==>
      |r.1[i].waveforms| == OutWidth(p.steps, width) && r.1[i].frames == inputs[i].chunk.frames
    decreases |inputs|
  {
    if inputs == [] then (p, [])
    else
      var (q, out) := RunOne(w, p, inputs[0]);
      var (last, outs) := RunAll(w, q, inputs[1..], width);
      (last, [out] + outs)
  }

  // ---------------------------------------------------------------------------------------------
  // Building
  // ---------------------------------------------------------------------------------------------

  function NewFilter(w: C.World, conf: C.Configuration, name: string): Filter
    requires conf.filters.Some? && name in conf.filters.value
  {
    var cfg := conf.filters.value[name];
    Filter(name, cfg, w.newFilter(cfg, conf.devices))
  }

  function Channels(step: C.PipelineStep, width: nat): seq<nat>
    requires step.FilterStep?
  {
    match step.channels
    case Some(cs) => cs
    case None => seq(width, i requires 0 <= i => i)
  }

  /** Building a step looks up names and unwraps sections; this is what must be there. */
  ghost predicate StepBuildable(conf: C.Configuration, step: C.PipelineStep, width: nat) {
    step.IsBypassed() ||
    match step
    case MixerStep(name, _) =>
      conf.mixers.Some? && name in conf.mixers.value &&
      forall m :: 0 <= m < |conf.mixers.value[name].mapping| ==>
        conf.mixers.value[name].mapping[m].dest < conf.mixers.value[name].channelsOut
    case FilterStep(_, names, _) =>
      Channels(step, width) != [] ==> conf.filters.Some? && forall n :: n in names ==> n in conf.filters.value
    case ProcessorStep(name, _) => conf.processors.Some? && name in conf.processors.value
  }

  ghost predicate StepBuildableAt(conf: C.Configuration, i: nat)
    requires i < |Steps(conf)|
  {
    StepBuildable(conf, Steps(conf)[i], WidthAt(conf, i))
  }

  ghost predicate Buildable(conf: C.Configuration) {
    forall i :: 0 <= i < |Steps(conf)| ==> StepBuildableAt(conf, i)
  }

  function NewFilters(w: C.World, conf: C.Configuration, names: seq<string>): seq<Filter>
    requires conf.filters.Some? && forall n :: n in names ==> n in conf.filters.value
  {
    seq(|names|, k requires 0 <= k < |names| => assert names[k] in names; NewFilter(w, conf, names[k]))
  }

  function BuildStep(w: C.World, conf: C.Configuration, step: C.PipelineStep, width: nat): seq<Step>
    requires StepBuildable(conf, step, width)
  {
    if step.IsBypassed() then []
    else
      match step
      case MixerStep(name, _) => [MixerStep(FromConfig(w.pow10, name, conf.mixers.value[name]))]
      case FilterStep(_, names, _) =>
        var channels := Channels(step, width);
        seq(|channels|, k requires 0 <= k < |channels| => FilterGroup(channels[k], NewFilters(w, conf, names)))
      case ProcessorStep(name, _) =>
        var cfg := conf.processors.value[name];
        [ProcessorStep(Processor(name, cfg, w.newProcessor(cfg, conf.devices)))]
  }

  /** A built filter group holds one new filter for each name of its step. */
  lemma BuiltGroup(w: C.World, conf: C.Configuration, step: C.PipelineStep, width: nat, i: nat)
    requires StepBuildable(conf, step, width)
    requires i < |BuildStep(w, conf, step, width)| && BuildStep(w, conf, step, width)[i].FilterGroup?
    ensures step.FilterStep? && conf.filters.Some? && i < |Channels(step, width)|
    ensures BuildStep(w, conf, step, width)[i].channel == Channels(step, width)[i]
    ensures var fs := BuildStep(w, conf, step, width)[i].filters;
            |fs| == |step.names| &&
            forall k :: 0 <= k < |fs| ==>
              step.names[k] in conf.filters.value && fs[k] == NewFilter(w, conf, step.names[k])
  {
    var channels := Channels(step, width);
    assert BuildStep(w, conf, step, width)[i] == FilterGroup(channels[i], NewFilters(w, conf, step.names));
    assert forall k :: 0 <= k < |step.names| ==> step.names[k] in step.names;
  }

  function BuildSteps(w: C.World, conf: C.Configuration, n: nat): seq<Step>
    requires Buildable(conf) && n <= |Steps(conf)|
  {
    if n == 0 then []
    else
      assert StepBuildableAt(conf, n - 1);
      BuildSteps(w, conf, n - 1) + BuildStep(w, conf, Steps(conf)[n - 1], WidthAt(conf, n - 1))
  }

  function Build(w: C.World, conf: C.Configuration): seq<Step>
    requires Buildable(conf)
  {
    BuildSteps(w, conf, |Steps(conf)|)
  }

  /** An active filter step that runs on at least one channel, while there is no filters section at all. */
  ghost predicate UnwrapsMissingFilters(conf: C.Configuration) {
    conf.filters.None? &&
    exists i :: 0 <= i < |Steps(conf)| && BuildsFilters(conf, i)
  }

  ghost predicate BuildsFilters(conf: C.Configuration, i: nat)
    requires i < |Steps(conf)|
  {
    var step := Steps(conf)[i];
    step.FilterStep? && !step.IsBypassed() && Channels(step, WidthAt(conf, i)) != []
  }

  /** An accepted configuration can be built if and only if no active filter step meets a missing filters section. */
  lemma AcceptedBuildsIff(w: C.World, conf: C.Configuration)
    requires Accepted(w, conf)
    ensures Buildable(conf) <==> !UnwrapsMissingFilters(conf)
  {
    forall i | 0 <= i < |Steps(conf)|
      ensures StepBuildableAt(conf, i) <==> !(conf.filters.None? && BuildsFilters(conf, i))
    {
      assert StepIsOkAt(w, conf, i);
    }
  }

  /** A filter step without names and a configuration without filters. */
  function NamelessFilterStep(others: C.Parameters): C.Configuration {
    C.Configuration(None, C.Devices(1, 1, 1, 1, false, others), None, None, None, Some([C.FilterStep(None, [], None)]))
  }

  /** It is accepted, although building it unwraps a missing section. */
  lemma NamelessFilterStepIsAcceptedButNotBuildable(w: C.World, others: C.Parameters)
    ensures Accepted(w, NamelessFilterStep(others)) && !Buildable(NamelessFilterStep(others))
  {
    var conf := NamelessFilterStep(others);
    assert WidthAt(conf, 0) == 1 && WidthAt(conf, 1) == 1;
    assert |Channels(Steps(conf)[0], 1)| == 1;
    assert !StepBuildableAt(conf, 0);
    assert StepIsOkAt(w, conf, 0);
  }

  lemma {:induction false} FitsAppend(a: seq<Step>, b: seq<Step>, width: nat)
    ensures Fits(a + b, width) <==> Fits(a, width) && Fits(b, OutWidth(a, width))
    ensures OutWidth(a + b, width) == OutWidth(b, OutWidth(a, width))
    decreases |a|
  {
    if a == [] {
      assert a + b == b;
    } else {
      assert (a + b)[1..] == a[1..] + b;
      FitsAppend(a[1..], b, StepWidth(a[0], width));
    }
  }

  lemma {:induction false} GroupsFit(groups: seq<Step>, width: nat)
    requires forall k :: 0 <= k < |groups| ==> groups[k].FilterGroup? && groups[k].channel < width
    ensures Fits(groups, width) && OutWidth(groups, width) == width
    decreases |groups|
  {
    if groups != [] { GroupsFit(groups[1..], width); }
  }

  lemma BuildStepFits(w: C.World, conf: C.Configuration, i: nat)
    requires i < |Steps(conf)|
    requires StepIsOkAt(w, conf, i) && StepBuildableAt(conf, i)
    ensures Fits(BuildStep(w, conf, Steps(conf)[i], WidthAt(conf, i)), WidthAt(conf, i))
    ensures OutWidth(BuildStep(w, conf, Steps(conf)[i], WidthAt(conf, i)), WidthAt(conf, i)) == WidthAt(conf, i + 1)
  {
    var step, width := Steps(conf)[i], WidthAt(conf, i);
    var built := BuildStep(w, conf, step, width);
    if !step.IsBypassed() {
      match step {
        case MixerStep(name, _) =>
          CheckedMixerIsValid(w.pow10, name, conf.mixers.value[name]);
          assert built[1..] == [];
        case FilterStep(_, _, _) =>
          forall k | 0 <= k < |built| ensures built[k].FilterGroup? && built[k].channel < width {
            assert Channels(step, width)[k] in Channels(step, width);
          }
          GroupsFit(built, width);
        case ProcessorStep(_, _) =>
          assert built[1..] == [];
      }
    }
  }

  lemma {:induction false} AppendedFits(before: seq<Step>, more: seq<Step>, width: nat, between: nat, after: nat)
    requires Fits(before, width) && OutWidth(before, width) == between
    requires Fits(more, between) && OutWidth(more, between) == after
    ensures Fits(before + more, width) && OutWidth(before + more, width) == after
  {
    FitsAppend(before, more, width);
  }

  lemma {:induction false} BuildStepsFit(w: C.World, conf: C.Configuration, n: nat)
    requires Accepted(w, conf) && Buildable(conf) && n <= |Steps(conf)|
    ensures Fits(BuildSteps(w, conf, n), conf.devices.captureChannels)
    ensures OutWidth(BuildSteps(w, conf, n), conf.devices.captureChannels) == WidthAt(conf, n)
  {
    NoStepsFit(w, conf);
    for i := 0 to n
      invariant Fits(BuildSteps(w, conf, i), conf.devices.captureChannels)
      invariant OutWidth(BuildSteps(w, conf, i), conf.devices.captureChannels) == WidthAt(conf, i)
    {
      OneMoreStepFits(w, conf, i);
    }
  }

  lemma {:induction false} NoStepsFit(w: C.World, conf: C.Configuration)
    requires Buildable(conf)
    ensures Fits(BuildSteps(w, conf, 0), conf.devices.captureChannels)
    ensures OutWidth(BuildSteps(w, conf, 0), conf.devices.captureChannels) == WidthAt(conf, 0)
  {
  }

  lemma OneMoreStepFits(w: C.World, conf: C.Configuration, n: nat)
    requires Buildable(conf) && n < |Steps(conf)| && StepIsOkAt(w, conf, n)
    requires Fits(BuildSteps(w, conf, n), conf.devices.captureChannels)
    requires OutWidth(BuildSteps(w, conf, n), conf.devices.captureChannels) == WidthAt(conf, n)
    ensures Fits(BuildSteps(w, conf, n + 1), conf.devices.captureChannels)
    ensures OutWidth(BuildSteps(w, conf, n + 1), conf.devices.captureChannels) == WidthAt(conf, n + 1)
  {
    assert StepBuildableAt(conf, n);
    BuildStepFits(w, conf, n);
    AppendedFits(BuildSteps(w, conf, n), BuildStep(w, conf, Steps(conf)[n], WidthAt(conf, n)),
                 conf.devices.captureChannels, WidthAt(conf, n), WidthAt(conf, n + 1));
  }

  /** Accepted configurations do not go wrong: the built pipeline can be run on any chunks of the capture width,
      that is, no index and no lookup is ever out of range, and every output has the playback width. */
  lemma {:induction false} AcceptedRunsSafely(w: C.World, conf: C.Configuration, volume: VolumeState,
                                              inputs: seq<Input>)
    requires Accepted(w, conf) && !UnwrapsMissingFilters(conf)
    requires volume.chunksize > 0 && Width(inputs, conf.devices.captureChannels)
    ensures Buildable(conf)
    ensures Ready(Live(Build(w, conf), volume), conf.devices.captureChannels)
    ensures forall k :: 0 <= k < |inputs| ==>
      |RunAll(w, Live(Build(w, conf), volume), inputs, conf.devices.captureChannels).1[k].waveforms|
        == conf.devices.playbackChannels
  {
    AcceptedBuildsIff(w, conf);
    BuildStepsFit(w, conf, |Steps(conf)|);
  }
}
