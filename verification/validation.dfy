/** The part of the configuration check that follows the number of channels along the pipeline. */
module Validation {
  import opened Audio
  import opened Config
  import opened Mixers

  datatype ConfigError =
    | MissingMixer(name: string)
    | WrongMixerInputs(name: string, expected: nat, found: nat)
    | InvalidMixer(name: string, reason: MixerError)
    | NonExistingChannel(channel: nat)
    | DuplicatedChannel(channel: nat)
    | MissingFilter(name: string)
    | InvalidFilter(name: string)
    | MissingProcessor(name: string)
    | WrongProcessorChannels(name: string, expected: nat, found: nat)
    | InvalidProcessor(name: string)
    | WrongOutputWidth(expected: nat, found: nat)

  function Steps(conf: Configuration): (r: seq<PipelineStep>)
    ensures conf.pipeline.Some? ==> r == conf.pipeline.value
    ensures conf.pipeline.None? ==> r == []
  {
    conf.pipeline.GetOr([])
  }

  /** The mixer a step switches to, if the step is an active mixer step with a known mixer. */
  function ActiveMixer(conf: Configuration, step: PipelineStep): Option<MixerConfig> {
    if step.MixerStep? && !step.IsBypassed() && conf.mixers.Some? && step.name in conf.mixers.value then
      Some(conf.mixers.value[step.name])
    else None
  }

  /** The number of channels after the first i steps: that of the last active mixer, or of the capture device. */
  function WidthAt(conf: Configuration, i: nat): nat
    requires i <= |Steps(conf)|
  {
    if i == 0 then conf.devices.captureChannels
    else
      match ActiveMixer(conf, Steps(conf)[i - 1])
      case Some(m) => m.channelsOut
      case None => WidthAt(conf, i - 1)
  }

  ghost predicate Distinct(s: seq<nat>) {
    forall i, j :: 0 <= i < j < |s| ==> s[i] != s[j]
  }

  ghost predicate FilterIsKnown(w: World, conf: Configuration, name: string) {
    conf.filters.Some? && name in conf.filters.value &&
    w.filterIsValid(conf.devices.samplerate, conf.filters.value[name])
  }

  /** What one step must satisfy when `width` channels arrive at it. */
  ghost predicate StepIsOk(w: World, conf: Configuration, step: PipelineStep, width: nat) {
    step.IsBypassed() ||
    match step
    case MixerStep(name, _) =>
      conf.mixers.Some? && name in conf.mixers.value &&
      conf.mixers.value[name].channelsIn == width && WellRouted(conf.mixers.value[name])
    case FilterStep(channels, names, _) =>
      && (channels.Some? ==> Distinct(channels.value) && forall c :: c in channels.value ==> c < width)
      && forall n :: n in names ==> FilterIsKnown(w, conf, n)
    case ProcessorStep(name, _) =>
      conf.processors.Some? && name in conf.processors.value &&
      conf.processors.value[name].channels == width &&
      w.processorIsValid(conf.devices.samplerate, conf.processors.value[name])
  }

  ghost predicate StepIsOkAt(w: World, conf: Configuration, i: nat)
    requires i < |Steps(conf)|
  {
    StepIsOk(w, conf, Steps(conf)[i], WidthAt(conf, i))
  }

  ghost predicate Accepted(w: World, conf: Configuration) {
    && (forall i :: 0 <= i < |Steps(conf)| ==> StepIsOkAt(w, conf, i))
    && WidthAt(conf, |Steps(conf)|) == conf.devices.playbackChannels
  }

  /** Accepts exactly the configurations in which every step fits the channels that arrive at it and the playback
      device takes what comes out. */
  method ValidateConfig(w: World, conf: Configuration) returns (r: Result<(), ConfigError>)
    ensures r.Ok? <==> Accepted(w, conf)
  {
    var width := conf.devices.captureChannels;
    var steps := conf.pipeline.GetOr([]);
    for i := 0 to |steps|
      invariant steps == Steps(conf)
      invariant width == WidthAt(conf, i)
      invariant forall j :: 0 <= j < i ==> StepIsOkAt(w, conf, j)
    {
      var step := steps[i];
      if !step.IsBypassed() {
        var error: Option<ConfigError>;
        match step {
          case MixerStep(name, _) =>
            error, width := CheckMixerStep(w, conf, step, width);
          case FilterStep(_, _, _) =>
            error := CheckFilterStep(w, conf, step, width);
          case ProcessorStep(_, _) =>
            error := CheckProcessorStep(w, conf, step, width);
        }
        if error.Some? {
          assert !StepIsOkAt(w, conf, i);
          return Err(error.value);
        }
      }
    }
    if width != conf.devices.playbackChannels {
      return Err(WrongOutputWidth(conf.devices.playbackChannels, width));
    }
    return Ok(());
  }

  method CheckMixerStep(w: World, conf: Configuration, step: PipelineStep, width: nat)
    returns (error: Option<ConfigError>, newWidth: nat)
    requires step.MixerStep? && !step.IsBypassed()
    ensures error.None? <==> StepIsOk(w, conf, step, width)
    ensures error.None? ==> ActiveMixer(conf, step).Some? && newWidth == ActiveMixer(conf, step).value.channelsOut
  {
    newWidth := width;
    if conf.mixers.None? || step.name !in conf.mixers.value {
      return Some(MissingMixer(step.name)), newWidth;
    }
    var mixer := conf.mixers.value[step.name];
    if mixer.channelsIn != width {
      return Some(WrongMixerInputs(step.name, width, mixer.channelsIn)), newWidth;
    }
    newWidth := mixer.channelsOut;
    var check := ValidateMixer(mixer);
    error := if check.Err? then Some(InvalidMixer(step.name, check.error)) else None;
  }

  method CheckFilterStep(w: World, conf: Configuration, step: PipelineStep, width: nat)
    returns (error: Option<ConfigError>)
    requires step.FilterStep? && !step.IsBypassed()
    ensures error.None? <==> StepIsOk(w, conf, step, width)
  {
    if step.channels.Some? {
      var channels := step.channels.value;
      for i := 0 to |channels|
        invariant forall j :: 0 <= j < i ==> channels[j] < width
      {
        assert channels[i] in channels;
        if channels[i] >= width {
          return Some(NonExistingChannel(channels[i]));
        }
      }
      if |channels| > 0 {
        for idx := 1 to |channels|
          invariant forall i, j :: 0 <= i < j < |channels| && i < idx - 1 ==> channels[i] != channels[j]
        {
          if channels[idx - 1] in channels[idx..] {
            return Some(DuplicatedChannel(channels[idx - 1]));
          }
          assert forall j :: idx <= j < |channels| ==> channels[j] == channels[idx..][j - idx];
        }
      }
    }
    for n := 0 to |step.names|
      invariant forall k :: 0 <= k < n ==> FilterIsKnown(w, conf, step.names[k])
    {
      var name := step.names[n];
      assert name in step.names;
      if conf.filters.None? || name !in conf.filters.value {
        return Some(MissingFilter(name));
      }
      if !w.filterIsValid(conf.devices.samplerate, conf.filters.value[name]) {
        return Some(InvalidFilter(name));
      }
    }
    return None;
  }

  method CheckProcessorStep(w: World, conf: Configuration, step: PipelineStep, width: nat)
    returns (error: Option<ConfigError>)
    requires step.ProcessorStep? && !step.IsBypassed()
    ensures error.None? <==> StepIsOk(w, conf, step, width)
  {
    if conf.processors.None? || step.name !in conf.processors.value {
      return Some(MissingProcessor(step.name));
    }
    var proc := conf.processors.value[step.name];
    if proc.channels != width {
      return Some(WrongProcessorChannels(step.name, width, proc.channels));
    }
    if !w.processorIsValid(conf.devices.samplerate, proc) {
      return Some(InvalidProcessor(step.name));
    }
    return None;
  }
}
