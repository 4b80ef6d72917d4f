/** The configuration, and the parts of the program that stay uninterpreted. */
module Config {
  import opened Audio
  import opened VolumeControl

  datatype FilterKind =
    Conv | Biquad | BiquadCombo | Delay | Gain | Volume | Loudness | Dither | DiffEq | Limiter

  datatype ProcessorKind = Compressor | NoiseGate | RACE | NightMode

  datatype GainScale = Linear | Decibel

  /** The settings of one filter or processor; only equality of settings matters here. */
  type Parameters(==, !new, 00)

  datatype FilterConfig = FilterConfig(kind: FilterKind, parameters: Parameters)

  datatype ProcessorConfig = ProcessorConfig(kind: ProcessorKind, channels: nat, parameters: Parameters)

  datatype MixerSource = MixerSource(
    channel: nat, gain: Option<real>, inverted: Option<bool>, mute: Option<bool>, scale: Option<GainScale>)
  {
    predicate IsMute()
      ensures IsMute() <==> mute == Some(true)
    {
      mute.GetOr(false)
    }
  }

  datatype MixerMapping = MixerMapping(dest: nat, sources: seq<MixerSource>, mute: Option<bool>) {
    predicate IsMute()
      ensures IsMute() <==> mute == Some(true)
    {
      mute.GetOr(false)
    }
  }

  datatype MixerConfig = MixerConfig(channelsIn: nat, channelsOut: nat, mapping: seq<MixerMapping>)

  datatype PipelineStep =
    | MixerStep(name: string, bypassed: Option<bool>)
    | FilterStep(channels: Option<seq<nat>>, names: seq<string>, bypassed: Option<bool>)
    | ProcessorStep(name: string, bypassed: Option<bool>)
  {
    predicate IsBypassed()
      ensures IsBypassed() <==> bypassed == Some(true)
    {
      bypassed.GetOr(false)
    }
  }

  datatype Devices = Devices(
    captureChannels: nat, playbackChannels: nat, chunksize: nat, samplerate: nat, multithreaded: bool,
    others: Parameters)

  datatype Configuration = Configuration(
    title: Option<string>,
    devices: Devices,
    mixers: Option<map<string, MixerConfig>>,
    filters: Option<map<string, FilterConfig>>,
    processors: Option<map<string, ProcessorConfig>>,
    pipeline: Option<seq<PipelineStep>>)

  type FilterState(!new, 00)
  type ProcessorState(!new, 00)

  ghost predicate KeepsLength(f: (FilterConfig, FilterState, Waveform) -> (FilterState, Waveform)) {
    forall c, s, w :: |f(c, s, w).1| == |w|
  }

  /** A filter works on its own state and on one waveform, which it overwrites in place. */
  type FilterFunction = f: (FilterConfig, FilterState, Waveform) -> (FilterState, Waveform) | KeepsLength(f)
    witness ((c: FilterConfig, s: FilterState, w: Waveform) => (s, w))

  ghost predicate KeepsShape(f: (ProcessorConfig, ProcessorState, seq<Waveform>) -> (ProcessorState, seq<Waveform>)) {
    forall c, s, ws: seq<Waveform> ::
      |f(c, s, ws).1| == |ws| && forall i :: 0 <= i < |ws| ==> |f(c, s, ws).1[i]| == |ws[i]|
  }

  /** A processor works on its own state and on all channels, which it overwrites in place. */
  type ProcessorFunction =
    f: (ProcessorConfig, ProcessorState, seq<Waveform>) -> (ProcessorState, seq<Waveform>) | KeepsShape(f)
    witness ((c: ProcessorConfig, s: ProcessorState, ws: seq<Waveform>) => (s, ws))

  /** Everything the pipeline calls without looking inside. */
  datatype World = World(
    pow10: Pow10,
    filter: FilterFunction,
    newFilter: (FilterConfig, Devices) -> FilterState,
    retuneFilter: (FilterConfig, FilterState) -> FilterState,
    filterIsValid: (nat, FilterConfig) -> bool,
    processor: ProcessorFunction,
    newProcessor: (ProcessorConfig, Devices) -> ProcessorState,
    retuneProcessor: (ProcessorConfig, ProcessorState) -> ProcessorState,
    processorIsValid: (nat, ProcessorConfig) -> bool,
    rampChunks: Devices -> nat,
    volumeLimit: Devices -> real)

  /** Linear gain of a value that is given in dB or as a factor. */
  function GainFromValue(pow10: Pow10, value: real, linear: bool, inverted: bool): real {
    var gain := if linear then value else LinearGain(pow10, value);
    if inverted then -gain else gain
  }

  function SourceGain(pow10: Pow10, src: MixerSource): real {
    GainFromValue(pow10, src.gain.GetOr(0.0), src.scale.GetOr(Decibel) == Linear, src.inverted.GetOr(false))
  }
}
