/** Capture channels that no mixer input uses arrive as empty waveforms. */
module Masking {
  import opened Audio
  import opened VolumeControl
  import C = Config
  import opened Mixers
  import opened Validation
  import opened Pipelines
  import opened Parallel

  // ---------------------------------------------------------------------------------------------
  // Which capture channels are used
  // ---------------------------------------------------------------------------------------------

  ghost predicate FirstActiveMixerAt(conf: C.Configuration, k: nat) {
    k < |Steps(conf)| && ActiveMixer(conf, Steps(conf)[k]).Some? &&
    forall j :: 0 <= j < k ==> ActiveMixer(conf, Steps(conf)[j]).None?
  }

  /** What the first active mixer reads, or everything when no mixer is active. */
  ghost predicate IsUsed(conf: C.Configuration, channel: nat) {
    forall k: nat :: FirstActiveMixerAt(conf, k) ==> Uses(ActiveMixer(conf, Steps(conf)[k]).value, channel)
  }

  lemma {:induction false} WidthBeforeMixer(conf: C.Configuration, n: nat)
    requires n <= |Steps(conf)| && forall j :: 0 <= j < n ==> ActiveMixer(conf, Steps(conf)[j]).None?
    ensures WidthAt(conf, n) == conf.devices.captureChannels
  {
    if n > 0 { WidthBeforeMixer(conf, n - 1); }
  }

  method UsedCaptureChannels(w: C.World, conf: C.Configuration) returns (used: seq<bool>)
    requires Accepted(w, conf)
    ensures |used| == conf.devices.captureChannels
    ensures forall c :: 0 <= c < |used| ==> (used[c] <==> IsUsed(conf, c))
  {
    var steps := conf.pipeline.GetOr([]);
    for i := 0 to |steps|
      invariant steps == Steps(conf)
      invariant forall j :: 0 <= j < i ==> ActiveMixer(conf, steps[j]).None?
    {
      if steps[i].MixerStep? && !steps[i].IsBypassed() {
        assert StepIsOkAt(w, conf, i);
        WidthBeforeMixer(conf, i);
        used := UsedInputChannels(conf.mixers.value[steps[i].name]);
        assert FirstActiveMixerAt(conf, i);
        assert forall k: nat :: FirstActiveMixerAt(conf, k) ==> k == i;
        return;
      }
    }
    used := seq(conf.devices.captureChannels, _ => true);
  }

  function Masked(used: seq<bool>, c: Chunk): (r: Chunk)
    requires |used| == |c.waveforms|
    ensures |r.waveforms| == |c.waveforms| && r.frames == c.frames
  {
    c.(waveforms := seq(|used|, i requires 0 <= i < |used| => if used[i] then c.waveforms[i] else []))
  }

  // ---------------------------------------------------------------------------------------------
  // Pipelines that agree on the used channels
  // ---------------------------------------------------------------------------------------------

  ghost predicate AllUsed(used: seq<bool>) { forall i :: 0 <= i < |used| ==> used[i] }

  ghost predicate AgreeOnUsed(used: seq<bool>, a: Chunk, b: Chunk) {
    a.frames == b.frames && |a.waveforms| == |b.waveforms| == |used| &&
    forall i :: 0 <= i < |used| && used[i] ==> a.waveforms[i] == b.waveforms[i]
  }

  /** Equal steps, except that filters on unused channels, before the first other step, may be in any state. */
  ghost predicate AgreeingSteps(used: seq<bool>, s: seq<Step>, t: seq<Step>) {
    if s != [] && s[0].FilterGroup? then
      t != [] && t[0].FilterGroup? && t[0].channel == s[0].channel < |used| &&
      (used[s[0].channel] ==> s[0] == t[0]) && AgreeingSteps(used, s[1..], t[1..])
    else s == t
  }

  ghost predicate ReadsOnly(mix: Mixer, used: seq<bool>) {
    forall o, k :: 0 <= o < |mix.mapping| && 0 <= k < |mix.mapping[o]| ==>
      mix.mapping[o][k].channel < |used| && used[mix.mapping[o][k].channel]
  }

  /** Nothing but filters comes before a mixer that reads used channels only. */
  ghost predicate GuardedByMixer(used: seq<bool>, steps: seq<Step>, k: nat) {
    k < |steps| && (forall j :: 0 <= j < k ==> steps[j].FilterGroup?) &&
    steps[k].MixerStep? && ReadsOnly(steps[k].mix, used)
  }

  lemma {:induction false} AllUsedMeansEqual(used: seq<bool>, s: seq<Step>, t: seq<Step>)
    requires AllUsed(used) && AgreeingSteps(used, s, t)
    ensures s == t
    decreases |s|
  {
    if s != [] && s[0].FilterGroup? {
      AllUsedMeansEqual(used, s[1..], t[1..]);
      assert s == [s[0]] + s[1..] && t == [t[0]] + t[1..];
    }
  }

  lemma {:induction false} AgreesWithItself(used: seq<bool>, s: seq<Step>)
    requires Fits(s, |used|)
    ensures AgreeingSteps(used, s, s)
    decreases |s|
  {
    if s != [] && s[0].FilterGroup? { AgreesWithItself(used, s[1..]); }
  }

  lemma {:induction false} SameSum(used: seq<bool>, row: seq<Source>, a: Chunk, b: Chunk, i: nat)
    requires AgreeOnUsed(used, a, b)
    requires forall k :: 0 <= k < |row| ==> row[k].channel < |used| && used[row[k].channel]
    ensures WeightedSum(row, a.waveforms, i) == WeightedSum(row, b.waveforms, i)
  {
    if row != [] { SameSum(used, row[..|row| - 1], a, b, i); }
  }

  lemma SameMix(used: seq<bool>, mix: Mixer, a: Chunk, b: Chunk)
    requires mix.Valid() && |a.waveforms| == mix.channelsIn && AgreeOnUsed(used, a, b) && ReadsOnly(mix, used)
    ensures Mix(mix, a) == Mix(mix, b)
  {
    forall o | 0 <= o < mix.channelsOut
      ensures MixRow(mix.mapping[o], a.waveforms, a.frames) == MixRow(mix.mapping[o], b.waveforms, b.frames)
    {
      forall i | 0 <= i < a.frames
        ensures WeightedSum(mix.mapping[o], a.waveforms, i) == WeightedSum(mix.mapping[o], b.waveforms, i)
      {
        SameSum(used, mix.mapping[o], a, b, i);
      }
    }
    assert Mix(mix, a).waveforms == Mix(mix, b).waveforms;
  }

  /** One chunk through two agreeing pipelines: equal results, and the pipelines still agree. */
  lemma {:induction false} UnusedChannelsDoNotShow(w: C.World, used: seq<bool>, s: seq<Step>, t: seq<Step>, a: Chunk,
                                                   b: Chunk, k: nat)
    requires AgreeOnUsed(used, a, b) && AgreeingSteps(used, s, t)
    requires Fits(s, |used|) && Fits(t, |used|) && GuardedByMixer(used, s, k)
    ensures RunSteps(w, s, a).1 == RunSteps(w, t, b).1
    ensures AgreeingSteps(used, RunSteps(w, s, a).0, RunSteps(w, t, b).0)
    ensures GuardedByMixer(used, RunSteps(w, s, a).0, k)
    decreases |s|
  {
    var (s0, a') := RunStep(w, s[0], a);
    var (t0, b') := RunStep(w, t[0], b);
    var s', t' := RunSteps(w, s, a).0, RunSteps(w, t, b).0;
    if k == 0 {
      SameMix(used, s[0].mix, a, b);
    } else {
      assert GuardedByMixer(used, s[1..], k - 1) by {
        assert forall j :: 0 <= j < |s[1..]| ==> s[1..][j] == s[j + 1];
      }
      UnusedChannelsDoNotShow(w, used, s[1..], t[1..], a', b', k - 1);
      var s'', t'' := RunSteps(w, s[1..], a').0, RunSteps(w, t[1..], b').0;
      assert s' == [s0] + s'' && t' == [t0] + t'';
      assert s'[1..] == s'' && t'[1..] == t'';
      assert forall j :: 0 < j < |s'| ==> s'[j] == s''[j - 1];
    }
  }

  /** The same readings of the fader, and chunks that differ on unused channels only. */
  ghost predicate AgreeingInputs(used: seq<bool>, inputs: seq<Input>, others: seq<Input>) {
    |others| == |inputs| &&
    forall i :: 0 <= i < |inputs| ==>
      AgreeOnUsed(used, inputs[i].chunk, others[i].chunk) && others[i].fader == inputs[i].fader
  }

  ghost predicate MaskedInputs(used: seq<bool>, inputs: seq<Input>, masked: seq<Input>) {
    |masked| == |inputs| &&
    forall i :: 0 <= i < |inputs| ==>
      |inputs[i].chunk.waveforms| == |used| && masked[i] == inputs[i].(chunk := Masked(used, inputs[i].chunk))
  }

  lemma {:induction false} AgreeingRuns(w: C.World, used: seq<bool>, p: Live, q: Live, inputs: seq<Input>,
                                        masked: seq<Input>, k: nat)
    requires Ready(p, |used|) && Ready(q, |used|) && AgreeingInputs(used, inputs, masked)
    requires p.volume == q.volume && AgreeingSteps(used, p.steps, q.steps)
    requires AllUsed(used) || GuardedByMixer(used, p.steps, k)
    ensures Width(inputs, |used|) && Width(masked, |used|)
    ensures RunAll(w, p, inputs, |used|).1 == RunAll(w, q, masked, |used|).1
    decreases |inputs|
  {
    if inputs != [] {
      var plan := Advance(p.volume, inputs[0].fader).1;
      var a := ApplyToChunk(w.pow10, plan, inputs[0].chunk);
      var b := ApplyToChunk(w.pow10, plan, masked[0].chunk);
      assert AgreeOnUsed(used, a, b);
      var p', q' := RunOne(w, p, inputs[0]).0, RunOne(w, q, masked[0]).0;
      if AllUsed(used) {
        AllUsedMeansEqual(used, p.steps, q.steps);
        assert a.waveforms == b.waveforms;
        AgreesWithItself(used, p'.steps);
      } else {
        UnusedChannelsDoNotShow(w, used, p.steps, q.steps, a, b, k);
      }
      AgreeingRuns(w, used, p', q', inputs[1..], masked[1..], k);
    }
  }

  // ---------------------------------------------------------------------------------------------
  // From the configuration
  // ---------------------------------------------------------------------------------------------

  ghost predicate ProcessorBeforeFirstMixer(conf: C.Configuration) {
    exists j: nat, k: nat :: j < k && FirstActiveMixerAt(conf, k) &&
      Steps(conf)[j].ProcessorStep? && !Steps(conf)[j].IsBypassed()
  }

  lemma {:induction false} OnlyFiltersBefore(w: C.World, conf: C.Configuration, n: nat)
    requires Accepted(w, conf) && Buildable(conf) && n <= |Steps(conf)|
    requires forall j :: 0 <= j < n ==>
      ActiveMixer(conf, Steps(conf)[j]).None? && (Steps(conf)[j].ProcessorStep? ==> Steps(conf)[j].IsBypassed())
    ensures forall j :: 0 <= j < |BuildSteps(w, conf, n)| ==> BuildSteps(w, conf, n)[j].FilterGroup?
  {
    if n > 0 {
      assert StepIsOkAt(w, conf, n - 1);
      OnlyFiltersBefore(w, conf, n - 1);
    }
  }

  lemma {:induction false} BuildStepsPrefix(w: C.World, conf: C.Configuration, n: nat, m: nat)
    requires Buildable(conf) && n <= m <= |Steps(conf)|
    ensures BuildSteps(w, conf, n) <= BuildSteps(w, conf, m)
  {
    for i := n to m
      invariant BuildSteps(w, conf, n) <= BuildSteps(w, conf, i)
    {
      OneStepLonger(w, conf, i, BuildSteps(w, conf, n));
    }
  }

  lemma OneStepLonger(w: C.World, conf: C.Configuration, n: nat, steps: seq<Step>)
    requires Buildable(conf) && n < |Steps(conf)| && steps <= BuildSteps(w, conf, n)
    ensures steps <= BuildSteps(w, conf, n + 1)
  {
    BuildStepsGrow(w, conf, n);
    PrefixOfPrefix(steps, BuildSteps(w, conf, n), BuildSteps(w, conf, n + 1));
  }

  lemma BuildStepsGrow(w: C.World, conf: C.Configuration, n: nat)
    requires Buildable(conf) && n < |Steps(conf)|
    ensures BuildSteps(w, conf, n) <= BuildSteps(w, conf, n + 1)
  {
    assert StepBuildableAt(conf, n);
  }

  lemma PrefixOfPrefix(a: seq<Step>, b: seq<Step>, c: seq<Step>)
    requires a <= b <= c
    ensures a <= c
  {
  }

  lemma BuiltMixerReadsUsed(w: C.World, conf: C.Configuration, used: seq<bool>, k: nat, name: string)
    requires FirstActiveMixerAt(conf, k) && WellRouted(ActiveMixer(conf, Steps(conf)[k]).value)
    requires |used| == ActiveMixer(conf, Steps(conf)[k]).value.channelsIn
    requires forall c :: 0 <= c < |used| ==> (used[c] <==> IsUsed(conf, c))
    ensures ReadsOnly(FromConfig(w.pow10, name, ActiveMixer(conf, Steps(conf)[k]).value), used)
  {
    var cfg := ActiveMixer(conf, Steps(conf)[k]).value;
    var mix := FromConfig(w.pow10, name, cfg);
    CheckedMixerIsValid(w.pow10, name, cfg);
    assert cfg.mapping[..|cfg.mapping|] == cfg.mapping;
    assert forall j: nat :: FirstActiveMixerAt(conf, j) ==> j == k;
    forall o, s | 0 <= o < |mix.mapping| && 0 <= s < |mix.mapping[o]|
      ensures mix.mapping[o][s].channel < |used| && used[mix.mapping[o][s].channel]
    {
      RowReadsUsedChannels(w.pow10, cfg, |cfg.mapping|, o);
      assert IsUsed(conf, mix.mapping[o][s].channel);
    }
  }

  lemma BuiltPipelineIsGuarded(w: C.World, conf: C.Configuration, used: seq<bool>, k: nat) returns (at: nat)
    requires Accepted(w, conf) && Buildable(conf)
    requires FirstActiveMixerAt(conf, k) && !ProcessorBeforeFirstMixer(conf)
    requires |used| == conf.devices.captureChannels && forall c :: 0 <= c < |used| ==> (used[c] <==> IsUsed(conf, c))
    ensures GuardedByMixer(used, Build(w, conf), at)
  {
    OnlyFiltersBefore(w, conf, k);
    WidthBeforeMixer(conf, k);
    assert StepIsOkAt(w, conf, k);
    BuildStepsPrefix(w, conf, k + 1, |Steps(conf)|);
    at := |BuildSteps(w, conf, k)|;
    var name := Steps(conf)[k].name;
    BuiltMixerReadsUsed(w, conf, used, k, name);
    MixerIsBuiltAt(w, conf, k);
    GuardedFromHere(used, BuildSteps(w, conf, k), FromConfig(w.pow10, name, ActiveMixer(conf, Steps(conf)[k]).value),
      Build(w, conf));
  }

  lemma GuardedFromHere(used: seq<bool>, filters: seq<Step>, mix: Mixer, steps: seq<Step>)
    requires (forall j :: 0 <= j < |filters| ==> filters[j].FilterGroup?) && filters + [MixerStep(mix)] <= steps &&
      ReadsOnly(mix, used)
    ensures GuardedByMixer(used, steps, |filters|)
  {
    assert forall j :: 0 <= j <= |filters| ==> steps[j] == (filters + [MixerStep(mix)])[j];
  }

  lemma MixerIsBuiltAt(w: C.World, conf: C.Configuration, k: nat)
    requires Buildable(conf) && k < |Steps(conf)| && ActiveMixer(conf, Steps(conf)[k]).Some?
    ensures BuildSteps(w, conf, k + 1) ==
      BuildSteps(w, conf, k) +
        [MixerStep(FromConfig(w.pow10, Steps(conf)[k].name, ActiveMixer(conf, Steps(conf)[k]).value))]
  {
    assert StepBuildableAt(conf, k);
  }

  /** Only the used capture channels matter: two runs of chunks that differ on the others give the same outputs, merged
      for parallel work or not. */
  lemma {:induction false} OnlyUsedChannelsMatter(
      w: C.World, conf: C.Configuration, used: seq<bool>, volume: VolumeState, inputs: seq<Input>, masked: seq<Input>)
    requires Accepted(w, conf) && Buildable(conf) && !ProcessorBeforeFirstMixer(conf)
    requires |used| == conf.devices.captureChannels && forall c :: 0 <= c < |used| ==> (used[c] <==> IsUsed(conf, c))
    requires volume.chunksize > 0 && AgreeingInputs(used, inputs, masked)
    ensures Ready(Live(Build(w, conf), volume), |used|) && Width(inputs, |used|) && Width(masked, |used|)
    ensures RunAll(w, Live(Build(w, conf), volume), inputs, |used|).1 ==
      RunAll(w, Live(Build(w, conf), volume), masked, |used|).1
    ensures Ready(Live(Merged(Build(w, conf), |used|, None), volume), |used|)
    ensures RunAll(w, Live(Merged(Build(w, conf), |used|, None), volume), inputs, |used|).1
         == RunAll(w, Live(Merged(Build(w, conf), |used|, None), volume), masked, |used|).1
  {
    BuildStepsFit(w, conf, |Steps(conf)|);
    var p := Live(Build(w, conf), volume);
    AgreesWithItself(used, p.steps);
    if k: nat :| FirstActiveMixerAt(conf, k) {
      var at := BuiltPipelineIsGuarded(w, conf, used, k);
      AgreeingRuns(w, used, p, p, inputs, masked, at);
    } else {
      assert AllUsed(used);
      AgreeingRuns(w, used, p, p, inputs, masked, 0);
    }
    ParallelIsSequential(w, p, inputs, |used|);
    ParallelIsSequential(w, p, masked, |used|);
  }

  /** Leaving out the unused capture channels is invisible: for any run of chunks, the pipeline that gets empty
      waveforms on them gives the same outputs as the one that gets everything, merged for parallel work or not. */
  lemma {:induction false} MaskingIsInvisible(
      w: C.World, conf: C.Configuration, used: seq<bool>, volume: VolumeState, inputs: seq<Input>, masked: seq<Input>)
    requires Accepted(w, conf) && Buildable(conf) && !ProcessorBeforeFirstMixer(conf)
    requires |used| == conf.devices.captureChannels && forall c :: 0 <= c < |used| ==> (used[c] <==> IsUsed(conf, c))
    requires volume.chunksize > 0 && MaskedInputs(used, inputs, masked)
    ensures Ready(Live(Build(w, conf), volume), |used|) && Width(inputs, |used|) && Width(masked, |used|)
    ensures RunAll(w, Live(Build(w, conf), volume), inputs, |used|).1 ==
      RunAll(w, Live(Build(w, conf), volume), masked, |used|).1
    ensures Ready(Live(Merged(Build(w, conf), |used|, None), volume), |used|)
    ensures RunAll(w, Live(Merged(Build(w, conf), |used|, None), volume), inputs, |used|).1
         == RunAll(w, Live(Merged(Build(w, conf), |used|, None), volume), masked, |used|).1
  {
    OnlyUsedChannelsMatter(w, conf, used, volume, inputs, masked);
  }

  // ---------------------------------------------------------------------------------------------
  // Why a processor must not come first
  // ---------------------------------------------------------------------------------------------

  /** A processor on two channels in front of a mixer that only reads channel 0. */
  function SideChain(parameters: C.Parameters): C.Configuration {
    C.Configuration(None, C.Devices(2, 1, 1, 1, false, parameters),
      Some(map["mix" := C.MixerConfig(2, 1, [C.MixerMapping(0, [C.MixerSource(0, None, None, None, None)], None)])]),
        None,
      Some(map["proc" := C.ProcessorConfig(C.Compressor, 2, parameters)]),
      Some([C.ProcessorStep("proc", None), C.MixerStep("mix", None)]))
  }

  /** A processor that overwrites channel 0 with what it hears on channel 1, when both are there. */
  function CopyAcross(ws: seq<Waveform>): seq<Waveform> {
    if |ws| == 2 && |ws[0]| == |ws[1]| then [ws[1], ws[1]] else ws
  }

  function SideChainWorld(fs: C.FilterState, ps: C.ProcessorState): C.World {
    C.World(x => 1.0, (c, s, x) => (s, x), (c, d) => fs, (c, s) => s, (r, c) => true,
            (c, s, ws) => (s, CopyAcross(ws)), (c, d) => ps, (c, s) => s, (r, c) => true, d => 0, d => 0.0)
  }

  lemma SideChainIsAccepted(parameters: C.Parameters, fs: C.FilterState, ps: C.ProcessorState)
    ensures Accepted(SideChainWorld(fs, ps), SideChain(parameters)) && Buildable(SideChain(parameters))
    ensures IsUsed(SideChain(parameters), 0) && !IsUsed(SideChain(parameters), 1)
  {
    var w, conf := SideChainWorld(fs, ps), SideChain(parameters);
    var steps, cfg := Steps(conf), conf.mixers.value["mix"];
    assert ActiveMixer(conf, steps[0]).None? && ActiveMixer(conf, steps[1]) == Some(cfg);
    assert FirstActiveMixerAt(conf, 1);
    assert forall k: nat :: FirstActiveMixerAt(conf, k) ==> k == 1;
    assert cfg.mapping[0].sources[0].channel == 0;
    assert WidthAt(conf, 0) == 2 && WidthAt(conf, 1) == 2 && WidthAt(conf, 2) == 1;
    assert StepIsOkAt(w, conf, 0) && StepIsOkAt(w, conf, 1);
    assert StepBuildableAt(conf, 0) && StepBuildableAt(conf, 1);
  }

  lemma SideChainSteps(parameters: C.Parameters, fs: C.FilterState, ps: C.ProcessorState)
    requires Buildable(SideChain(parameters))
    ensures var conf := SideChain(parameters);
            var w := SideChainWorld(fs, ps);
            Build(w, conf) ==
              [ProcessorStep(Processor("proc", conf.processors.value["proc"], ps)),
               MixerStep(FromConfig(w.pow10, "mix", conf.mixers.value["mix"]))]
  {
    var w, conf := SideChainWorld(fs, ps), SideChain(parameters);
    assert WidthAt(conf, 0) == 2 && WidthAt(conf, 1) == 2;
    assert StepBuildableAt(conf, 0);
    assert BuildSteps(w, conf, 1) == [] + BuildStep(w, conf, Steps(conf)[0], 2);
    assert BuildSteps(w, conf, 2) == BuildSteps(w, conf, 1) + BuildStep(w, conf, Steps(conf)[1], 2);
  }

  /** What the mixer of this configuration makes of the left and right channel. */
  lemma SideChainMix(pow10: Pow10, parameters: C.Parameters, c: Chunk)
    requires pow10(0.0 / 20.0) == 1.0 && c.frames == 1 && |c.waveforms| == 2 && |c.waveforms[0]| == 1
    ensures var cfg := SideChain(parameters).mixers.value["mix"];
            FromConfig(pow10, "mix", cfg).Valid() &&
              Mix(FromConfig(pow10, "mix", cfg), c).waveforms[0][0] == c.waveforms[0][0]
  {
    var cfg := SideChain(parameters).mixers.value["mix"];
    MixerComputesItsConfiguration(pow10, "mix", cfg, c, 0, 0);
    var src := cfg.mapping[0].sources;
    assert src[1..] == [];
    assert C.SourceGain(pow10, src[0]) == 1.0;
    assert SourceSum(pow10, src, c.waveforms, 0) == c.waveforms[0][0] + SourceSum(pow10, src[1..], c.waveforms, 0);
  }

  /** The configuration is accepted, channel 1 counts as unused, and yet leaving it out changes the output. */
  lemma {:induction false} ProcessorSeesTheMask(parameters: C.Parameters, fs: C.FilterState, ps: C.ProcessorState,
                                                c: Chunk)
    requires c == Chunk(1, [[0.0], [1.0]])
    ensures var w, conf := SideChainWorld(fs, ps), SideChain(parameters);
            Accepted(w, conf) && Buildable(conf) && IsUsed(conf, 0) && !IsUsed(conf, 1) &&
            Fits(Build(w, conf), 2) &&
            RunSteps(w, Build(w, conf), c).1 != RunSteps(w, Build(w, conf), Masked([true, false], c)).1
  {
    var w, conf := SideChainWorld(fs, ps), SideChain(parameters);
    SideChainIsAccepted(parameters, fs, ps);
    SideChainSteps(parameters, fs, ps);
    BuildStepsFit(w, conf, 2);
    var built := Build(w, conf);
    var m, c' := Masked([true, false], c), Chunk(1, [[1.0], [1.0]]);
    assert m == Chunk(1, [[0.0], []]);
    assert RunStep(w, built[0], c).1 == c' && RunStep(w, built[0], m).1 == m;
    SideChainMix(w.pow10, parameters, c');
    SideChainMix(w.pow10, parameters, m);
    TwoStepsRun(w, built[0], built[1], c);
    TwoStepsRun(w, built[0], built[1], m);
    assert built == [built[0], built[1]];
    assert RunSteps(w, built, c).1 == Mix(built[1].mix, c') && RunSteps(w, built, m).1 == Mix(built[1].mix, m);
  }

  lemma {:induction false} TwoStepsRun(w: C.World, s: Step, t: Step, c: Chunk)
    requires Fits([s, t], |c.waveforms|)
    ensures StepFits(s, |c.waveforms|) && StepFits(t, |RunStep(w, s, c).1.waveforms|)
    ensures RunSteps(w, [s, t], c).1 == RunStep(w, t, RunStep(w, s, c).1).1
  {
    assert [s, t] == [s] + [t] && [t] == [t] + [];
    RunStepsCons(w, s, [t], c);
    RunStepsCons(w, t, [], RunStep(w, s, c).1);
  }
}
