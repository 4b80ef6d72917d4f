/** The mixer: building the routing table from the configuration, checking it, and mixing a chunk. */
module Mixers {
  import opened Audio
  import opened VolumeControl
  import opened Config

  datatype Source = Source(channel: nat, gain: real)

  datatype Mixer = Mixer(name: string, channelsIn: nat, channelsOut: nat, mapping: seq<seq<Source>>) {
    ghost predicate Valid() {
      |mapping| == channelsOut &&
      forall o, s :: 0 <= o < channelsOut && 0 <= s < |mapping[o]| ==> mapping[o][s].channel < channelsIn
    }
  }

  datatype MixerError =
    | BadDestination(dest: nat)
    | RepeatedDestination(dest: nat)
    | BadSource(channel: nat)
    | RepeatedSource(channel: nat, dest: nat)

  // ---------------------------------------------------------------------------------------------
  // Checking
  // ---------------------------------------------------------------------------------------------

  /** What a mixer must satisfy so that routing never indexes out of range and no destination is fed twice. */
  ghost predicate WellRouted(cfg: MixerConfig) {
    && (forall m :: 0 <= m < |cfg.mapping| ==> cfg.mapping[m].dest < cfg.channelsOut)
    && (forall m, n :: 0 <= m < n < |cfg.mapping| ==> cfg.mapping[m].dest != cfg.mapping[n].dest)
    && (forall m, s :: 0 <= m < |cfg.mapping| && 0 <= s < |cfg.mapping[m].sources| ==>
          cfg.mapping[m].sources[s].channel < cfg.channelsIn)
  }

  ghost predicate RepeatsASource(cfg: MixerConfig) {
    exists m, s, t :: 0 <= m < |cfg.mapping| && 0 <= s < t < |cfg.mapping[m].sources| &&
      cfg.mapping[m].sources[s].channel == cfg.mapping[m].sources[t].channel
  }

  /** Accepts exactly the well routed mixers. The list of channels that were already used as a source of the
      current destination is emptied but never filled, so the repeated-source error is never reported. */
  method ValidateMixer(cfg: MixerConfig) returns (r: Result<(), MixerError>)
    ensures r.Ok? <==> WellRouted(cfg)
    ensures r.Err? ==> !r.error.RepeatedSource?
  {
    var outputs: seq<nat> := [];
    var inputs: seq<nat> := [];
    for m := 0 to |cfg.mapping|
      invariant outputs == seq(m, i requires 0 <= i < m => cfg.mapping[i].dest)
      invariant inputs == []
      invariant forall i :: 0 <= i < m ==> cfg.mapping[i].dest < cfg.channelsOut
      invariant forall i, j :: 0 <= i < j < m ==> cfg.mapping[i].dest != cfg.mapping[j].dest
      invariant forall i, s :: 0 <= i < m && 0 <= s < |cfg.mapping[i].sources| ==>
        cfg.mapping[i].sources[s].channel < cfg.channelsIn
    {
      var mapping := cfg.mapping[m];
      if mapping.dest >= cfg.channelsOut {
        return Err(BadDestination(mapping.dest));
      }
      if mapping.dest in outputs {
        var i :| 0 <= i < |outputs| && outputs[i] == mapping.dest;
        assert cfg.mapping[i].dest == mapping.dest;
        return Err(RepeatedDestination(mapping.dest));
      }
      forall i | 0 <= i < m ensures cfg.mapping[i].dest != mapping.dest { assert outputs[i] == cfg.mapping[i].dest; }
      outputs := outputs + [mapping.dest];
      inputs := [];
      for s := 0 to |mapping.sources|
        invariant inputs == []
        invariant forall t :: 0 <= t < s ==> mapping.sources[t].channel < cfg.channelsIn
      {
        var source := mapping.sources[s];
        if source.channel >= cfg.channelsIn {
          return Err(BadSource(source.channel));
        }
        if source.channel in inputs {
          return Err(RepeatedSource(source.channel, mapping.dest));
        }
      }
    }
    return Ok(());
  }

  /** A well routed mixer that lists channel 0 twice for one destination. */
  function DoubledSource(): MixerConfig {
    var src := MixerSource(0, None, None, None, None);
    MixerConfig(1, 1, [MixerMapping(0, [src, src], None)])
  }

  /** The check does not do what its error message promises: this mixer is accepted, and its output is twice the
      input. */
  lemma RepeatedSourceIsAccepted(pow10: Pow10, name: string, x: real)
    ensures WellRouted(DoubledSource()) && RepeatsASource(DoubledSource())
    ensures MixedSample(pow10, DoubledSource(), [[x]], 0, 0) == 2.0 * (LinearGain(pow10, 0.0) * x)
  {
    var cfg := DoubledSource();
    assert cfg.mapping[0].sources[0].channel == cfg.mapping[0].sources[1].channel;
    var srcs := cfg.mapping[0].sources;
    assert srcs[1..][1..] == [];
    assert SourceSum(pow10, srcs, [[x]], 0) == LinearGain(pow10, 0.0) * x + SourceSum(pow10, srcs[1..], [[x]], 0);
    assert cfg.mapping[1..] == [];
  }

  // ---------------------------------------------------------------------------------------------
  // Building the routing table
  // ---------------------------------------------------------------------------------------------

  /** The sources that take part in mixing. Rebuilding leaves out muted ones, updating in place does not. */
  function Audible(pow10: Pow10, sources: seq<MixerSource>, honourMute: bool): seq<Source> {
    if sources == [] then []
    else
      var rest := Audible(pow10, sources[1..], honourMute);
      if honourMute && sources[0].IsMute() then rest
      else [Source(sources[0].channel, SourceGain(pow10, sources[0]))] + rest
  }

  /** Row `dest` of the routing table after the mappings in ms have been entered, in order. */
  function Row(pow10: Pow10, ms: seq<MixerMapping>, dest: nat, honourMute: bool): seq<Source> {
    if ms == [] then []
    else
      var m := ms[|ms| - 1];
      Row(pow10, ms[..|ms| - 1], dest, honourMute)
      + (if m.dest != dest || (honourMute && m.IsMute()) then [] else Audible(pow10, m.sources, honourMute))
  }

  function Table(pow10: Pow10, cfg: MixerConfig, honourMute: bool): seq<seq<Source>> {
    seq(cfg.channelsOut, o requires 0 <= o => Row(pow10, cfg.mapping, o, honourMute))
  }

  function FromConfig(pow10: Pow10, name: string, cfg: MixerConfig): Mixer {
    Mixer(name, cfg.channelsIn, cfg.channelsOut, Table(pow10, cfg, true))
  }

  /** Updating in place: the routing table is rebuilt without looking at the mutes. */
  function Updated(pow10: Pow10, mix: Mixer, cfg: MixerConfig): Mixer {
    mix.(channelsIn := cfg.channelsIn, channelsOut := cfg.channelsOut, mapping := Table(pow10, cfg, false))
  }

  lemma {:induction false} AudibleAppend(pow10: Pow10, a: seq<MixerSource>, x: MixerSource, honourMute: bool)
    ensures Audible(pow10, a + [x], honourMute) ==
      Audible(pow10, a, honourMute) +
        (if honourMute && x.IsMute() then [] else [Source(x.channel, SourceGain(pow10, x))])
  {
    if a == [] {
    } else {
      assert (a + [x])[1..] == a[1..] + [x];
      AudibleAppend(pow10, a[1..], x, honourMute);
    }
  }

  /** Enters the sources of one mapping into its row of the table. */
  method EnterSources(pow10: Pow10, before: seq<seq<Source>>, mapping: MixerMapping, honourMute: bool)
    returns (table: seq<seq<Source>>)
    requires mapping.dest < |before|
    ensures table == before[mapping.dest := before[mapping.dest] + Audible(pow10, mapping.sources, honourMute)]
  {
    table := before;
    var row := before[mapping.dest];
    for s := 0 to |mapping.sources|
      invariant row == before[mapping.dest] + Audible(pow10, mapping.sources[..s], honourMute)
      invariant table == before[mapping.dest := row]
    {
      var src := mapping.sources[s];
      assert mapping.sources[..s + 1] == mapping.sources[..s] + [src];
      AudibleAppend(pow10, mapping.sources[..s], src, honourMute);
      if !(honourMute && src.IsMute()) {
        row := row + [Source(src.channel, SourceGain(pow10, src))];
        table := table[mapping.dest := row];
      }
    }
    assert mapping.sources[..|mapping.sources|] == mapping.sources;
  }

  method BuildTable(pow10: Pow10, cfg: MixerConfig, honourMute: bool) returns (table: seq<seq<Source>>)
    requires forall m :: 0 <= m < |cfg.mapping| ==> cfg.mapping[m].dest < cfg.channelsOut
    ensures table == Table(pow10, cfg, honourMute)
  {
    table := seq(cfg.channelsOut, _ => []);
    for m := 0 to |cfg.mapping|
      invariant |table| == cfg.channelsOut
      invariant forall o :: 0 <= o < |table| ==> table[o] == Row(pow10, cfg.mapping[..m], o, honourMute)
    {
      assert cfg.mapping[..m + 1][..m] == cfg.mapping[..m];
      if !(honourMute && cfg.mapping[m].IsMute()) {
        table := EnterSources(pow10, table, cfg.mapping[m], honourMute);
      }
    }
    assert cfg.mapping[..|cfg.mapping|] == cfg.mapping;
  }

  ghost predicate HasMutedSource(m: MixerMapping) {
    exists s :: 0 <= s < |m.sources| && (m.IsMute() || m.sources[s].IsMute())
  }

  lemma {:induction false} AudibleLength(pow10: Pow10, sources: seq<MixerSource>)
    ensures |Audible(pow10, sources, false)| == |sources|
    ensures |Audible(pow10, sources, true)| <= |sources|
    ensures (exists s :: 0 <= s < |sources| && sources[s].IsMute()) ==> |Audible(pow10, sources, true)| < |sources|
    ensures (forall s :: 0 <= s < |sources| ==> !sources[s].IsMute()) ==>
              Audible(pow10, sources, true) == Audible(pow10, sources, false)
  {
    if sources != [] {
      AudibleLength(pow10, sources[1..]);
      if exists s :: 0 <= s < |sources| && sources[s].IsMute() {
        var s :| 0 <= s < |sources| && sources[s].IsMute();
        assert s > 0 ==> sources[1..][s - 1].IsMute();
      }
    }
  }

  lemma {:induction false} RowWithoutMutes(pow10: Pow10, ms: seq<MixerMapping>, dest: nat)
    ensures |Row(pow10, ms, dest, true)| <= |Row(pow10, ms, dest, false)|
    ensures |Row(pow10, ms, dest, true)| == |Row(pow10, ms, dest, false)| <==>
            forall m :: 0 <= m < |ms| && ms[m].dest == dest ==> !HasMutedSource(ms[m])
    ensures |Row(pow10, ms, dest, true)| == |Row(pow10, ms, dest, false)| ==>
            Row(pow10, ms, dest, true) == Row(pow10, ms, dest, false)
  {
    if ms != [] {
      var n := |ms| - 1;
      var m := ms[n];
      RowWithoutMutes(pow10, ms[..n], dest);
      AudibleLength(pow10, m.sources);
      if m.dest == dest {
        assert m.IsMute() ==> (HasMutedSource(m) <==> m.sources != []) by {
          if m.sources != [] && m.IsMute() { assert 0 <= 0 < |m.sources|; }
        }
      }
      assert forall i :: 0 <= i < n ==> ms[..n][i] == ms[i];
      assert forall i :: 0 <= i < |ms| ==> i == n || ms[i] == ms[..n][i];
    }
  }

  /** Updating a mixer in place gives the mixer that a rebuild gives if and only if nothing in the new
      configuration is muted that has a source. */
  lemma UpdateAgreesIffNothingIsMuted(pow10: Pow10, mix: Mixer, cfg: MixerConfig)
    requires WellRouted(cfg)
    ensures Updated(pow10, mix, cfg) == FromConfig(pow10, mix.name, cfg) <==>
            forall m :: 0 <= m < |cfg.mapping| ==> !HasMutedSource(cfg.mapping[m])
  {
    var t, u := Table(pow10, cfg, true), Table(pow10, cfg, false);
    if forall m :: 0 <= m < |cfg.mapping| ==> !HasMutedSource(cfg.mapping[m]) {
      forall o | 0 <= o < cfg.channelsOut ensures t[o] == u[o] { RowWithoutMutes(pow10, cfg.mapping, o); }
      assert t == u;
    } else {
      var m :| 0 <= m < |cfg.mapping| && HasMutedSource(cfg.mapping[m]);
      var o := cfg.mapping[m].dest;
      RowWithoutMutes(pow10, cfg.mapping, o);
      assert t[o] != u[o];
    }
  }

  lemma {:induction false} AudibleInRange(pow10: Pow10, sources: seq<MixerSource>, honourMute: bool, limit: nat)
    requires forall s :: 0 <= s < |sources| ==> sources[s].channel < limit
    ensures forall s :: 0 <= s < |Audible(pow10, sources, honourMute)| ==>
      Audible(pow10, sources, honourMute)[s].channel < limit
  {
    if sources != [] { AudibleInRange(pow10, sources[1..], honourMute, limit); }
  }

  lemma {:induction false} RowInRange(pow10: Pow10, ms: seq<MixerMapping>, dest: nat, honourMute: bool, limit: nat)
    requires forall m, s :: 0 <= m < |ms| && 0 <= s < |ms[m].sources| ==> ms[m].sources[s].channel < limit
    ensures forall s :: 0 <= s < |Row(pow10, ms, dest, honourMute)| ==>
      Row(pow10, ms, dest, honourMute)[s].channel < limit
  {
    if ms != [] {
      RowInRange(pow10, ms[..|ms| - 1], dest, honourMute, limit);
      AudibleInRange(pow10, ms[|ms| - 1].sources, honourMute, limit);
    }
  }

  /** A checked mixer configuration gives a mixer that never indexes out of range. */
  lemma CheckedMixerIsValid(pow10: Pow10, name: string, cfg: MixerConfig)
    requires WellRouted(cfg)
    ensures FromConfig(pow10, name, cfg).Valid()
  {
    forall o, s | 0 <= o < cfg.channelsOut && 0 <= s < |Row(pow10, cfg.mapping, o, true)|
      ensures Row(pow10, cfg.mapping, o, true)[s].channel < cfg.channelsIn
    {
      RowInRange(pow10, cfg.mapping, o, true, cfg.channelsIn);
    }
  }

  // ---------------------------------------------------------------------------------------------
  // Mixing
  // ---------------------------------------------------------------------------------------------

  /** What one source adds to a sample; an unused channel adds nothing. */
  function Contribution(gain: real, w: Waveform, i: nat): real { if i < |w| then gain * w[i] else 0.0 }

  /** One output sample: the weighted sum over the sources. */
  function WeightedSum(sources: seq<Source>, inputs: seq<Waveform>, i: nat): real
    requires forall s :: 0 <= s < |sources| ==> sources[s].channel < |inputs|
  {
    if sources == [] then 0.0
    else
      var n := |sources| - 1;
      WeightedSum(sources[..n], inputs, i) + Contribution(sources[n].gain, inputs[sources[n].channel], i)
  }

  function MixRow(sources: seq<Source>, inputs: seq<Waveform>, frames: nat): Waveform
    requires forall s :: 0 <= s < |sources| ==> sources[s].channel < |inputs|
  {
    seq(frames, i requires 0 <= i => WeightedSum(sources, inputs, i))
  }

  function Mix(mix: Mixer, c: Chunk): (r: Chunk)
    requires mix.Valid() && |c.waveforms| == mix.channelsIn
    ensures |r.waveforms| == mix.channelsOut && r.frames == c.frames && r.Valid()
  {
    c.(waveforms := seq(mix.channelsOut, o requires 0 <= o < mix.channelsOut =>
                          MixRow(mix.mapping[o], c.waveforms, c.frames)))
  }

  method ProcessChunk(mix: Mixer, input: Chunk) returns (out: Chunk)
    requires mix.Valid() && |input.waveforms| == mix.channelsIn
    ensures out == Mix(mix, input)
  {
    var waveforms: seq<Waveform> := [];
    for o := 0 to mix.channelsOut
      invariant |waveforms| == o
      invariant forall p :: 0 <= p < o ==> waveforms[p] == MixRow(mix.mapping[p], input.waveforms, input.frames)
    {
      var sources := mix.mapping[o];
      assert forall s :: 0 <= s < |sources| ==> sources[s].channel < |input.waveforms|;
      var acc := MixSources(sources, input);
      waveforms := waveforms + [acc];
    }
    out := input.(waveforms := waveforms);
  }

  /** Accumulates source by source, skipping the channels that are not in use. */
  method MixSources(sources: seq<Source>, input: Chunk) returns (acc: Waveform)
    requires forall s :: 0 <= s < |sources| ==> sources[s].channel < |input.waveforms|
    ensures acc == MixRow(sources, input.waveforms, input.frames)
  {
    acc := Silence(input.frames);
    for s := 0 to |sources|
      invariant |acc| == input.frames
      invariant forall i :: 0 <= i < input.frames ==> acc[i] == WeightedSum(sources[..s], input.waveforms, i)
    {
      var w := input.waveforms[sources[s].channel];
      var gain := sources[s].gain;
      ghost var before := acc;
      if w != [] {
        for i := 0 to MinNat(input.frames, |w|)
          invariant |acc| == input.frames
          invariant forall j :: 0 <= j < i ==> acc[j] == before[j] + gain * w[j]
          invariant forall j :: i <= j < input.frames ==> acc[j] == before[j]
        {
          acc := acc[i := acc[i] + gain * w[i]];
        }
      }
      assert sources[..s + 1][..s] == sources[..s];
    }
    assert sources[..|sources|] == sources;
  }

  // What a mixer computes, read directly off its configuration.

  /** The factor a source is multiplied with: its gain, or ten to the power of a twentieth of it when it is in dB, which
      is the default; the sign is turned if the source is inverted. */
  ghost function Factor(pow10: Pow10, src: MixerSource): real {
    var value := if src.gain.Some? then src.gain.value else 0.0;
    (if src.inverted == Some(true) then -1.0 else 1.0)
    * (if src.scale == Some(Linear) then value else pow10(value / 20.0))
  }

  lemma SourceGainIsFactor(pow10: Pow10, src: MixerSource)
    ensures SourceGain(pow10, src) == Factor(pow10, src)
  {
  }

  /** What one source adds up: nothing if it is muted or its channel is not in use. */
  ghost function Term(pow10: Pow10, src: MixerSource, inputs: seq<Waveform>, i: nat): real
    requires src.channel < |inputs|
  {
    if src.mute == Some(true) || i >= |inputs[src.channel]| then 0.0
    else Factor(pow10, src) * inputs[src.channel][i]
  }

  lemma TermIsContribution(pow10: Pow10, src: MixerSource, inputs: seq<Waveform>, i: nat)
    requires src.channel < |inputs|
    ensures Term(pow10, src, inputs, i) ==
            if src.IsMute() then 0.0 else Contribution(SourceGain(pow10, src), inputs[src.channel], i)
  {
    SourceGainIsFactor(pow10, src);
  }

  lemma {:induction false} SumOfOne(pow10: Pow10, src: MixerSource, inputs: seq<Waveform>, i: nat)
    requires src.channel < |inputs|
    ensures SourceSum(pow10, [src], inputs, i) == Term(pow10, src, inputs, i)
  {
    assert [src][1..] == [];
  }

  ghost function SourceSum(pow10: Pow10, sources: seq<MixerSource>, inputs: seq<Waveform>, i: nat): real
    requires forall s :: 0 <= s < |sources| ==> sources[s].channel < |inputs|
  {
    if sources == [] then 0.0
    else
      Term(pow10, sources[0], inputs, i) + SourceSum(pow10, sources[1..], inputs, i)
  }

  /** The mapping an output is computed by: the only one for it, unless that one is muted. */
  ghost function MappingOf(cfg: MixerConfig, dest: nat): (r: Option<nat>)
    ensures r.Some? ==> r.value < |cfg.mapping| && cfg.mapping[r.value].dest == dest && !cfg.mapping[r.value].IsMute()
    ensures r.None? ==> forall m :: 0 <= m < |cfg.mapping| ==> cfg.mapping[m].dest != dest || cfg.mapping[m].IsMute()
  {
    if m: nat :| m < |cfg.mapping| && cfg.mapping[m].dest == dest && !cfg.mapping[m].IsMute() then Some(m) else None
  }

  /** Sample i of output `dest`: its mapping, if there is one, adds up its sources that are not muted. */
  ghost function MixedSample(pow10: Pow10, cfg: MixerConfig, inputs: seq<Waveform>, dest: nat, i: nat): real
    requires WellRouted(cfg) && |inputs| == cfg.channelsIn
  {
    match MappingOf(cfg, dest)
    case Some(m) => SourceSum(pow10, cfg.mapping[m].sources, inputs, i)
    case None => 0.0
  }

  lemma {:induction false} WeightedSumAppend(a: seq<Source>, b: seq<Source>, inputs: seq<Waveform>, i: nat)
    requires forall s :: 0 <= s < |a| ==> a[s].channel < |inputs|
    requires forall s :: 0 <= s < |b| ==> b[s].channel < |inputs|
    ensures WeightedSum(a + b, inputs, i) == WeightedSum(a, inputs, i) + WeightedSum(b, inputs, i)
  {
    if b == [] {
      assert a + b == a;
    } else {
      var n := |b| - 1;
      assert (a + b)[..|a + b| - 1] == a + b[..n];
      WeightedSumAppend(a, b[..n], inputs, i);
    }
  }

  lemma {:induction false} WeightedSumOfOne(s: Source, inputs: seq<Waveform>, i: nat)
    requires s.channel < |inputs|
    ensures WeightedSum([s], inputs, i) == Contribution(s.gain, inputs[s.channel], i)
  {
    assert [s][..0] == [];
  }

  lemma {:induction false} HeadOfSum(first: Source, rest: seq<Source>, inputs: seq<Waveform>, i: nat)
    requires first.channel < |inputs| && forall s :: 0 <= s < |rest| ==> rest[s].channel < |inputs|
    ensures WeightedSum([first] + rest, inputs, i) ==
            Contribution(first.gain, inputs[first.channel], i) + WeightedSum(rest, inputs, i)
  {
    WeightedSumAppend([first], rest, inputs, i);
    WeightedSumOfOne(first, inputs, i);
  }

  lemma {:induction false} AudibleSum(pow10: Pow10, sources: seq<MixerSource>, inputs: seq<Waveform>, i: nat)
    requires forall s :: 0 <= s < |sources| ==> sources[s].channel < |inputs|
    ensures forall s :: 0 <= s < |Audible(pow10, sources, true)| ==> Audible(pow10, sources, true)[s].channel < |inputs|
    ensures WeightedSum(Audible(pow10, sources, true), inputs, i) == SourceSum(pow10, sources, inputs, i)
  {
    AudibleInRange(pow10, sources, true, |inputs|);
    if sources != [] {
      AudibleSum(pow10, sources[1..], inputs, i);
      TermIsContribution(pow10, sources[0], inputs, i);
      if !sources[0].IsMute() {
        HeadOfSum(Source(sources[0].channel, SourceGain(pow10, sources[0])), Audible(pow10, sources[1..], true),
          inputs, i);
      }
    }
  }

  lemma {:induction false} RowSum(pow10: Pow10, cfg: MixerConfig, inputs: seq<Waveform>, dest: nat, i: nat)
    requires WellRouted(cfg) && |inputs| == cfg.channelsIn
    ensures forall s :: 0 <= s < |Row(pow10, cfg.mapping, dest, true)| ==>
      Row(pow10, cfg.mapping, dest, true)[s].channel < |inputs|
    ensures WeightedSum(Row(pow10, cfg.mapping, dest, true), inputs, i) == MixedSample(pow10, cfg, inputs, dest, i)
  {
    RowInRange(pow10, cfg.mapping, dest, true, cfg.channelsIn);
    assert cfg.mapping[..|cfg.mapping|] == cfg.mapping;
    match MappingOf(cfg, dest)
    case Some(m) =>
      RowOfOneMapping(pow10, cfg, |cfg.mapping|, dest, m);
      AudibleSum(pow10, cfg.mapping[m].sources, inputs, i);
    case None =>
      RowOfNoMapping(pow10, cfg, |cfg.mapping|, dest);
  }

  lemma {:induction false} MixAt(mix: Mixer, c: Chunk, dest: nat, i: nat)
    requires mix.Valid() && |c.waveforms| == mix.channelsIn && dest < mix.channelsOut && i < c.frames
    ensures Mix(mix, c).waveforms[dest][i] == WeightedSum(mix.mapping[dest], c.waveforms, i)
  {
  }

  lemma MixerComputesItsConfiguration(
      pow10: Pow10, name: string, cfg: MixerConfig, c: Chunk, dest: nat, i: nat)
    requires WellRouted(cfg) && |c.waveforms| == cfg.channelsIn && dest < cfg.channelsOut && i < c.frames
    ensures FromConfig(pow10, name, cfg).Valid()
    ensures Mix(FromConfig(pow10, name, cfg), c).waveforms[dest][i] == MixedSample(pow10, cfg, c.waveforms, dest, i)
  {
    CheckedMixerIsValid(pow10, name, cfg);
    MixAt(FromConfig(pow10, name, cfg), c, dest, i);
    RowSum(pow10, cfg, c.waveforms, dest, i);
  }

  /** A mixer with one source: every sample of the output is the same sample of the input, times the linear gain, with
      the sign turned if the source is inverted. */
  lemma OneSourceScales(pow10: Pow10, name: string, gain: real, inverted: bool, x: Waveform, i: nat)
    requires i < |x|
    ensures var src := MixerSource(0, Some(gain), Some(inverted), None, Some(Linear));
            var cfg := MixerConfig(1, 1, [MixerMapping(0, [src], None)]);
            FromConfig(pow10, name, cfg).Valid() &&
            Mix(FromConfig(pow10, name, cfg), Chunk(|x|, [x])).waveforms[0][i] ==
              if inverted then -(gain * x[i]) else gain * x[i]
  {
    var src := MixerSource(0, Some(gain), Some(inverted), None, Some(Linear));
    var cfg := MixerConfig(1, 1, [MixerMapping(0, [src], None)]);
    MixerComputesItsConfiguration(pow10, name, cfg, Chunk(|x|, [x]), 0, i);
    assert cfg.mapping[0].dest == 0 && !cfg.mapping[0].IsMute();
    assert MappingOf(cfg, 0) == Some(0);
    SumOfOne(pow10, src, [x], i);
  }

  lemma {:induction false} RowOfOneMapping(pow10: Pow10, cfg: MixerConfig, n: nat, dest: nat, m: nat)
    requires WellRouted(cfg) && m < n <= |cfg.mapping|
    requires cfg.mapping[m].dest == dest && !cfg.mapping[m].IsMute()
    ensures Row(pow10, cfg.mapping[..n], dest, true) == Audible(pow10, cfg.mapping[m].sources, true)
  {
    assert cfg.mapping[..n][..n - 1] == cfg.mapping[..n - 1];
    if m == n - 1 {
      assert forall k :: 0 <= k < m ==> cfg.mapping[k].dest != dest;
      RowOfNoMapping(pow10, cfg, n - 1, dest);
    } else {
      RowOfOneMapping(pow10, cfg, n - 1, dest, m);
    }
  }

  lemma {:induction false} RowOfNoMapping(pow10: Pow10, cfg: MixerConfig, n: nat, dest: nat)
    requires n <= |cfg.mapping|
    requires forall m :: 0 <= m < n ==> cfg.mapping[m].dest != dest || cfg.mapping[m].IsMute()
    ensures Row(pow10, cfg.mapping[..n], dest, true) == []
  {
    if n > 0 {
      assert cfg.mapping[..n][..n - 1] == cfg.mapping[..n - 1];
      RowOfNoMapping(pow10, cfg, n - 1, dest);
    }
  }

  // ---------------------------------------------------------------------------------------------
  // Which inputs are used
  // ---------------------------------------------------------------------------------------------

  ghost predicate Uses(cfg: MixerConfig, channel: nat) {
    exists m, s :: 0 <= m < |cfg.mapping| && 0 <= s < |cfg.mapping[m].sources| &&
      !cfg.mapping[m].IsMute() && !cfg.mapping[m].sources[s].IsMute() && cfg.mapping[m].sources[s].channel == channel
  }

  method UsedInputChannels(cfg: MixerConfig) returns (used: seq<bool>)
    requires WellRouted(cfg)
    ensures |used| == cfg.channelsIn
    ensures forall c :: 0 <= c < |used| ==> (used[c] <==> Uses(cfg, c))
  {
    used := seq(cfg.channelsIn, _ => false);
    for m := 0 to |cfg.mapping|
      invariant |used| == cfg.channelsIn
      invariant forall c :: 0 <= c < |used| ==> (used[c] <==> UsesBefore(cfg, m, 0, c))
    {
      if !cfg.mapping[m].IsMute() {
        for s := 0 to |cfg.mapping[m].sources|
          invariant |used| == cfg.channelsIn
          invariant forall c :: 0 <= c < |used| ==> (used[c] <==> UsesBefore(cfg, m, s, c))
        {
          var src := cfg.mapping[m].sources[s];
          if !src.IsMute() {
            used := used[src.channel := true];
          }
          NextSource(cfg, m, s);
        }
      }
      NextMapping(cfg, m);
    }
  }

  /** Used by a mapping before number m, or by mapping m among its first s sources. */
  ghost predicate UsesBefore(cfg: MixerConfig, m: nat, s: nat, channel: nat) {
    exists n, t :: 0 <= n < |cfg.mapping| && 0 <= t < |cfg.mapping[n].sources| && (n < m || (n == m && t < s)) &&
      !cfg.mapping[n].IsMute() && !cfg.mapping[n].sources[t].IsMute() && cfg.mapping[n].sources[t].channel == channel
  }

  lemma NextMapping(cfg: MixerConfig, m: nat)
    requires m < |cfg.mapping|
    ensures forall c :: UsesBefore(cfg, m + 1, 0, c) <==>
      if cfg.mapping[m].IsMute() then UsesBefore(cfg, m, 0, c) else UsesBefore(cfg, m, |cfg.mapping[m].sources|, c)
  {
  }

  lemma NextSource(cfg: MixerConfig, m: nat, s: nat)
    requires m < |cfg.mapping| && s < |cfg.mapping[m].sources| && !cfg.mapping[m].IsMute()
    ensures forall c :: UsesBefore(cfg, m, s + 1, c) <==>
      UsesBefore(cfg, m, s, c) || (!cfg.mapping[m].sources[s].IsMute() && cfg.mapping[m].sources[s].channel == c)
  {
    forall c: nat
      ensures UsesBefore(cfg, m, s + 1, c) <==>
        UsesBefore(cfg, m, s, c) || (!cfg.mapping[m].sources[s].IsMute() && cfg.mapping[m].sources[s].channel == c)
    {
      if UsesBefore(cfg, m, s + 1, c) {
        var n, t :| 0 <= n < |cfg.mapping| && 0 <= t < |cfg.mapping[n].sources| && (n < m || (n == m && t < s + 1)) &&
          !cfg.mapping[n].IsMute() && !cfg.mapping[n].sources[t].IsMute() && cfg.mapping[n].sources[t].channel == c;
        assert (n == m && t == s) || UsesBefore(cfg, m, s, c);
      }
      if !cfg.mapping[m].sources[s].IsMute() && cfg.mapping[m].sources[s].channel == c {
        assert UsesBefore(cfg, m, s + 1, c);
      }
    }
  }

  lemma {:induction false} AudibleIsUsed(pow10: Pow10, sources: seq<MixerSource>, k: nat) returns (s: nat)
    requires k < |Audible(pow10, sources, true)|
    ensures s < |sources| && !sources[s].IsMute() && sources[s].channel == Audible(pow10, sources, true)[k].channel
  {
    var skipped := |Audible(pow10, sources, true)| - |Audible(pow10, sources[1..], true)|;
    if k < skipped {
      s := 0;
    } else {
      s := AudibleIsUsed(pow10, sources[1..], k - skipped);
      s := s + 1;
    }
  }

  /** The built mixer only ever reads the inputs that count as used. */
  lemma {:induction false} RowReadsUsedChannels(pow10: Pow10, cfg: MixerConfig, n: nat, dest: nat)
    requires n <= |cfg.mapping|
    ensures forall k :: 0 <= k < |Row(pow10, cfg.mapping[..n], dest, true)| ==>
      Uses(cfg, Row(pow10, cfg.mapping[..n], dest, true)[k].channel)
  {
    if n > 0 {
      assert cfg.mapping[..n][..n - 1] == cfg.mapping[..n - 1];
      RowReadsUsedChannels(pow10, cfg, n - 1, dest);
      var m := cfg.mapping[n - 1];
      forall k | 0 <= k < |Audible(pow10, m.sources, true)| && !m.IsMute()
        ensures Uses(cfg, Audible(pow10, m.sources, true)[k].channel)
      {
        var s := AudibleIsUsed(pow10, m.sources, k);
        assert cfg.mapping[n - 1].sources[s].channel == Audible(pow10, m.sources, true)[k].channel;
      }
    }
  }
}
