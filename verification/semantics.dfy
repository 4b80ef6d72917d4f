/** What a configuration means: every step as a function from streams of chunks to streams of chunks, without the
    pipeline that is built from it. */
module Semantics {
  import opened Audio
  import opened VolumeControl
  import C = Config
  import opened Mixers
  import opened Validation
  import opened Pipelines
  import opened Parallel
  import opened Reconfigure

  // ---------------------------------------------------------------------------------------------
  // The meaning of one step
  // ---------------------------------------------------------------------------------------------

  /** One filter works through the waveforms of one channel, and carries its state from each to the next. An empty
      waveform stays empty and leaves the state alone. */
  ghost function Filtered(w: C.World, cfg: C.FilterConfig, state: C.FilterState, xs: seq<Waveform>): (r: seq<Waveform>)
    ensures |r| == |xs|
  {
    if xs == [] then []
    else if xs[0] == [] then [[]] + Filtered(w, cfg, state, xs[1..])
    else
      var (next, y) := w.filter(cfg, state, xs[0]);
      [y] + Filtered(w, cfg, next, xs[1..])
  }

  ghost predicate Known(conf: C.Configuration, names: seq<string>) {
    conf.filters.Some? && forall n :: n in names ==> n in conf.filters.value
  }

  /** The named filters, each new, one after the other. */
  ghost function Chained(w: C.World, conf: C.Configuration, names: seq<string>, xs: seq<Waveform>): (r: seq<Waveform>)
    requires Known(conf, names)
    ensures |r| == |xs|
  {
    if names == [] then xs
    else
      var cfg := conf.filters.value[names[0]];
      Chained(w, conf, names[1..], Filtered(w, cfg, w.newFilter(cfg, conf.devices), xs))
  }

  ghost function Column(cs: seq<Chunk>, width: nat, channel: nat): (r: seq<Waveform>)
    requires AreWide(cs, width) && channel < width
    ensures |r| == |cs| && forall k :: 0 <= k < |cs| ==> r[k] == cs[k].waveforms[channel]
  {
    seq(|cs|, k requires 0 <= k < |cs| => cs[k].waveforms[channel])
  }

  /** One processor works through the chunks, and carries its state from each to the next. */
  ghost function Processed(w: C.World, cfg: C.ProcessorConfig, state: C.ProcessorState, cs: seq<Chunk>): seq<Chunk> {
    if cs == [] then []
    else
      var (next, ws) := w.processor(cfg, state, cs[0].waveforms);
      [cs[0].(waveforms := ws)] + Processed(w, cfg, next, cs[1..])
  }

  /** Output o, sample i is the sum that the configuration of the mixer asks for. */
  ghost predicate IsMixed(pow10: Pow10, cfg: C.MixerConfig, c: Chunk, d: Chunk)
    requires WellRouted(cfg) && |c.waveforms| == cfg.channelsIn
  {
    d.frames == c.frames && |d.waveforms| == cfg.channelsOut &&
    forall o :: 0 <= o < cfg.channelsOut ==>
      |d.waveforms[o]| == c.frames &&
      forall i :: 0 <= i < c.frames ==> d.waveforms[o][i] == MixedSample(pow10, cfg, c.waveforms, o, i)
  }

  ghost predicate OnChannel(step: C.PipelineStep, channel: nat)
    requires step.FilterStep?
  {
    step.channels.None? || channel in step.channels.value
  }

  /** The stream `ds` is what step i of the configuration makes of the stream `cs`. */
  ghost predicate StepMeans(w: C.World, conf: C.Configuration, i: nat, cs: seq<Chunk>, ds: seq<Chunk>)
    requires i < |Steps(conf)| && StepIsOkAt(w, conf, i) && StepBuildableAt(conf, i)
    requires AreWide(cs, WidthAt(conf, i))
  {
    var step, width := Steps(conf)[i], WidthAt(conf, i);
    |ds| == |cs| &&
    if step.bypassed == Some(true) then ds == cs
    else
      match step
      case MixerStep(name, _) =>
        forall k :: 0 <= k < |cs| ==> IsMixed(w.pow10, conf.mixers.value[name], cs[k], ds[k])
      case ProcessorStep(name, _) =>
        var cfg := conf.processors.value[name];
        ds == Processed(w, cfg, w.newProcessor(cfg, conf.devices), cs)
      case FilterStep(_, names, _) =>
        AreWide(ds, width) && (forall k :: 0 <= k < |cs| ==> ds[k].frames == cs[k].frames) &&
        forall c :: 0 <= c < width ==>
          if OnChannel(step, c) then
            Known(conf, names) && Column(ds, width, c) == Chained(w, conf, names, Column(cs, width, c))
          else Column(ds, width, c) == Column(cs, width, c)
  }

  /** Each of the first n steps leads from one stream to the next. */
  ghost predicate MeansUpTo(w: C.World, conf: C.Configuration, streams: seq<seq<Chunk>>, n: nat)
    requires n <= |Steps(conf)|
  {
    |streams| == n + 1 &&
    (forall i :: 0 <= i <= n ==> AreWide(streams[i], WidthAt(conf, i))) &&
    forall i :: 0 <= i < n ==> StepLeads(w, conf, i, streams[i], streams[i + 1])
  }

  /** `streams` leads from the first stream, step by step, to the last. */
  ghost predicate Means(w: C.World, conf: C.Configuration, streams: seq<seq<Chunk>>) {
    MeansUpTo(w, conf, streams, |Steps(conf)|)
  }

  ghost predicate StepLeads(w: C.World, conf: C.Configuration, i: nat, cs: seq<Chunk>, ds: seq<Chunk>)
    requires i < |Steps(conf)| && AreWide(cs, WidthAt(conf, i))
  {
    StepIsOkAt(w, conf, i) && StepBuildableAt(conf, i) && StepMeans(w, conf, i, cs, ds)
  }

  // ---------------------------------------------------------------------------------------------
  // Streams through built steps
  // ---------------------------------------------------------------------------------------------

  lemma {:induction false} RunStepsAppend(w: C.World, a: seq<Step>, b: seq<Step>, c: Chunk)
    requires Fits(a, |c.waveforms|) && Fits(b, OutWidth(a, |c.waveforms|))
    ensures Fits(a + b, |c.waveforms|)
    ensures var (a', d) := RunSteps(w, a, c);
            var (b', e) := RunSteps(w, b, d);
            RunSteps(w, a + b, c) == (a' + b', e)
    decreases |a|
  {
    FitsAppend(a, b, |c.waveforms|);
    if a == [] {
      assert a + b == b;
      var b' := RunSteps(w, b, c).0;
      assert [] + b' == b';
    } else {
      var (s, d) := RunStep(w, a[0], c);
      RunStepsAppend(w, a[1..], b, d);
      var a' := RunSteps(w, a[1..], d).0;
      Regrouped(a[0], a[1..], b);
      Regrouped(s, a', RunSteps(w, b, RunSteps(w, a[1..], d).1).0);
      assert a == [a[0]] + a[1..];
      RunStepsCons(w, a[0], a[1..] + b, c);
    }
  }

  lemma Regrouped(s: Step, a: seq<Step>, b: seq<Step>)
    ensures [s] + (a + b) == [s] + a + b
  {
  }

  /** A stream through some steps and then through some more. */
  lemma {:induction false} RunChunksAppend(w: C.World, a: seq<Step>, b: seq<Step>, cs: seq<Chunk>, width: nat)
    requires Fits(a, width) && Fits(b, OutWidth(a, width)) && AreWide(cs, width)
    ensures Fits(a + b, width)
    ensures RunChunks(w, a + b, cs, width) == RunChunks(w, b, RunChunks(w, a, cs, width), OutWidth(a, width))
    decreases |cs|
  {
    FitsAppend(a, b, width);
    if cs != [] {
      RunStepsAppend(w, a, b, cs[0]);
      var (a', d) := RunSteps(w, a, cs[0]);
      var b' := RunSteps(w, b, d).0;
      RunChunksAppend(w, a', b', cs[1..], width);
      HeadAndTail(d, RunChunks(w, a', cs[1..], width));
    }
  }

  lemma HeadAndTail(c: Chunk, cs: seq<Chunk>)
    ensures ([c] + cs)[0] == c && ([c] + cs)[1..] == cs
  {
  }

  lemma {:induction false} NoStepsNoChange(w: C.World, cs: seq<Chunk>, width: nat)
    requires AreWide(cs, width)
    ensures RunChunks(w, [], cs, width) == cs
    decreases |cs|
  {
    if cs != [] { NoStepsNoChange(w, cs[1..], width); }
  }

  /** A stream through a single step. */
  lemma {:induction false} SingleStep(w: C.World, s: Step, cs: seq<Chunk>, width: nat)
    requires StepFits(s, width) && AreWide(cs, width) && cs != []
    ensures Fits([s], width) && StepFits(RunStep(w, s, cs[0]).0, width) && Fits([RunStep(w, s, cs[0]).0], width)
    ensures RunChunks(w, [s], cs, width) ==
            [RunStep(w, s, cs[0]).1] + RunChunks(w, [RunStep(w, s, cs[0]).0], cs[1..], width)
  {
    var t := RunStep(w, s, cs[0]).0;
    assert [s][1..] == [] && [t][1..] == [];
    assert [s] + [] == [s] && [t] + [] == [t];
    RunStepsCons(w, s, [], cs[0]);
  }

  // Filters of one channel.

  /** Filters in given states, one after the other. */
  ghost function ThroughAll(w: C.World, fs: seq<Filter>, xs: seq<Waveform>): (r: seq<Waveform>)
    ensures |r| == |xs|
  {
    if fs == [] then xs else ThroughAll(w, fs[1..], Filtered(w, fs[0].config, fs[0].state, xs))
  }

  lemma {:induction false} FirstFilter(w: C.World, fs: seq<Filter>, x: Waveform)
    requires fs != []
    ensures var (g, y) := RunFilter(w, fs[0], x);
            var (gs, z) := RunFilters(w, fs[1..], y);
            RunFilters(w, fs, x) == ([g] + gs, z)
  {
    assert fs == [fs[0]] + fs[1..];
    RunFiltersAppend(w, [fs[0]], fs[1..], x);
    assert [fs[0]][..0] == [];
    var g := RunFilter(w, fs[0], x).0;
    assert [] + [g] == [g];
    assert RunFilters(w, [fs[0]], x).0 == [g];
  }

  /** Chunk by chunk through all filters is filter by filter through all chunks. */
  lemma {:induction false} ChunkByChunk(w: C.World, fs: seq<Filter>, x: Waveform, xs: seq<Waveform>)
    ensures ThroughAll(w, fs, [x] + xs) == [RunChannel(w, fs, x).1] + ThroughAll(w, RunChannel(w, fs, x).0, xs)
    decreases |fs|
  {
    if fs != [] {
      var f := fs[0];
      assert ([x] + xs)[1..] == xs;
      if x == [] {
        ChunkByChunk(w, fs[1..], x, Filtered(w, f.config, f.state, xs));
      } else {
        FirstFilter(w, fs, x);
        var (g, y) := RunFilter(w, f, x);
        assert (g.state, y) == w.filter(f.config, f.state, x) && g.config == f.config;
        ChunkByChunk(w, fs[1..], y, Filtered(w, g.config, g.state, xs));
        var gs := RunFilters(w, fs[1..], y).0;
        assert ([g] + gs)[1..] == gs;
      }
    }
  }

  /** One chunk through a filter group: each filter gets what the one before it put out, and keeps the state it returned
      for the next chunk; what the last one put out takes the place of the waveform. */
  lemma {:induction false} GroupWorksInOrder(w: C.World, ch: nat, fs: seq<Filter>, c: Chunk) returns (xs: seq<Waveform>)
    requires ch < |c.waveforms| && c.waveforms[ch] != []
    ensures |xs| == |fs| + 1 && xs[0] == c.waveforms[ch]
    ensures var (s, d) := RunStep(w, FilterGroup(ch, fs), c);
            s.FilterGroup? && s.channel == ch && |s.filters| == |fs| &&
            d == c.(waveforms := c.waveforms[ch := xs[|fs|]]) &&
            forall k :: 0 <= k < |fs| ==>
              s.filters[k].name == fs[k].name && s.filters[k].config == fs[k].config &&
              (s.filters[k].state, xs[k + 1]) == w.filter(fs[k].config, fs[k].state, xs[k])
  {
    xs := FiltersWorkInOrder(w, fs, c.waveforms[ch]);
  }

  lemma {:induction false} FiltersWorkInOrder(w: C.World, fs: seq<Filter>, x: Waveform) returns (xs: seq<Waveform>)
    ensures |xs| == |fs| + 1 && xs[0] == x
    ensures var (gs, y) := RunFilters(w, fs, x);
            y == xs[|fs|] &&
            forall k :: 0 <= k < |fs| ==>
              gs[k].name == fs[k].name && gs[k].config == fs[k].config &&
              (gs[k].state, xs[k + 1]) == w.filter(fs[k].config, fs[k].state, xs[k])
    decreases |fs|
  {
    if fs == [] {
      xs := [x];
    } else {
      var before := FiltersWorkInOrder(w, fs[..|fs| - 1], x);
      xs := before + [RunFilters(w, fs, x).1];
    }
  }

  /** One channel of the stream `ds` is what the filters make of it in the stream `cs`, the others are unchanged. */
  ghost predicate GroupFiltered(w: C.World, ch: nat, fs: seq<Filter>, cs: seq<Chunk>, ds: seq<Chunk>, width: nat) {
    ch < width && |ds| == |cs| && AreWide(cs, width) && AreWide(ds, width) &&
    Column(ds, width, ch) == ThroughAll(w, fs, Column(cs, width, ch)) &&
    (forall c :: 0 <= c < width && c != ch ==> Column(ds, width, c) == Column(cs, width, c)) &&
    forall k :: 0 <= k < |cs| ==> ds[k].frames == cs[k].frames
  }

  lemma {:induction false} FirstGroupFiltered(w: C.World, ch: nat, fs: seq<Filter>, c: Chunk, cs: seq<Chunk>,
                                              ds: seq<Chunk>, width: nat)
    requires |c.waveforms| == width && ch < width
    requires GroupFiltered(w, ch, RunChannel(w, fs, c.waveforms[ch]).0, cs, ds, width)
    ensures GroupFiltered(w, ch, fs, [c] + cs,
                          [c.(waveforms := c.waveforms[ch := RunChannel(w, fs, c.waveforms[ch]).1])] + ds, width)
  {
    var d := c.(waveforms := c.waveforms[ch := RunChannel(w, fs, c.waveforms[ch]).1]);
    ChunkByChunk(w, fs, c.waveforms[ch], Column(cs, width, ch));
    forall i | 0 <= i < width
      ensures Column([c] + cs, width, i) == [c.waveforms[i]] + Column(cs, width, i)
      ensures Column([d] + ds, width, i) == [d.waveforms[i]] + Column(ds, width, i)
    {
      ColumnOfFirst(c, cs, width, i);
      ColumnOfFirst(d, ds, width, i);
    }
  }

  /** A filter group puts out on its channel what its filters make of the stream there, and leaves the others alone. */
  lemma {:induction false} GroupFilters(w: C.World, ch: nat, fs: seq<Filter>, cs: seq<Chunk>, width: nat)
    requires ch < width && AreWide(cs, width)
    ensures Fits([FilterGroup(ch, fs)], width) && OutWidth([FilterGroup(ch, fs)], width) == width
    ensures GroupFiltered(w, ch, fs, cs, RunChunks(w, [FilterGroup(ch, fs)], cs, width), width)
    decreases |cs|
  {
    assert [FilterGroup(ch, fs)][1..] == [];
    if cs != [] {
      var gs := RunChannel(w, fs, cs[0].waveforms[ch]).0;
      SingleStep(w, FilterGroup(ch, fs), cs, width);
      GroupFilters(w, ch, gs, cs[1..], width);
      FirstGroupFiltered(w, ch, fs, cs[0], cs[1..], RunChunks(w, [FilterGroup(ch, gs)], cs[1..], width), width);
      assert cs == [cs[0]] + cs[1..];
    } else {
      NothingFiltered(w, ch, fs, width);
    }
  }

  lemma {:induction false} NothingFiltered(w: C.World, ch: nat, fs: seq<Filter>, width: nat)
    requires ch < width
    ensures GroupFiltered(w, ch, fs, [], [], width)
  {
    assert ThroughAll(w, fs, []) == [];
  }

  lemma ColumnOfFirst(c: Chunk, cs: seq<Chunk>, width: nat, channel: nat)
    requires |c.waveforms| == width && AreWide(cs, width) && channel < width
    ensures AreWide([c] + cs, width)
    ensures Column([c] + cs, width, channel) == [c.waveforms[channel]] + Column(cs, width, channel)
  {
  }

  ghost predicate GroupsOf(groups: seq<Step>, channels: seq<nat>, fs: seq<Filter>) {
    |groups| == |channels| && forall k :: 0 <= k < |groups| ==> groups[k] == FilterGroup(channels[k], fs)
  }

  /** The channels in the list have gone through the filters, the others are as they were. */
  ghost predicate FilteredOn(w: C.World, channels: seq<nat>, fs: seq<Filter>, cs: seq<Chunk>, ds: seq<Chunk>,
                             width: nat) {
    |ds| == |cs| && AreWide(cs, width) && AreWide(ds, width) &&
    (forall k :: 0 <= k < |cs| ==> ds[k].frames == cs[k].frames) &&
    forall c :: 0 <= c < width ==>
      Column(ds, width, c) == if c in channels then ThroughAll(w, fs, Column(cs, width, c)) else Column(cs, width, c)
  }

  lemma OneMoreChannel(w: C.World, channels: seq<nat>, ch: nat, fs: seq<Filter>, cs: seq<Chunk>, ds: seq<Chunk>,
                       es: seq<Chunk>, width: nat)
    requires FilteredOn(w, channels, fs, cs, ds, width) && ch !in channels && ch < width
    requires GroupFiltered(w, ch, fs, ds, es, width)
    ensures FilteredOn(w, channels + [ch], fs, cs, es, width)
  {
  }

  /** Groups on different channels, all with the same filters. */
  lemma {:induction false} GroupsFilter(w: C.World, groups: seq<Step>, channels: seq<nat>, fs: seq<Filter>,
                                        cs: seq<Chunk>, width: nat)
    requires AreWide(cs, width) && GroupsOf(groups, channels, fs) && Distinct(channels)
    requires forall c :: c in channels ==> c < width
    ensures Fits(groups, width) && OutWidth(groups, width) == width
    ensures FilteredOn(w, channels, fs, cs, RunChunks(w, groups, cs, width), width)
    decreases |groups|
  {
    if groups == [] {
      NoStepsNoChange(w, cs, width);
    } else {
      var n := |groups| - 1;
      var ch := channels[n];
      assert ch in channels && groups == groups[..n] + [groups[n]] && channels == channels[..n] + [ch];
      assert forall c :: c in channels[..n] ==> c in channels;
      GroupsFilter(w, groups[..n], channels[..n], fs, cs, width);
      var ds := RunChunks(w, groups[..n], cs, width);
      GroupFilters(w, ch, fs, ds, width);
      RunChunksAppend(w, groups[..n], [groups[n]], cs, width);
      FitsAppend(groups[..n], [groups[n]], width);
      OneMoreChannel(w, channels[..n], ch, fs, cs, ds, RunChunks(w, [groups[n]], ds, width), width);
    }
  }

  /** The filters of a built group are the named ones, each new. */
  lemma {:induction false} NewFiltersChain(w: C.World, conf: C.Configuration, names: seq<string>, xs: seq<Waveform>)
    requires Known(conf, names)
    ensures ThroughAll(w, NewFilters(w, conf, names), xs) == Chained(w, conf, names, xs)
    decreases |names|
  {
    if names != [] {
      var fs := NewFilters(w, conf, names);
      assert names[0] in names;
      assert fs[1..] == NewFilters(w, conf, names[1..]);
      NewFiltersChain(w, conf, names[1..], Filtered(w, fs[0].config, fs[0].state, xs));
    }
  }

  // Mixers and processors.

  lemma {:induction false} MixerMixes(w: C.World, name: string, cfg: C.MixerConfig, cs: seq<Chunk>)
    requires WellRouted(cfg) && AreWide(cs, cfg.channelsIn)
    ensures Fits([MixerStep(FromConfig(w.pow10, name, cfg))], cfg.channelsIn)
    ensures var ds := RunChunks(w, [MixerStep(FromConfig(w.pow10, name, cfg))], cs, cfg.channelsIn);
            forall k :: 0 <= k < |cs| ==> IsMixed(w.pow10, cfg, cs[k], ds[k])
    decreases |cs|
  {
    CheckedMixerIsValid(w.pow10, name, cfg);
    var s := MixerStep(FromConfig(w.pow10, name, cfg));
    assert [s][1..] == [];
    if cs != [] {
      SingleStep(w, s, cs, cfg.channelsIn);
      MixerMixes(w, name, cfg, cs[1..]);
      ChunkIsMixed(w.pow10, name, cfg, cs[0]);
    }
  }

  lemma ChunkIsMixed(pow10: Pow10, name: string, cfg: C.MixerConfig, c: Chunk)
    requires WellRouted(cfg) && |c.waveforms| == cfg.channelsIn
    ensures FromConfig(pow10, name, cfg).Valid() && IsMixed(pow10, cfg, c, Mix(FromConfig(pow10, name, cfg), c))
  {
    CheckedMixerIsValid(pow10, name, cfg);
    forall o, i | 0 <= o < cfg.channelsOut && 0 <= i < c.frames
      ensures Mix(FromConfig(pow10, name, cfg), c).waveforms[o][i] == MixedSample(pow10, cfg, c.waveforms, o, i)
    {
      MixerComputesItsConfiguration(pow10, name, cfg, c, o, i);
    }
  }

  lemma {:induction false} ProcessorProcesses(w: C.World, p: Processor, cs: seq<Chunk>, width: nat)
    requires AreWide(cs, width)
    ensures Fits([ProcessorStep(p)], width)
    ensures RunChunks(w, [ProcessorStep(p)], cs, width) == Processed(w, p.config, p.state, cs)
    decreases |cs|
  {
    assert [ProcessorStep(p)][1..] == [];
    if cs != [] {
      SingleStep(w, ProcessorStep(p), cs, width);
      var next := w.processor(p.config, p.state, cs[0].waveforms).0;
      ProcessorProcesses(w, p.(state := next), cs[1..], width);
    }
  }

  // ---------------------------------------------------------------------------------------------
  // The built pipeline means what the configuration says
  // ---------------------------------------------------------------------------------------------

  /** The steps that are built from one step of the configuration do what it means. */
  lemma {:induction false} BuiltStepMeans(w: C.World, conf: C.Configuration, i: nat, cs: seq<Chunk>)
    requires i < |Steps(conf)| && StepIsOkAt(w, conf, i) && StepBuildableAt(conf, i)
    requires AreWide(cs, WidthAt(conf, i))
    ensures Fits(BuildStep(w, conf, Steps(conf)[i], WidthAt(conf, i)), WidthAt(conf, i))
    ensures StepMeans(w, conf, i, cs,
      RunChunks(w, BuildStep(w, conf, Steps(conf)[i], WidthAt(conf, i)), cs, WidthAt(conf, i)))
  {
    BuildStepFits(w, conf, i);
    var step, width := Steps(conf)[i], WidthAt(conf, i);
    var built := BuildStep(w, conf, step, width);
    if step.bypassed == Some(true) {
      NoStepsNoChange(w, cs, width);
    } else {
      match step {
        case MixerStep(name, _) =>
          MixerMixes(w, name, conf.mixers.value[name], cs);
        case ProcessorStep(name, _) =>
          ProcessorProcesses(w, built[0].proc, cs, width);
        case FilterStep(_, names, _) =>
          FilterStepFilters(w, conf, i, cs);
      }
    }
  }

  lemma {:induction false} FilterStepFilters(w: C.World, conf: C.Configuration, i: nat, cs: seq<Chunk>)
    requires i < |Steps(conf)| && StepIsOkAt(w, conf, i) && StepBuildableAt(conf, i)
    requires Steps(conf)[i].FilterStep? && Steps(conf)[i].bypassed != Some(true) && AreWide(cs, WidthAt(conf, i))
    ensures Fits(BuildStep(w, conf, Steps(conf)[i], WidthAt(conf, i)), WidthAt(conf, i))
    ensures StepMeans(w, conf, i, cs,
      RunChunks(w, BuildStep(w, conf, Steps(conf)[i], WidthAt(conf, i)), cs, WidthAt(conf, i)))
  {
    var step, width := Steps(conf)[i], WidthAt(conf, i);
    var built := BuildStep(w, conf, step, width);
    var channels := Channels(step, width);
    assert forall c: nat :: c < width ==> (c in channels <==> OnChannel(step, c)) by { ListedChannels(step, width); }
    if channels == [] {
      assert built == [];
      NoStepsNoChange(w, cs, width);
    } else {
      var fs := NewFilters(w, conf, step.names);
      GroupsFilter(w, built, channels, fs, cs, width);
      forall c | 0 <= c < width {
        NewFiltersChain(w, conf, step.names, Column(cs, width, c));
      }
    }
  }

  /** A step without a list of channels is for all of them. */
  lemma ListedChannels(step: C.PipelineStep, width: nat)
    requires step.FilterStep?
    ensures forall c: nat :: c < width ==> (c in Channels(step, width) <==> OnChannel(step, c))
  {
    if step.channels.None? {
      forall c: nat | c < width ensures c in Channels(step, width) { assert Channels(step, width)[c] == c; }
    }
  }

  /** The stream behind the first n steps of the configuration, as the pipeline built from them gives it. */
  ghost function StreamAt(w: C.World, conf: C.Configuration, cs: seq<Chunk>, n: nat): (r: seq<Chunk>)
    requires Usable(w, conf) && n <= |Steps(conf)| && AreWide(cs, conf.devices.captureChannels)
    ensures AreWide(r, WidthAt(conf, n))
  {
    BuildStepsFit(w, conf, n);
    RunChunks(w, BuildSteps(w, conf, n), cs, conf.devices.captureChannels)
  }

  lemma {:induction false} FirstStream(w: C.World, conf: C.Configuration, cs: seq<Chunk>)
    requires Usable(w, conf) && AreWide(cs, conf.devices.captureChannels)
    ensures StreamAt(w, conf, cs, 0) == cs
  {
    NoStepsNoChange(w, cs, conf.devices.captureChannels);
  }

  lemma {:induction false} NextStream(w: C.World, conf: C.Configuration, cs: seq<Chunk>, n: nat)
    requires Usable(w, conf) && n < |Steps(conf)| && AreWide(cs, conf.devices.captureChannels)
    ensures StepLeads(w, conf, n, StreamAt(w, conf, cs, n), StreamAt(w, conf, cs, n + 1))
  {
    assert StepIsOkAt(w, conf, n) && StepBuildableAt(conf, n);
    BuildStepsFit(w, conf, n);
    BuildStepFits(w, conf, n);
    RunChunksAppend(w, BuildSteps(w, conf, n), BuildStep(w, conf, Steps(conf)[n], WidthAt(conf, n)), cs,
      conf.devices.captureChannels);
    BuiltStepMeans(w, conf, n, StreamAt(w, conf, cs, n));
  }

  ghost function Faders(inputs: seq<Input>): (r: seq<Fader>)
    ensures |r| == |inputs|
  {
    seq(|inputs|, k requires 0 <= k < |inputs| => inputs[k].fader)
  }

  /** Every sample of every chunk times the gain that the volume control has there. */
  ghost predicate Scaled(w: C.World, volume: VolumeState, inputs: seq<Input>, cs: seq<Chunk>)
    requires volume.chunksize > 0
  {
    |cs| == |inputs| &&
    forall k :: 0 <= k < |cs| ==> IsScaled(w.pow10, Run(volume, Faders(inputs)).1[k], inputs[k].chunk, cs[k])
  }

  /** A run of the live pipeline is a run of its steps on what the volume control makes of the chunks. */
  lemma {:induction false} VolumeThenSteps(w: C.World, p: Live, inputs: seq<Input>, width: nat) returns (cs: seq<Chunk>)
    requires Ready(p, width) && Width(inputs, width)
    ensures Scaled(w, p.volume, inputs, cs) && AreWide(cs, width)
    ensures RunAll(w, p, inputs, width).1 == RunChunks(w, p.steps, cs, width)
    decreases |inputs|
  {
    if inputs == [] {
      cs := [];
    } else {
      var (v, plan) := Advance(p.volume, inputs[0].fader);
      var c := ApplyToChunk(w.pow10, plan, inputs[0].chunk);
      PlanScales(w.pow10, plan, inputs[0].chunk);
      var rest := VolumeThenSteps(w, RunOne(w, p, inputs[0]).0, inputs[1..], width);
      cs := [c] + rest;
      OneMoreScaled(w, p.volume, inputs, c, rest);
      HeadAndTail(c, rest);
    }
  }

  lemma {:induction false} OneMoreScaled(w: C.World, volume: VolumeState, inputs: seq<Input>, c: Chunk,
                                rest: seq<Chunk>)
    requires inputs != [] && volume.chunksize > 0
    requires IsScaled(w.pow10, Advance(volume, inputs[0].fader).1, inputs[0].chunk, c)
    requires Scaled(w, Advance(volume, inputs[0].fader).0, inputs[1..], rest)
    ensures Scaled(w, volume, inputs, [c] + rest)
  {
    assert Faders(inputs)[1..] == Faders(inputs[1..]);
  }

  lemma {:induction false} OneMoreStream(w: C.World, conf: C.Configuration, streams: seq<seq<Chunk>>, n: nat,
                                ds: seq<Chunk>)
    requires n < |Steps(conf)| && MeansUpTo(w, conf, streams, n) && AreWide(ds, WidthAt(conf, n + 1))
    requires StepLeads(w, conf, n, streams[n], ds)
    ensures MeansUpTo(w, conf, streams + [ds], n + 1)
  {
  }

  lemma {:induction false} StreamsMean(w: C.World, conf: C.Configuration, cs: seq<Chunk>)
    returns (streams: seq<seq<Chunk>>)
    requires Usable(w, conf) && AreWide(cs, conf.devices.captureChannels)
    ensures Means(w, conf, streams)
    ensures streams[0] == cs && streams[|Steps(conf)|] == StreamAt(w, conf, cs, |Steps(conf)|)
  {
    FirstStream(w, conf, cs);
    streams := [cs];
    for n := 0 to |Steps(conf)|
      invariant MeansUpTo(w, conf, streams, n)
      invariant streams[0] == cs && streams[n] == StreamAt(w, conf, cs, n)
    {
      NextStream(w, conf, cs, n);
      OneMoreStream(w, conf, streams, n, StreamAt(w, conf, cs, n + 1));
      streams := streams + [StreamAt(w, conf, cs, n + 1)];
    }
  }

  /** Merged or not, the same comes out. */
  lemma {:induction false} FreshRunsLikeBuilt(w: C.World, conf: C.Configuration, volume: VolumeState,
                                inputs: seq<Input>)
    requires Usable(w, conf) && volume.chunksize > 0 && Width(inputs, conf.devices.captureChannels)
    ensures Ready(Live(Build(w, conf), volume), conf.devices.captureChannels)
    ensures Ready(Live(Fresh(w, conf), volume), conf.devices.captureChannels)
    ensures RunAll(w, Live(Fresh(w, conf), volume), inputs, conf.devices.captureChannels).1
         == RunAll(w, Live(Build(w, conf), volume), inputs, conf.devices.captureChannels).1
  {
    BuildStepsFit(w, conf, |Steps(conf)|);
    ParallelIsSequential(w, Live(Build(w, conf), volume), inputs, conf.devices.captureChannels);
  }

  /** For every accepted configuration that can be built and every run of chunks: what comes out of the pipeline, merged
      for parallel work or not, is what the steps of the configuration, one after the other, make of the chunks times
      the gain of the volume control. */
  lemma {:induction false} PipelineMeansItsConfiguration(
      w: C.World, conf: C.Configuration, volume: VolumeState, inputs: seq<Input>)
    returns (streams: seq<seq<Chunk>>)
    requires Usable(w, conf) && volume.chunksize > 0 && Width(inputs, conf.devices.captureChannels)
    ensures Means(w, conf, streams) && Scaled(w, volume, inputs, streams[0])
    ensures Ready(Live(Fresh(w, conf), volume), conf.devices.captureChannels)
    ensures RunAll(w, Live(Fresh(w, conf), volume), inputs, conf.devices.captureChannels).1 == streams[|Steps(conf)|]
  {
    FreshRunsLikeBuilt(w, conf, volume, inputs);
    var cs := VolumeThenSteps(w, Live(Build(w, conf), volume), inputs, conf.devices.captureChannels);
    streams := StreamsMean(w, conf, cs);
  }

  /** The meaning leaves nothing open: from the same stream, the same streams follow. */
  lemma {:induction false} MeaningIsUnique(w: C.World, conf: C.Configuration, a: seq<seq<Chunk>>, b: seq<seq<Chunk>>)
    requires Accepted(w, conf) && Buildable(conf) && Means(w, conf, a) && Means(w, conf, b) && a[0] == b[0]
    ensures a == b
  {
    for n := 0 to |Steps(conf)|
      invariant forall i :: 0 <= i <= n ==> a[i] == b[i]
    {
      StepMeansOneThing(w, conf, n, a[n], a[n + 1], b[n + 1]);
    }
  }

  lemma {:induction false} StepMeansOneThing(w: C.World, conf: C.Configuration, i: nat, cs: seq<Chunk>, ds: seq<Chunk>,
                                es: seq<Chunk>)
    requires i < |Steps(conf)| && StepIsOkAt(w, conf, i) && StepBuildableAt(conf, i) && AreWide(cs, WidthAt(conf, i))
    requires StepMeans(w, conf, i, cs, ds) && StepMeans(w, conf, i, cs, es)
    ensures ds == es
  {
    var step, width := Steps(conf)[i], WidthAt(conf, i);
    if step.bypassed != Some(true) && !step.ProcessorStep? {
      forall k | 0 <= k < |cs| ensures ds[k] == es[k] {
        forall c | 0 <= c < |ds[k].waveforms| ensures c < |es[k].waveforms| &&
          ds[k].waveforms[c] == es[k].waveforms[c] {
          if step.FilterStep? {
            assert Column(ds, width, c)[k] == Column(es, width, c)[k];
          }
        }
        assert ds[k].waveforms == es[k].waveforms;
      }
    }
  }

  /** The settings of everything that is built have passed the check, at the sample rate of the configuration. */
  ghost predicate Checked(w: C.World, conf: C.Configuration, step: Step) {
    match step
    case MixerStep(mix) => mix.Valid()
    case FilterGroup(_, fs) =>
      forall k :: 0 <= k < |fs| ==> w.filterIsValid(conf.devices.samplerate, fs[k].config)
    case ParallelFilters(bank) =>
      forall c, k :: 0 <= c < |bank| && 0 <= k < |bank[c]| ==>
        w.filterIsValid(conf.devices.samplerate, bank[c][k].config)
    case ProcessorStep(p) => w.processorIsValid(conf.devices.samplerate, p.config)
  }

  ghost predicate AllChecked(w: C.World, conf: C.Configuration, steps: seq<Step>) {
    forall i :: 0 <= i < |steps| ==> Checked(w, conf, steps[i])
  }

  lemma {:induction false} BuiltStepIsChecked(w: C.World, conf: C.Configuration, i: nat)
    requires i < |Steps(conf)| && StepIsOkAt(w, conf, i) && StepBuildableAt(conf, i)
    ensures AllChecked(w, conf, BuildStep(w, conf, Steps(conf)[i], WidthAt(conf, i)))
  {
    var step, width := Steps(conf)[i], WidthAt(conf, i);
    var built := BuildStep(w, conf, step, width);
    forall k | 0 <= k < |built| ensures Checked(w, conf, built[k]) {
      if built[k].FilterGroup? {
        BuiltGroup(w, conf, step, width, k);
        assert forall j :: 0 <= j < |step.names| ==> step.names[j] in step.names;
      } else if built[k].MixerStep? {
        CheckedMixerIsValid(w.pow10, step.name, conf.mixers.value[step.name]);
      }
    }
  }

  lemma {:induction false} BuiltIsChecked(w: C.World, conf: C.Configuration, n: nat)
    requires Usable(w, conf) && n <= |Steps(conf)|
    ensures AllChecked(w, conf, BuildSteps(w, conf, n))
  {
    for i := 0 to n
      invariant AllChecked(w, conf, BuildSteps(w, conf, i))
    {
      assert StepIsOkAt(w, conf, i) && StepBuildableAt(conf, i);
      BuiltStepIsChecked(w, conf, i);
    }
  }

  lemma {:induction false} MergedIsChecked(w: C.World, conf: C.Configuration, steps: seq<Step>, width: nat,
                                           pending: Option<Bank>)
    requires Fits(steps, width) && (pending.Some? ==> |pending.value| == width)
    requires AllChecked(w, conf, steps) && AllChecked(w, conf, Flush(pending))
    ensures AllChecked(w, conf, Merged(steps, width, pending))
    decreases |steps|
  {
    if steps != [] {
      if steps[0].FilterGroup? {
        var added := AddToBank(pending.GetOr(EmptyBank(width)), steps[0].channel, steps[0].filters);
        assert Checked(w, conf, steps[0]);
        assert pending.Some? ==> Checked(w, conf, Flush(pending)[0]);
        assert Checked(w, conf, ParallelFilters(added));
        MergedIsChecked(w, conf, steps[1..], width, Some(added));
      } else {
        MergedIsChecked(w, conf, steps[1..], StepWidth(steps[0], width), None);
      }
    }
  }

  /** Nothing runs that has not been checked: mixers, filters and processors of the pipeline that an accepted
      configuration gives have all passed the check of their settings. */
  lemma {:induction false} PipelineIsChecked(w: C.World, conf: C.Configuration)
    requires Usable(w, conf)
    ensures AllChecked(w, conf, Fresh(w, conf))
  {
    BuiltIsChecked(w, conf, |Steps(conf)|);
    BuildStepsFit(w, conf, |Steps(conf)|);
    MergedIsChecked(w, conf, Build(w, conf), conf.devices.captureChannels, None);
  }

  /** A processor gets the number of channels that its settings are for, whatever comes before it. */
  lemma ProcessorsMeetTheirWidth(w: C.World, conf: C.Configuration, streams: seq<seq<Chunk>>, i: nat, k: nat)
    requires Usable(w, conf) && Means(w, conf, streams) && i < |Steps(conf)| && k < |streams[i]|
    requires Steps(conf)[i].ProcessorStep? && Steps(conf)[i].bypassed != Some(true)
    ensures conf.processors.Some? && Steps(conf)[i].name in conf.processors.value
    ensures |streams[i][k].waveforms| == conf.processors.value[Steps(conf)[i].name].channels
  {
    assert StepIsOkAt(w, conf, i);
  }
}
