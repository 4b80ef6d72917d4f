/** Comparing configurations, and updating a running pipeline instead of rebuilding it. */
module Reconfigure {
  import opened Audio
  import opened VolumeControl
  import C = Config
  import opened Mixers
  import opened Validation
  import opened Pipelines
  import opened Parallel

  datatype ConfigChange =
    | FilterParameters(filters: seq<string>, mixers: seq<string>, processors: seq<string>)
    | MixerParameters
    | PipelineChange
    | DevicesChange
    | NoChange

  // ---------------------------------------------------------------------------------------------
  // Comparing
  // ---------------------------------------------------------------------------------------------

  /** Names that both sections have, with different settings. */
  function ChangedNames<T(==)>(current: Option<map<string, T>>, next: Option<map<string, T>>): set<string> {
    if current.None? || next.None? then {}
    else set n | n in next.value && n in current.value && next.value[n] != current.value[n]
  }

  ghost predicate Lists(names: seq<string>, all: set<string>) {
    forall n :: n in names <==> n in all
  }

  ghost predicate AFilterChangedKind(current: C.Configuration, next: C.Configuration) {
    current.filters.Some? && next.filters.Some? &&
    exists n :: n in next.filters.value && n in current.filters.value &&
      next.filters.value[n].kind != current.filters.value[n].kind
  }

  ghost predicate IsDiff(current: C.Configuration, next: C.Configuration, change: ConfigChange) {
    if current == next then change == NoChange
    else if current.devices != next.devices then change == DevicesChange
    else if current.pipeline != next.pipeline then change == PipelineChange
    else if current.mixers != next.mixers then change == MixerParameters
    else if AFilterChangedKind(current, next) then change == PipelineChange
    else
      change.FilterParameters? &&
      Lists(change.filters, ChangedNames(current.filters, next.filters)) &&
      Lists(change.mixers, ChangedNames(current.mixers, next.mixers)) &&
      Lists(change.processors, ChangedNames(current.processors, next.processors))
  }

  /** Walks through a section in no particular order. */
  method CollectChanged<T(==)>(current: Option<map<string, T>>, next: Option<map<string, T>>)
    returns (names: seq<string>)
    ensures forall n :: n in names <==>
      current.Some? && next.Some? && n in current.value && n in next.value && current.value[n] != next.value[n]
    ensures Lists(names, ChangedNames(current, next))
  {
    names := [];
    if current.Some? && next.Some? {
      var left := next.value.Keys;
      while left != {}
        invariant left <= next.value.Keys
        invariant Lists(names, ChangedNames(current, next) - left)
        decreases left
      {
        var n :| n in left;
        left := left - {n};
        if n in current.value && next.value[n] != current.value[n] {
          names := names + [n];
        }
      }
    }
  }

  method ConfigDiff(current: C.Configuration, next: C.Configuration) returns (change: ConfigChange)
    ensures IsDiff(current, next, change)
    ensures change.NoChange? <==> current == next
    ensures change.DevicesChange? <==> current.devices != next.devices
    ensures change.MixerParameters? <==>
      current.devices == next.devices && current.pipeline == next.pipeline && current.mixers != next.mixers
  {
    if current == next { return NoChange; }
    if current.devices != next.devices { return DevicesChange; }
    if current.pipeline != next.pipeline { return PipelineChange; }
    if current.mixers != next.mixers { return MixerParameters; }
    if current.filters.Some? && next.filters.Some? {
      var left := next.filters.value.Keys;
      while left != {}
        invariant left <= next.filters.value.Keys
        invariant forall n :: n in next.filters.value && n !in left && n in current.filters.value ==>
          next.filters.value[n].kind == current.filters.value[n].kind
        decreases left
      {
        var n :| n in left;
        if n in current.filters.value && next.filters.value[n].kind != current.filters.value[n].kind {
          return PipelineChange;
        }
        left := left - {n};
      }
    }
    var filters := CollectChanged(current.filters, next.filters);
    var mixers := CollectChanged(current.mixers, next.mixers);
    var processors := CollectChanged(current.processors, next.processors);
    change := FilterParameters(filters, mixers, processors);
  }

  lemma SomeMember(names: seq<string>) returns (name: string)
    ensures names == [] || name in names
  {
    name := if names == [] then "" else names[0];
  }

  /** A change of parameters never names a mixer: updating a mixer in place, which forgets the mutes, does not
      happen. */
  lemma ParameterChangeNamesNoMixer(current: C.Configuration, next: C.Configuration, change: ConfigChange)
    requires IsDiff(current, next, change) && change.FilterParameters?
    ensures change.mixers == []
  {
    var name := SomeMember(change.mixers);
    assert name !in ChangedNames(current.mixers, next.mixers);
  }

  // ---------------------------------------------------------------------------------------------
  // Updating in place
  // ---------------------------------------------------------------------------------------------

  function UpdatedFilter(w: C.World, f: Filter, conf: C.Configuration, changed: seq<string>): Filter {
    if f.name in changed && conf.filters.Some? && f.name in conf.filters.value then
      f.(config := conf.filters.value[f.name], state := w.retuneFilter(conf.filters.value[f.name], f.state))
    else f
  }

  function UpdatedFilters(w: C.World, fs: seq<Filter>, conf: C.Configuration, changed: seq<string>): seq<Filter> {
    seq(|fs|, i requires 0 <= i < |fs| => UpdatedFilter(w, fs[i], conf, changed))
  }

  function UpdatedStep(w: C.World, step: Step, conf: C.Configuration, change: ConfigChange): Step
    requires change.FilterParameters?
  {
    match step
    case MixerStep(mix) =>
      if mix.name in change.mixers && conf.mixers.Some? && mix.name in conf.mixers.value then
        MixerStep(Updated(w.pow10, mix, conf.mixers.value[mix.name]))
      else step
    case FilterGroup(ch, fs) => FilterGroup(ch, UpdatedFilters(w, fs, conf, change.filters))
    case ParallelFilters(fss) =>
      ParallelFilters(seq(|fss|, i requires 0 <= i < |fss| => UpdatedFilters(w, fss[i], conf, change.filters)))
    case ProcessorStep(p) =>
      if p.name in change.processors && conf.processors.Some? && p.name in conf.processors.value then
        var cfg := conf.processors.value[p.name];
        ProcessorStep(p.(config := cfg, state := w.retuneProcessor(cfg, p.state)))
      else step
  }

  function UpdatedSteps(w: C.World, steps: seq<Step>, conf: C.Configuration, change: ConfigChange): seq<Step>
    requires change.FilterParameters?
  {
    seq(|steps|, i requires 0 <= i < |steps| => UpdatedStep(w, steps[i], conf, change))
  }

  /** A filter finds its new settings, and they are for a filter of its own kind. */
  ghost predicate FilterUpdateIsSafe(f: Filter, conf: C.Configuration, changed: seq<string>) {
    f.name in changed ==>
      conf.filters.Some? && f.name in conf.filters.value && conf.filters.value[f.name].kind == f.config.kind
  }

  /** Updating the step unwraps no missing section, misses no name and hands no settings to the wrong kind. */
  ghost predicate UpdateIsSafe(step: Step, conf: C.Configuration, change: ConfigChange)
    requires change.FilterParameters?
  {
    match step
    case MixerStep(mix) => mix.name !in change.mixers
    case FilterGroup(_, fs) =>
      conf.filters.Some? && forall i :: 0 <= i < |fs| ==> FilterUpdateIsSafe(fs[i], conf, change.filters)
    case ParallelFilters(fss) =>
      conf.filters.Some? &&
      forall c, i :: 0 <= c < |fss| && 0 <= i < |fss[c]| ==> FilterUpdateIsSafe(fss[c][i], conf, change.filters)
    case ProcessorStep(p) =>
      p.name in change.processors ==>
        conf.processors.Some? && p.name in conf.processors.value && conf.processors.value[p.name].kind == p.config.kind
  }

  /** A listed filter is handed its new settings and goes on from the state that retuning makes of its own; any other
      is left alone. */
  ghost predicate FilterHandedOver(w: C.World, f: Filter, g: Filter, conf: C.Configuration, changed: seq<string>) {
    if f.name in changed then
      conf.filters.Some? && f.name in conf.filters.value && g.name == f.name &&
      g.config == conf.filters.value[f.name] && g.state == w.retuneFilter(g.config, f.state)
    else g == f
  }

  ghost predicate HandedOver(w: C.World, s: Step, t: Step, conf: C.Configuration, change: ConfigChange)
    requires change.FilterParameters?
  {
    match s
    case MixerStep(_) => t == s
    case FilterGroup(ch, fs) =>
      t.FilterGroup? && t.channel == ch && |t.filters| == |fs| &&
      forall i :: 0 <= i < |fs| ==> FilterHandedOver(w, fs[i], t.filters[i], conf, change.filters)
    case ParallelFilters(bank) =>
      t.ParallelFilters? && |t.perChannel| == |bank| &&
      forall c :: 0 <= c < |bank| ==>
        |t.perChannel[c]| == |bank[c]| &&
        forall i :: 0 <= i < |bank[c]| ==> FilterHandedOver(w, bank[c][i], t.perChannel[c][i], conf, change.filters)
    case ProcessorStep(p) =>
      if p.name in change.processors then
        conf.processors.Some? && p.name in conf.processors.value && t.ProcessorStep? && t.proc.name == p.name &&
        t.proc.config == conf.processors.value[p.name] && t.proc.state == w.retuneProcessor(t.proc.config, p.state)
      else t == s
  }

  lemma UpdateHandsOver(w: C.World, step: Step, conf: C.Configuration, change: ConfigChange)
    requires change.FilterParameters? && UpdateIsSafe(step, conf, change)
    ensures HandedOver(w, step, UpdatedStep(w, step, conf, change), conf, change)
  {
  }

  // ---------------------------------------------------------------------------------------------
  // A pipeline with all states put back to the beginning
  // ---------------------------------------------------------------------------------------------

  function ResetFilter(w: C.World, d: C.Devices, f: Filter): Filter { f.(state := w.newFilter(f.config, d)) }

  function ResetProcessor(w: C.World, d: C.Devices, p: Processor): Processor {
    p.(state := w.newProcessor(p.config, d))
  }

  /** Applies one function to every filter and another to every processor. */
  function MapFilters(f: Filter -> Filter, fs: seq<Filter>): seq<Filter> {
    seq(|fs|, i requires 0 <= i < |fs| => f(fs[i]))
  }

  function MapBank(f: Filter -> Filter, bank: Bank): (b: Bank)
    ensures |b| == |bank|
  {
    seq(|bank|, i requires 0 <= i < |bank| => MapFilters(f, bank[i]))
  }

  function MapStep(f: Filter -> Filter, g: Processor -> Processor, step: Step): Step {
    match step
    case MixerStep(_) => step
    case FilterGroup(ch, fs) => FilterGroup(ch, MapFilters(f, fs))
    case ParallelFilters(bank) => ParallelFilters(MapBank(f, bank))
    case ProcessorStep(p) => ProcessorStep(g(p))
  }

  function MapSteps(f: Filter -> Filter, g: Processor -> Processor, steps: seq<Step>): seq<Step> {
    seq(|steps|, i requires 0 <= i < |steps| => MapStep(f, g, steps[i]))
  }

  /** What is left of a pipeline when the states are forgotten: structure, names and settings. */
  function Reset(w: C.World, d: C.Devices, steps: seq<Step>): seq<Step> {
    MapSteps(f => ResetFilter(w, d, f), p => ResetProcessor(w, d, p), steps)
  }

  lemma {:induction false} MapFits(f: Filter -> Filter, g: Processor -> Processor, steps: seq<Step>, width: nat)
    ensures Fits(MapSteps(f, g, steps), width) <==> Fits(steps, width)
    decreases |steps|
  {
    if steps != [] {
      assert MapSteps(f, g, steps)[1..] == MapSteps(f, g, steps[1..]);
      MapFits(f, g, steps[1..], StepWidth(steps[0], width));
    }
  }

  lemma MapAppend(f: Filter -> Filter, g: Processor -> Processor, a: seq<Step>, b: seq<Step>)
    ensures MapSteps(f, g, a + b) == MapSteps(f, g, a) + MapSteps(f, g, b)
  {
  }

  function MapPending(f: Filter -> Filter, pending: Option<Bank>): Option<Bank> {
    match pending
    case None => None
    case Some(b) => Some(MapBank(f, b))
  }

  lemma EmptyMaps(f: Filter -> Filter, width: nat)
    ensures MapBank(f, EmptyBank(width)) == EmptyBank(width)
  {
    assert MapFilters(f, []) == [];
  }

  lemma AddedMaps(f: Filter -> Filter, bank: Bank, ch: nat, fs: seq<Filter>)
    requires ch < |bank|
    ensures MapBank(f, AddToBank(bank, ch, fs)) == AddToBank(MapBank(f, bank), ch, MapFilters(f, fs))
  {
    assert MapFilters(f, bank[ch] + fs) == MapFilters(f, bank[ch]) + MapFilters(f, fs);
  }

  lemma FlushMaps(f: Filter -> Filter, g: Processor -> Processor, pending: Option<Bank>)
    ensures Flush(MapPending(f, pending)) == MapSteps(f, g, Flush(pending))
  {
  }

  lemma FlushedMaps(f: Filter -> Filter, g: Processor -> Processor, pending: Option<Bank>, s: Step, rest: seq<Step>)
    ensures MapSteps(f, g, Flush(pending) + [s] + rest) ==
            Flush(MapPending(f, pending)) + MapSteps(f, g, [s]) + MapSteps(f, g, rest)
  {
    FlushMaps(f, g, pending);
    MapAppend(f, g, Flush(pending) + [s], rest);
    MapAppend(f, g, Flush(pending), [s]);
  }

  /** Merging only moves filters around: it commutes with anything done to each filter by itself. */
  lemma {:induction false} MergedMaps(
      f: Filter -> Filter, g: Processor -> Processor, steps: seq<Step>, width: nat, pending: Option<Bank>)
    requires Fits(steps, width) && (pending.Some? ==> |pending.value| == width)
    ensures Fits(MapSteps(f, g, steps), width)
    ensures Merged(MapSteps(f, g, steps), width, MapPending(f, pending)) ==
      MapSteps(f, g, Merged(steps, width, pending))
    decreases |steps|
  {
    MapFits(f, g, steps, width);
    var mapped := MapSteps(f, g, steps);
    if steps != [] {
      assert mapped[1..] == MapSteps(f, g, steps[1..]);
      if steps[0].FilterGroup? {
        var bank := pending.GetOr(EmptyBank(width));
        MergedMaps(f, g, steps[1..], width, Some(AddToBank(bank, steps[0].channel, steps[0].filters)));
        AddedMaps(f, bank, steps[0].channel, steps[0].filters);
        EmptyMaps(f, width);
      } else {
        MergedMaps(f, g, steps[1..], StepWidth(steps[0], width), None);
        FlushedMaps(f, g, pending, steps[0], Merged(steps[1..], StepWidth(steps[0], width), None));
      }
    } else {
      FlushMaps(f, g, pending);
    }
  }

  // ---------------------------------------------------------------------------------------------
  // A freshly built pipeline
  // ---------------------------------------------------------------------------------------------

  ghost predicate Usable(w: C.World, conf: C.Configuration) {
    Accepted(w, conf) && Buildable(conf)
  }

  /** What building gives, merged when parallel work is asked for. */
  function Fresh(w: C.World, conf: C.Configuration): seq<Step>
    requires Usable(w, conf)
  {
    BuildStepsFit(w, conf, |Steps(conf)|);
    if conf.devices.multithreaded then Merged(Build(w, conf), conf.devices.captureChannels, None) else Build(w, conf)
  }

  lemma FreshFits(w: C.World, conf: C.Configuration)
    requires Usable(w, conf)
    ensures Fits(Fresh(w, conf), conf.devices.captureChannels)
    ensures OutWidth(Fresh(w, conf), conf.devices.captureChannels) == conf.devices.playbackChannels
  {
    BuildStepsFit(w, conf, |Steps(conf)|);
    MergedFits(Build(w, conf), conf.devices.captureChannels, None);
  }

  ghost predicate FilterIsFrom(conf: C.Configuration, f: Filter) {
    conf.filters.Some? && f.name in conf.filters.value && f.config == conf.filters.value[f.name]
  }

  /** The settings in the step are the ones the configuration has under the same names. */
  ghost predicate StepIsFrom(conf: C.Configuration, step: Step) {
    match step
    case MixerStep(_) => true
    case FilterGroup(_, fs) => conf.filters.Some? && forall i :: 0 <= i < |fs| ==> FilterIsFrom(conf, fs[i])
    case ParallelFilters(fss) =>
      conf.filters.Some? && forall c, i :: 0 <= c < |fss| && 0 <= i < |fss[c]| ==> FilterIsFrom(conf, fss[c][i])
    case ProcessorStep(p) =>
      conf.processors.Some? && p.name in conf.processors.value && p.config == conf.processors.value[p.name] &&
      IsActiveProcessor(conf, p.name)
  }

  ghost predicate IsActiveProcessor(conf: C.Configuration, name: string) {
    exists i :: 0 <= i < |Steps(conf)| && Steps(conf)[i].ProcessorStep? && !Steps(conf)[i].IsBypassed() &&
      Steps(conf)[i].name == name
  }

  ghost predicate AllFrom(conf: C.Configuration, steps: seq<Step>) {
    forall i :: 0 <= i < |steps| ==> StepIsFrom(conf, steps[i])
  }

  lemma {:induction false} BuiltIsFrom(w: C.World, conf: C.Configuration, n: nat)
    requires Buildable(conf) && n <= |Steps(conf)|
    ensures AllFrom(conf, BuildSteps(w, conf, n))
  {
    if n > 0 {
      assert StepBuildableAt(conf, n - 1);
      BuiltIsFrom(w, conf, n - 1);
      var step := Steps(conf)[n - 1];
      var built := BuildStep(w, conf, step, WidthAt(conf, n - 1));
      forall i | 0 <= i < |built| ensures StepIsFrom(conf, built[i]) {
        if built[i].FilterGroup? {
          BuiltGroup(w, conf, step, WidthAt(conf, n - 1), i);
        }
      }
    }
  }

  lemma {:induction false} MergedIsFrom(conf: C.Configuration, steps: seq<Step>, width: nat, pending: Option<Bank>)
    requires Fits(steps, width) && (pending.Some? ==> |pending.value| == width)
    requires AllFrom(conf, steps) && AllFrom(conf, Flush(pending))
    ensures AllFrom(conf, Merged(steps, width, pending))
    decreases |steps|
  {
    if steps != [] {
      if steps[0].FilterGroup? {
        var added := AddToBank(pending.GetOr(EmptyBank(width)), steps[0].channel, steps[0].filters);
        assert StepIsFrom(conf, steps[0]);
        assert pending.Some? ==> StepIsFrom(conf, Flush(pending)[0]);
        assert StepIsFrom(conf, ParallelFilters(added));
        MergedIsFrom(conf, steps[1..], width, Some(added));
      } else {
        MergedIsFrom(conf, steps[1..], StepWidth(steps[0], width), None);
      }
    }
  }

  lemma FreshIsFrom(w: C.World, conf: C.Configuration)
    requires Usable(w, conf)
    ensures AllFrom(conf, Fresh(w, conf))
  {
    BuiltIsFrom(w, conf, |Steps(conf)|);
    BuildStepsFit(w, conf, |Steps(conf)|);
    MergedIsFrom(conf, Build(w, conf), conf.devices.captureChannels, None);
  }

  lemma ResetOfFresh(w: C.World, conf: C.Configuration)
    requires Usable(w, conf)
    ensures Reset(w, conf.devices, Fresh(w, conf)) == Fresh(w, conf)
  {
    var d := conf.devices;
    BuildStepsFit(w, conf, |Steps(conf)|);
    ResetOfBuilt(w, conf, |Steps(conf)|);
    MergedMaps(f => ResetFilter(w, d, f), p => ResetProcessor(w, d, p), Build(w, conf), d.captureChannels, None);
  }

  lemma {:induction false} ResetOfBuilt(w: C.World, conf: C.Configuration, n: nat)
    requires Buildable(conf) && n <= |Steps(conf)|
    ensures Reset(w, conf.devices, BuildSteps(w, conf, n)) == BuildSteps(w, conf, n)
  {
    if n > 0 {
      assert StepBuildableAt(conf, n - 1);
      ResetOfBuilt(w, conf, n - 1);
      var built := BuildStep(w, conf, Steps(conf)[n - 1], WidthAt(conf, n - 1));
      forall i | 0 <= i < |built| ensures Reset(w, conf.devices, built)[i] == built[i] {
        if built[i].FilterGroup? {
          BuiltGroup(w, conf, Steps(conf)[n - 1], WidthAt(conf, n - 1), i);
          assert Reset(w, conf.devices, built)[i].filters == built[i].filters;
        }
      }
      assert Reset(w, conf.devices, built) == built;
      MapAppend(f => ResetFilter(w, conf.devices, f), p => ResetProcessor(w, conf.devices, p),
                BuildSteps(w, conf, n - 1), built);
    }
  }

  // ---------------------------------------------------------------------------------------------
  // Updating gives what a rebuild gives
  // ---------------------------------------------------------------------------------------------

  function RetargetedFilter(w: C.World, next: C.Configuration, f: Filter): Filter {
    if next.filters.Some? && f.name in next.filters.value then NewFilter(w, next, f.name) else f
  }

  function RetargetedProcessor(w: C.World, next: C.Configuration, p: Processor): Processor {
    if next.processors.Some? && p.name in next.processors.value then
      var cfg := next.processors.value[p.name];
      Processor(p.name, cfg, w.newProcessor(cfg, next.devices))
    else p
  }

  /** The same pipeline with the settings of another configuration. */
  function Retargeted(w: C.World, next: C.Configuration, steps: seq<Step>): seq<Step> {
    MapSteps(f => RetargetedFilter(w, next, f), p => RetargetedProcessor(w, next, p), steps)
  }

  ghost predicate SameLayout(current: C.Configuration, next: C.Configuration) {
    current.devices == next.devices && current.pipeline == next.pipeline && current.mixers == next.mixers
  }

  lemma {:induction false} SameWidths(current: C.Configuration, next: C.Configuration, n: nat)
    requires SameLayout(current, next) && n <= |Steps(current)|
    ensures WidthAt(current, n) == WidthAt(next, n)
  {
    if n > 0 { SameWidths(current, next, n - 1); }
  }

  lemma {:induction false} BuildIsRetargeted(w: C.World, current: C.Configuration, next: C.Configuration, n: nat)
    requires Buildable(current) && Buildable(next) && SameLayout(current, next) && n <= |Steps(current)|
    ensures BuildSteps(w, next, n) == Retargeted(w, next, BuildSteps(w, current, n))
  {
    if n > 0 {
      BuildIsRetargeted(w, current, next, n - 1);
      SameWidths(current, next, n - 1);
      assert StepBuildableAt(current, n - 1) && StepBuildableAt(next, n - 1);
      var step, width := Steps(current)[n - 1], WidthAt(current, n - 1);
      var a, b := BuildStep(w, current, step, width), BuildStep(w, next, step, width);
      assert |a| == |b|;
      forall i | 0 <= i < |b| ensures b[i] == Retargeted(w, next, a)[i] {
        if b[i].FilterGroup? {
          BuiltGroup(w, next, step, width, i);
          BuiltGroup(w, current, step, width, i);
          assert b[i].filters == Retargeted(w, next, a)[i].filters;
        }
      }
      assert b == Retargeted(w, next, a);
      MapAppend(f => RetargetedFilter(w, next, f), p => RetargetedProcessor(w, next, p),
                BuildSteps(w, current, n - 1), a);
    }
  }

  lemma FreshIsRetargeted(w: C.World, current: C.Configuration, next: C.Configuration)
    requires Usable(w, current) && Usable(w, next) && SameLayout(current, next)
    ensures Fresh(w, next) == Retargeted(w, next, Fresh(w, current))
  {
    BuildStepsFit(w, current, |Steps(current)|);
    BuildIsRetargeted(w, current, next, |Steps(current)|);
    MergedMaps(f => RetargetedFilter(w, next, f), p => RetargetedProcessor(w, next, p), Build(w, current),
               current.devices.captureChannels, None);
  }

  /** Every active processor is of the same kind in both configurations. The comparison does not check this. */
  ghost predicate KeepsProcessorKinds(current: C.Configuration, next: C.Configuration) {
    current.processors.Some? && next.processors.Some? ==>
      forall n :: n in current.processors.value && n in next.processors.value && IsActiveProcessor(current, n) ==>
        current.processors.value[n].kind == next.processors.value[n].kind
  }

  lemma FilterUpdateIsRetarget(
      w: C.World, current: C.Configuration, next: C.Configuration, change: ConfigChange, f: Filter)
    requires IsDiff(current, next, change) && change.FilterParameters?
    requires FilterIsFrom(current, f) && next.filters.Some? && f.name in next.filters.value
    ensures FilterUpdateIsSafe(f, next, change.filters)
    ensures ResetFilter(w, next.devices, UpdatedFilter(w, f, next, change.filters))
         == RetargetedFilter(w, next, ResetFilter(w, current.devices, f))
  {
    assert f.name in change.filters <==> f.name in ChangedNames(current.filters, next.filters);
  }

  lemma ProcessorUpdateIsRetarget(
      w: C.World, current: C.Configuration, next: C.Configuration, change: ConfigChange, p: Processor)
    requires IsDiff(current, next, change) && change.FilterParameters? && KeepsProcessorKinds(current, next)
    requires StepIsFrom(current, ProcessorStep(p)) && next.processors.Some? && p.name in next.processors.value
    ensures UpdateIsSafe(ProcessorStep(p), next, change)
    ensures ResetProcessor(w, next.devices, UpdatedStep(w, ProcessorStep(p), next, change).proc)
         == RetargetedProcessor(w, next, ResetProcessor(w, current.devices, p))
  {
    assert p.name in change.processors <==> p.name in ChangedNames(current.processors, next.processors);
  }

  /** The names a step uses also exist in the other configuration. */
  ghost predicate NamesKnown(next: C.Configuration, step: Step) {
    match step
    case MixerStep(_) => true
    case FilterGroup(_, fs) => next.filters.Some? && forall i :: 0 <= i < |fs| ==> fs[i].name in next.filters.value
    case ParallelFilters(fss) =>
      next.filters.Some? && forall c, i :: 0 <= c < |fss| && 0 <= i < |fss[c]| ==> fss[c][i].name in next.filters.value
    case ProcessorStep(p) => next.processors.Some? && p.name in next.processors.value
  }

  lemma StepUpdateIsRetarget(
      w: C.World, current: C.Configuration, next: C.Configuration, change: ConfigChange, step: Step)
    requires IsDiff(current, next, change) && change.FilterParameters? && KeepsProcessorKinds(current, next)
    requires StepIsFrom(current, step) && NamesKnown(next, step)
    ensures UpdateIsSafe(step, next, change)
    ensures Reset(w, next.devices, [UpdatedStep(w, step, next, change)])[0]
         == Retargeted(w, next, Reset(w, current.devices, [step]))[0]
  {
    ParameterChangeNamesNoMixer(current, next, change);
    var a := Reset(w, next.devices, [UpdatedStep(w, step, next, change)])[0];
    var b := Retargeted(w, next, Reset(w, current.devices, [step]))[0];
    match step {
      case MixerStep(_) =>
      case FilterGroup(_, fs) =>
        forall i | 0 <= i < |fs|
          ensures FilterUpdateIsSafe(fs[i], next, change.filters) && a.filters[i] == b.filters[i]
        {
          FilterUpdateIsRetarget(w, current, next, change, fs[i]);
        }
        assert a.filters == b.filters;
      case ParallelFilters(fss) =>
        forall c | 0 <= c < |fss|
          ensures forall i :: 0 <= i < |fss[c]| ==> FilterUpdateIsSafe(fss[c][i], next, change.filters)
          ensures a.perChannel[c] == b.perChannel[c]
        {
          forall i | 0 <= i < |fss[c]|
            ensures FilterUpdateIsSafe(fss[c][i], next, change.filters) && a.perChannel[c][i] == b.perChannel[c][i]
          {
            FilterUpdateIsRetarget(w, current, next, change, fss[c][i]);
          }
        }
        assert a.perChannel == b.perChannel;
      case ProcessorStep(p) =>
        ProcessorUpdateIsRetarget(w, current, next, change, p);
    }
  }

  /** Where a live pipeline came from does not depend on the states it is in. */
  lemma FromIgnoresStates(w: C.World, d: C.Devices, conf: C.Configuration, steps: seq<Step>, i: nat)
    requires i < |steps|
    ensures StepIsFrom(conf, Reset(w, d, steps)[i]) <==> StepIsFrom(conf, steps[i])
    ensures NamesKnown(conf, Reset(w, d, steps)[i]) <==> NamesKnown(conf, steps[i])
  {
    var r := Reset(w, d, steps)[i];
    match steps[i] {
      case MixerStep(_) =>
      case FilterGroup(_, fs) =>
        assert forall k :: 0 <= k < |fs| ==> FilterIsFrom(conf, r.filters[k]) == FilterIsFrom(conf, fs[k]);
      case ParallelFilters(fss) =>
        assert forall c, k :: 0 <= c < |fss| && 0 <= k < |fss[c]| ==>
          FilterIsFrom(conf, r.perChannel[c][k]) == FilterIsFrom(conf, fss[c][k]) &&
            r.perChannel[c][k].name == fss[c][k].name;
      case ProcessorStep(_) =>
    }
  }

  lemma BuiltNamesAreKnown(w: C.World, current: C.Configuration, next: C.Configuration, i: nat)
    requires Usable(w, current) && Usable(w, next) && SameLayout(current, next)
    requires i < |Fresh(w, current)|
    ensures NamesKnown(next, Fresh(w, current)[i])
  {
    FreshIsRetargeted(w, current, next);
    FreshIsFrom(w, next);
    var a, b := Fresh(w, current)[i], Fresh(w, next)[i];
    assert StepIsFrom(next, b);
    match a {
      case MixerStep(_) =>
      case FilterGroup(_, fs) =>
        forall k | 0 <= k < |fs| ensures fs[k].name in next.filters.value {
          assert FilterIsFrom(next, b.filters[k]) && b.filters[k].name == fs[k].name;
        }
      case ParallelFilters(fss) =>
        forall c, k | 0 <= c < |fss| && 0 <= k < |fss[c]| ensures fss[c][k].name in next.filters.value {
          assert FilterIsFrom(next, b.perChannel[c][k]) && b.perChannel[c][k].name == fss[c][k].name;
        }
      case ProcessorStep(_) =>
    }
  }

  /** A live pipeline that, apart from its states, is the one built from the current configuration: updating it in
      place is safe and turns it, apart from its states, into the one built from the next configuration. */
  lemma UpdateIsRebuild(
      w: C.World, current: C.Configuration, next: C.Configuration, change: ConfigChange, live: seq<Step>)
    requires Usable(w, current) && Usable(w, next)
    requires IsDiff(current, next, change) && change.FilterParameters? && KeepsProcessorKinds(current, next)
    requires Reset(w, current.devices, live) == Fresh(w, current)
    ensures forall i :: 0 <= i < |live| ==> UpdateIsSafe(live[i], next, change)
    ensures Reset(w, next.devices, UpdatedSteps(w, live, next, change)) == Fresh(w, next)
  {
    FreshIsRetargeted(w, current, next);
    var updated := Reset(w, next.devices, UpdatedSteps(w, live, next, change));
    FreshIsFrom(w, current);
    forall i | 0 <= i < |live|
      ensures UpdateIsSafe(live[i], next, change) && updated[i] == Retargeted(w, next, Fresh(w, current))[i]
    {
      assert StepIsFrom(current, Fresh(w, current)[i]);
      BuiltNamesAreKnown(w, current, next, i);
      FromIgnoresStates(w, current.devices, current, live, i);
      FromIgnoresStates(w, current.devices, next, live, i);
      StepUpdateIsRetarget(w, current, next, change, live[i]);
    }
    assert updated == Fresh(w, next);
  }

  /** Running chunks changes nothing but the states. */
  lemma {:induction false} RunningKeepsSettings(w: C.World, d: C.Devices, steps: seq<Step>, c: Chunk)
    requires Fits(steps, |c.waveforms|)
    ensures Reset(w, d, RunSteps(w, steps, c).0) == Reset(w, d, steps)
    decreases |steps|
  {
    if steps != [] {
      var (s, e) := RunStep(w, steps[0], c);
      var rest := RunSteps(w, steps[1..], e).0;
      var all := RunSteps(w, steps, c).0;
      assert all == [s] + rest;
      RunningKeepsSettings(w, d, steps[1..], e);
      StepKeepsSettings(w, d, steps[0], c);
      var a, b := Reset(w, d, all), Reset(w, d, steps);
      forall i | 0 <= i < |all| ensures a[i] == b[i] {
        if i == 0 {
          assert a[0] == Reset(w, d, [s])[0] && b[0] == Reset(w, d, [steps[0]])[0];
        } else {
          assert a[i] == Reset(w, d, rest)[i - 1] && b[i] == Reset(w, d, steps[1..])[i - 1];
        }
      }
    }
  }

  lemma {:induction false} FiltersKeepSettings(w: C.World, d: C.Devices, fs: seq<Filter>, x: Waveform)
    ensures forall i :: 0 <= i < |fs| ==>
      ResetFilter(w, d, RunFilters(w, fs, x).0[i]) == ResetFilter(w, d, fs[i])
  {
    if fs != [] {
      FiltersKeepSettings(w, d, fs[..|fs| - 1], x);
      var gs := RunFilters(w, fs, x).0;
      forall i | 0 <= i < |fs| ensures ResetFilter(w, d, gs[i]) == ResetFilter(w, d, fs[i]) {
        if i < |fs| - 1 { assert fs[..|fs| - 1][i] == fs[i]; }
      }
    }
  }

  lemma StepKeepsSettings(w: C.World, d: C.Devices, step: Step, c: Chunk)
    requires StepFits(step, |c.waveforms|)
    ensures Reset(w, d, [RunStep(w, step, c).0])[0] == Reset(w, d, [step])[0]
  {
    var a, b := Reset(w, d, [RunStep(w, step, c).0])[0], Reset(w, d, [step])[0];
    match step {
      case MixerStep(_) =>
      case FilterGroup(ch, fs) =>
        FiltersKeepSettings(w, d, fs, c.waveforms[ch]);
        assert a.filters == b.filters;
      case ParallelFilters(fss) =>
        forall i | 0 <= i < |fss| ensures a.perChannel[i] == b.perChannel[i] {
          if i < |c.waveforms| { FiltersKeepSettings(w, d, fss[i], c.waveforms[i]); }
        }
        assert a.perChannel == b.perChannel;
      case ProcessorStep(_) =>
    }
  }

  // ---------------------------------------------------------------------------------------------
  // What the comparison misses
  // ---------------------------------------------------------------------------------------------

  /** One active processor of the given kind. */
  function OneProcessor(kind: C.ProcessorKind, parameters: C.Parameters): C.Configuration {
    C.Configuration(None, C.Devices(1, 1, 1, 1, false, parameters), None, None,
      Some(map["p" := C.ProcessorConfig(kind, 1, parameters)]), Some([C.ProcessorStep("p", None)]))
  }

  /** Replacing a compressor by a noise gate of the same name counts as a mere change of parameters, and the update
      then hands the noise gate's settings to the compressor. */
  lemma KindChangeIsMissed(w: C.World, parameters: C.Parameters, change: ConfigChange)
    requires IsDiff(OneProcessor(C.Compressor, parameters), OneProcessor(C.NoiseGate, parameters), change)
    ensures Buildable(OneProcessor(C.Compressor, parameters)) && change.FilterParameters?
    ensures !forall i :: 0 <= i < |Build(w, OneProcessor(C.Compressor, parameters))| ==>
              UpdateIsSafe(Build(w, OneProcessor(C.Compressor, parameters))[i], OneProcessor(C.NoiseGate, parameters),
                change)
  {
    var a, b := OneProcessor(C.Compressor, parameters), OneProcessor(C.NoiseGate, parameters);
    assert a.processors.value["p"].kind != b.processors.value["p"].kind;
    assert "p" in ChangedNames(a.processors, b.processors);
    assert StepBuildableAt(a, 0);
    var built := Build(w, a);
    assert built == BuildSteps(w, a, 0) + BuildStep(w, a, Steps(a)[0], WidthAt(a, 0));
    assert built[0].ProcessorStep? && built[0].proc.name == "p";
    assert !UpdateIsSafe(built[0], b, change);
  }

  /** For a next configuration that can be built: an update is safe on a pipeline built from the current one if and only
      if no active processor changed its kind. */
  lemma UpdateIsSafeIffKindsKept(w: C.World, current: C.Configuration, next: C.Configuration, change: ConfigChange)
    requires Usable(w, current) && Usable(w, next)
    requires IsDiff(current, next, change) && change.FilterParameters?
    ensures (forall i :: 0 <= i < |Fresh(w, current)| ==> UpdateIsSafe(Fresh(w, current)[i], next, change))
            <==> KeepsProcessorKinds(current, next)
  {
    var live := Fresh(w, current);
    if KeepsProcessorKinds(current, next) {
      ResetOfFresh(w, current);
      UpdateIsRebuild(w, current, next, change, live);
    } else {
      var n :| n in current.processors.value && n in next.processors.value && IsActiveProcessor(current, n) &&
        current.processors.value[n].kind != next.processors.value[n].kind;
      var i := FreshHasProcessor(w, current, n);
      assert n in ChangedNames(current.processors, next.processors);
      assert !UpdateIsSafe(live[i], next, change);
    }
  }

  lemma {:induction false} MergedKeepsProcessors(steps: seq<Step>, width: nat, pending: Option<Bank>, i: nat)
    returns (j: nat)
    requires Fits(steps, width) && (pending.Some? ==> |pending.value| == width)
    requires i < |steps| && steps[i].ProcessorStep?
    ensures j < |Merged(steps, width, pending)| && Merged(steps, width, pending)[j] == steps[i]
    decreases |steps|
  {
    if steps[0].FilterGroup? {
      var added := AddToBank(pending.GetOr(EmptyBank(width)), steps[0].channel, steps[0].filters);
      j := MergedKeepsProcessors(steps[1..], width, Some(added), i - 1);
    } else if i == 0 {
      j := |Flush(pending)|;
    } else {
      j := MergedKeepsProcessors(steps[1..], StepWidth(steps[0], width), None, i - 1);
      j := |Flush(pending)| + 1 + j;
    }
  }

  lemma {:induction false} BuiltHasProcessor(w: C.World, conf: C.Configuration, i: nat, n: nat) returns (j: nat)
    requires Buildable(conf) && i < n <= |Steps(conf)|
    requires Steps(conf)[i].ProcessorStep? && !Steps(conf)[i].IsBypassed()
    ensures j < |BuildSteps(w, conf, n)| && BuildSteps(w, conf, n)[j].ProcessorStep?
    ensures BuildSteps(w, conf, n)[j].proc.name == Steps(conf)[i].name
    ensures conf.processors.Some? && Steps(conf)[i].name in conf.processors.value
    ensures BuildSteps(w, conf, n)[j].proc.config == conf.processors.value[Steps(conf)[i].name]
  {
    assert StepBuildableAt(conf, n - 1);
    if i == n - 1 {
      j := |BuildSteps(w, conf, i)|;
    } else {
      j := BuiltHasProcessor(w, conf, i, n - 1);
    }
  }

  lemma FreshHasProcessor(w: C.World, conf: C.Configuration, name: string) returns (j: nat)
    requires Usable(w, conf) && IsActiveProcessor(conf, name) && conf.processors.Some? && name in conf.processors.value
    ensures j < |Fresh(w, conf)| && Fresh(w, conf)[j].ProcessorStep? && Fresh(w, conf)[j].proc.name == name
    ensures Fresh(w, conf)[j].proc.config == conf.processors.value[name]
  {
    var i :| 0 <= i < |Steps(conf)| && Steps(conf)[i].ProcessorStep? && !Steps(conf)[i].IsBypassed() &&
      Steps(conf)[i].name == name;
    j := BuiltHasProcessor(w, conf, i, |Steps(conf)|);
    if conf.devices.multithreaded {
      BuildStepsFit(w, conf, |Steps(conf)|);
      j := MergedKeepsProcessors(Build(w, conf), conf.devices.captureChannels, None, j);
    }
  }

  lemma {:induction false} BuiltHasGroup(w: C.World, conf: C.Configuration, i: nat, n: nat) returns (j: nat)
    requires Buildable(conf) && i < n <= |Steps(conf)| && BuildsFilters(conf, i)
    ensures j < |BuildSteps(w, conf, n)| && BuildSteps(w, conf, n)[j].FilterGroup?
  {
    assert StepBuildableAt(conf, n - 1);
    if i == n - 1 {
      j := |BuildSteps(w, conf, i)|;
    } else {
      j := BuiltHasGroup(w, conf, i, n - 1);
    }
  }

  lemma {:induction false} MergedHasBank(steps: seq<Step>, width: nat, pending: Option<Bank>, i: nat) returns (j: nat)
    requires Fits(steps, width) && (pending.Some? ==> |pending.value| == width)
    requires pending.Some? || (i < |steps| && steps[i].FilterGroup?)
    ensures j < |Merged(steps, width, pending)| && Merged(steps, width, pending)[j].ParallelFilters?
    decreases |steps|
  {
    if steps == [] {
      j := 0;
    } else if steps[0].FilterGroup? {
      var added := AddToBank(pending.GetOr(EmptyBank(width)), steps[0].channel, steps[0].filters);
      j := MergedHasBank(steps[1..], width, Some(added), 0);
    } else if pending.Some? {
      j := 0;
    } else {
      j := MergedHasBank(steps[1..], StepWidth(steps[0], width), None, i - 1);
      j := 1 + j;
    }
  }

  lemma FreshHasFilters(w: C.World, conf: C.Configuration, i: nat) returns (j: nat)
    requires Usable(w, conf) && i < |Steps(conf)| && BuildsFilters(conf, i)
    ensures j < |Fresh(w, conf)| && (Fresh(w, conf)[j].FilterGroup? || Fresh(w, conf)[j].ParallelFilters?)
  {
    j := BuiltHasGroup(w, conf, i, |Steps(conf)|);
    if conf.devices.multithreaded {
      BuildStepsFit(w, conf, |Steps(conf)|);
      j := MergedHasBank(Build(w, conf), conf.devices.captureChannels, None, j);
    }
  }

  /** All that is known before an update is that the next configuration was accepted. Then updating is safe if and only
      if no active processor changed its kind and no active filter step has lost the filters section. */
  lemma UpdateIsSafeIff(w: C.World, current: C.Configuration, next: C.Configuration, change: ConfigChange)
    requires Usable(w, current) && Accepted(w, next)
    requires IsDiff(current, next, change) && change.FilterParameters?
    ensures (forall i :: 0 <= i < |Fresh(w, current)| ==> UpdateIsSafe(Fresh(w, current)[i], next, change))
            <==> KeepsProcessorKinds(current, next) && !UnwrapsMissingFilters(next)
  {
    AcceptedBuildsIff(w, next);
    if UnwrapsMissingFilters(next) {
      var i :| 0 <= i < |Steps(next)| && BuildsFilters(next, i);
      SameWidths(current, next, i);
      var j := FreshHasFilters(w, current, i);
      assert !UpdateIsSafe(Fresh(w, current)[j], next, change);
    } else {
      UpdateIsSafeIffKindsKept(w, current, next, change);
    }
  }
}
