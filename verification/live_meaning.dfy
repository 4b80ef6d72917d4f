/** What a live pipeline does, whatever states its steps are in: after running for a while, and after its settings were
    changed in place. */
module LiveMeaning {
  import opened Audio
  import opened VolumeControl
  import C = Config
  import opened Mixers
  import opened Pipelines
  import opened Parallel
  import opened Semantics

  /** The channels of a bank go through their filters, each on its own; further channels stay. */
  ghost predicate BankFiltered(w: C.World, bank: Bank, cs: seq<Chunk>, ds: seq<Chunk>, width: nat) {
    |ds| == |cs| && AreWide(cs, width) && AreWide(ds, width) &&
    (forall k :: 0 <= k < |cs| ==> ds[k].frames == cs[k].frames) &&
    forall c :: 0 <= c < width ==>
      Column(ds, width, c) == if c < |bank| then ThroughAll(w, bank[c], Column(cs, width, c)) else Column(cs, width, c)
  }

  /** Every output adds up its row of the routing table. */
  ghost predicate RowsAreMixed(mix: Mixer, c: Chunk, d: Chunk)
    requires mix.Valid() && |c.waveforms| == mix.channelsIn
  {
    d.frames == c.frames && |d.waveforms| == mix.channelsOut &&
    forall o :: 0 <= o < mix.channelsOut ==>
      |d.waveforms[o]| == c.frames &&
      forall i :: 0 <= i < c.frames ==> d.waveforms[o][i] == WeightedSum(mix.mapping[o], c.waveforms, i)
  }

  /** The stream `ds` is what the step, in the state it is in, makes of the stream `cs`. */
  ghost predicate StepDoes(w: C.World, step: Step, cs: seq<Chunk>, ds: seq<Chunk>, width: nat)
    requires StepFits(step, width) && AreWide(cs, width)
  {
    match step
    case MixerStep(mix) => |ds| == |cs| && forall k :: 0 <= k < |cs| ==> RowsAreMixed(mix, cs[k], ds[k])
    case FilterGroup(ch, fs) => GroupFiltered(w, ch, fs, cs, ds, width)
    case ParallelFilters(bank) => BankFiltered(w, bank, cs, ds, width)
    case ProcessorStep(p) => ds == Processed(w, p.config, p.state, cs)
  }

  lemma {:induction false} MixerRuns(w: C.World, mix: Mixer, cs: seq<Chunk>, width: nat)
    requires mix.Valid() && mix.channelsIn == width && AreWide(cs, width)
    ensures Fits([MixerStep(mix)], width)
    ensures var ds := RunChunks(w, [MixerStep(mix)], cs, width);
            forall k :: 0 <= k < |cs| ==> RowsAreMixed(mix, cs[k], ds[k])
    decreases |cs|
  {
    assert [MixerStep(mix)][1..] == [];
    if cs != [] {
      SingleStep(w, MixerStep(mix), cs, width);
      MixerRuns(w, mix, cs[1..], width);
      assert RowsAreMixed(mix, cs[0], Mix(mix, cs[0]));
    }
  }

  lemma NothingThroughBank(w: C.World, bank: Bank, width: nat)
    ensures BankFiltered(w, bank, [], [], width)
  {
  }

  lemma {:induction false} FirstThroughBank(w: C.World, bank: Bank, c: Chunk, cs: seq<Chunk>, ds: seq<Chunk>,
                                width: nat)
    requires |c.waveforms| == width && BankFiltered(w, RunParallel(w, bank, c.waveforms).0, cs, ds, width)
    ensures BankFiltered(w, bank, [c] + cs, [c.(waveforms := RunParallel(w, bank, c.waveforms).1)] + ds, width)
  {
    var (bank', ws) := RunParallel(w, bank, c.waveforms);
    var d := c.(waveforms := ws);
    forall ch | 0 <= ch < width
      ensures Column([c] + cs, width, ch) == [c.waveforms[ch]] + Column(cs, width, ch)
      ensures Column([d] + ds, width, ch) == [ws[ch]] + Column(ds, width, ch)
      ensures ch < |bank| ==>
        ThroughAll(w, bank[ch], [c.waveforms[ch]] + Column(cs, width, ch)) ==
          [ws[ch]] + ThroughAll(w, bank'[ch], Column(cs, width, ch))
    {
      ColumnOfFirst(c, cs, width, ch);
      ColumnOfFirst(d, ds, width, ch);
      if ch < |bank| { ChunkByChunk(w, bank[ch], c.waveforms[ch], Column(cs, width, ch)); }
    }
  }

  lemma {:induction false} BankRuns(w: C.World, bank: Bank, cs: seq<Chunk>, width: nat)
    requires AreWide(cs, width)
    ensures Fits([ParallelFilters(bank)], width) && OutWidth([ParallelFilters(bank)], width) == width
    ensures BankFiltered(w, bank, cs, RunChunks(w, [ParallelFilters(bank)], cs, width), width)
    decreases |cs|
  {
    assert [ParallelFilters(bank)][1..] == [];
    if cs == [] {
      NothingThroughBank(w, bank, width);
    } else {
      var bank' := RunParallel(w, bank, cs[0].waveforms).0;
      SingleStep(w, ParallelFilters(bank), cs, width);
      BankRuns(w, bank', cs[1..], width);
      FirstThroughBank(w, bank, cs[0], cs[1..], RunChunks(w, [ParallelFilters(bank')], cs[1..], width), width);
      assert cs == [cs[0]] + cs[1..];
    }
  }

  lemma {:induction false} StepRuns(w: C.World, step: Step, cs: seq<Chunk>, width: nat)
    requires StepFits(step, width) && AreWide(cs, width)
    ensures Fits([step], width) && OutWidth([step], width) == StepWidth(step, width)
    ensures StepDoes(w, step, cs, RunChunks(w, [step], cs, width), width)
  {
    assert [step][1..] == [];
    match step
    case MixerStep(mix) => MixerRuns(w, mix, cs, width);
    case FilterGroup(ch, fs) => GroupFilters(w, ch, fs, cs, width);
    case ParallelFilters(bank) => BankRuns(w, bank, cs, width);
    case ProcessorStep(p) => ProcessorProcesses(w, p, cs, width);
  }

  /** Each step leads from one stream to the next. */
  ghost predicate StepsDo(w: C.World, steps: seq<Step>, streams: seq<seq<Chunk>>, width: nat)
    requires Fits(steps, width)
    decreases |steps|
  {
    |streams| == |steps| + 1 && AreWide(streams[0], width) &&
    (steps != [] ==>
       StepDoes(w, steps[0], streams[0], streams[1], width) &&
       StepsDo(w, steps[1..], streams[1..], StepWidth(steps[0], width)))
  }

  /** A live pipeline, in any states, merged or not: what comes out is what its steps, one after the other, make of the
      chunks times the gain of the volume control. */
  lemma {:induction false} LivePipelineWorks(w: C.World, p: Live, inputs: seq<Input>, width: nat)
    returns (streams: seq<seq<Chunk>>)
    requires Ready(p, width) && Width(inputs, width)
    ensures StepsDo(w, p.steps, streams, width) && Scaled(w, p.volume, inputs, streams[0])
    ensures streams[|p.steps|] == RunAll(w, p, inputs, width).1
  {
    var cs := VolumeThenSteps(w, p, inputs, width);
    streams := StepsRun(w, p.steps, cs, width);
  }

  lemma {:induction false} StepsRun(w: C.World, steps: seq<Step>, cs: seq<Chunk>, width: nat)
    returns (streams: seq<seq<Chunk>>)
    requires Fits(steps, width) && AreWide(cs, width)
    ensures StepsDo(w, steps, streams, width) && streams[0] == cs
    ensures streams[|steps|] == RunChunks(w, steps, cs, width)
    decreases |steps|
  {
    if steps == [] {
      NoStepsNoChange(w, cs, width);
      streams := [cs];
    } else {
      var next := StepWidth(steps[0], width);
      StepRuns(w, steps[0], cs, width);
      var ds := RunChunks(w, [steps[0]], cs, width);
      var rest := StepsRun(w, steps[1..], ds, next);
      RunChunksAppend(w, [steps[0]], steps[1..], cs, width);
      assert steps == [steps[0]] + steps[1..];
      streams := [cs] + rest;
      assert streams[1..] == rest;
    }
  }
}
