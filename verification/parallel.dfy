/** Merging runs of filter steps so that the channels can be filtered in parallel. */
module Parallel {
  import opened Audio
  import opened VolumeControl
  import C = Config
  import opened Pipelines

  type Bank = seq<seq<Filter>>

  function EmptyBank(width: nat): (b: Bank) { seq(width, _ => []) }

  function Flush(pending: Option<Bank>): seq<Step> {
    match pending
    case Some(b) => [ParallelFilters(b)]
    case None => []
  }

  function AddToBank(bank: Bank, channel: nat, fs: seq<Filter>): (b: Bank)
    requires channel < |bank|
    ensures |b| == |bank|
  {
    bank[channel := bank[channel] + fs]
  }

  /** The merged steps, when the filters in `pending` were collected from the steps just before. */
  function Merged(steps: seq<Step>, width: nat, pending: Option<Bank>): seq<Step>
    requires Fits(steps, width) && (pending.Some? ==> |pending.value| == width)
    decreases |steps|
  {
    if steps == [] then Flush(pending)
    else
      match steps[0]
      case FilterGroup(channel, fs) =>
        Merged(steps[1..], width, Some(AddToBank(pending.GetOr(EmptyBank(width)), channel, fs)))
      case _ =>
        Flush(pending) + [steps[0]] + Merged(steps[1..], StepWidth(steps[0], width), None)
  }

  /** The state of the merging loop: what was emitted so far, followed by the merged form of what is left. */
  ghost predicate Merging(all: seq<Step>, channels: nat, emitted: seq<Step>, left: seq<Step>, active: nat,
                          pending: Option<Bank>)
    requires Fits(all, channels)
  {
    Fits(left, active) && (pending.Some? ==> |pending.value| == active) &&
    Merged(all, channels, None) == emitted + Merged(left, active, pending)
  }

  lemma {:induction false} MergeOne(
      all: seq<Step>, channels: nat, emitted: seq<Step>, left: seq<Step>, active: nat, pending: Option<Bank>)
    requires Fits(all, channels) && Merging(all, channels, emitted, left, active, pending) && left != []
    ensures left[0].FilterGroup? ==>
      Merging(all, channels, emitted, left[1..], active,
              Some(AddToBank(pending.GetOr(EmptyBank(active)), left[0].channel, left[0].filters)))
    ensures !left[0].FilterGroup? ==>
      Merging(all, channels, emitted + Flush(pending) + [left[0]], left[1..], StepWidth(left[0], active), None)
  {
  }

  /** Empties the step list into the merged one. */
  method ParallelizeFilters(steps: seq<Step>, channels: nat) returns (newSteps: seq<Step>)
    requires Fits(steps, channels)
    ensures newSteps == Merged(steps, channels, None)
  {
    newSteps := [];
    var pending: Option<Bank> := None;
    var active := channels;
    for i := 0 to |steps|
      invariant Merging(steps, channels, newSteps, steps[i..], active, pending)
    {
      var step := steps[i];
      assert steps[i..][0] == step && steps[i..][1..] == steps[i + 1..];
      MergeOne(steps, channels, newSteps, steps[i..], active, pending);
      if step.FilterGroup? {
        if pending.None? {
          pending := Some(EmptyBank(active));
        }
        pending := Some(AddToBank(pending.value, step.channel, step.filters));
      } else {
        if pending.Some? {
          newSteps := newSteps + [ParallelFilters(pending.value)];
        } else {
          assert newSteps + [] == newSteps;
        }
        pending := None;
        if step.MixerStep? {
          active := step.mix.channelsOut;
        }
        newSteps := newSteps + [step];
      }
    }
    assert steps[|steps|..] == [];
    if pending.Some? {
      newSteps := newSteps + [ParallelFilters(pending.value)];
    }
  }

  // ---------------------------------------------------------------------------------------------
  // Merging keeps the meaning
  // ---------------------------------------------------------------------------------------------

  lemma {:induction false} RunFiltersAppend(w: C.World, a: seq<Filter>, b: seq<Filter>, x: Waveform)
    ensures var (a', y) := RunFilters(w, a, x);
            var (b', z) := RunFilters(w, b, y);
            RunFilters(w, a + b, x) == (a' + b', z)
  {
    if b == [] {
      assert a + b == a;
      var r := RunFilters(w, a, x);
      assert r.0 + [] == r.0;
    } else {
      var n := |b| - 1;
      assert (a + b)[..|a + b| - 1] == a + b[..n];
      RunFiltersAppend(w, a, b[..n], x);
      var (a', y) := RunFilters(w, a, x);
      var (b', z) := RunFilters(w, b[..n], y);
      var g := RunFilter(w, b[n], z).0;
      assert (a' + b') + [g] == a' + (b' + [g]);
    }
  }

  lemma RunChannelAppend(w: C.World, a: seq<Filter>, b: seq<Filter>, x: Waveform)
    ensures var (a', y) := RunChannel(w, a, x);
            var (b', z) := RunChannel(w, b, y);
            RunChannel(w, a + b, x) == (a' + b', z)
  {
    RunFiltersAppend(w, a, b, x);
  }

  /** Adding filters to one channel of a bank is running the bank and then a group of those filters. */
  lemma BankThenGroup(w: C.World, bank: Bank, ch: nat, fs: seq<Filter>, c: Chunk)
    requires |bank| == |c.waveforms| && ch < |bank|
    ensures var (b', d) := RunStep(w, ParallelFilters(bank), c);
            var (g', e) := RunStep(w, FilterGroup(ch, fs), d);
            b'.ParallelFilters? && g'.FilterGroup? && |b'.perChannel| == |bank| &&
            RunStep(w, ParallelFilters(AddToBank(bank, ch, fs)), c)
              == (ParallelFilters(AddToBank(b'.perChannel, ch, g'.filters)), e)
  {
    RunChannelAppend(w, bank[ch], fs, c.waveforms[ch]);
    var (b', d) := RunStep(w, ParallelFilters(bank), c);
    var (g', e) := RunStep(w, FilterGroup(ch, fs), d);
    var (m, f) := RunStep(w, ParallelFilters(AddToBank(bank, ch, fs)), c);
    assert m.perChannel == AddToBank(b'.perChannel, ch, g'.filters);
    assert f.waveforms == e.waveforms;
  }

  lemma EmptyBankDoesNothing(w: C.World, c: Chunk)
    ensures RunStep(w, ParallelFilters(EmptyBank(|c.waveforms|)), c) == (ParallelFilters(EmptyBank(|c.waveforms|)), c)
  {
    var bank := EmptyBank(|c.waveforms|);
    var (gs, ws) := RunParallel(w, bank, c.waveforms);
    assert gs == bank && ws == c.waveforms;
  }

  /** Filters waiting to be merged, run on the chunk that is about to enter the remaining steps. */
  function RunPending(w: C.World, pending: Option<Bank>, c: Chunk): (r: (Option<Bank>, Chunk))
    requires pending.Some? ==> |pending.value| == |c.waveforms|
    ensures |r.1.waveforms| == |c.waveforms| && r.1.frames == c.frames
    ensures r.0.Some? <==> pending.Some?
    ensures r.0.Some? ==> |r.0.value| == |c.waveforms|
  {
    match pending
    case None => (None, c)
    case Some(b) => (Some(RunStep(w, ParallelFilters(b), c).0.perChannel), RunStep(w, ParallelFilters(b), c).1)
  }

  lemma {:induction false} MergedFits(steps: seq<Step>, width: nat, pending: Option<Bank>)
    requires Fits(steps, width) && (pending.Some? ==> |pending.value| == width)
    ensures Fits(Merged(steps, width, pending), width)
    ensures OutWidth(Merged(steps, width, pending), width) == OutWidth(steps, width)
    decreases |steps|
  {
    var m := Merged(steps, width, pending);
    if steps == [] {
      assert pending.Some? ==> m[1..] == [];
    } else if steps[0].FilterGroup? {
      MergedFits(steps[1..], width,
        Some(AddToBank(pending.GetOr(EmptyBank(width)), steps[0].channel, steps[0].filters)));
    } else {
      var width' := StepWidth(steps[0], width);
      MergedFits(steps[1..], width', None);
      var tail := Merged(steps[1..], width', None);
      assert ([steps[0]] + tail)[1..] == tail;
      assert pending.Some? ==> m[1..] == [steps[0]] + tail;
      assert pending.None? ==> m == [steps[0]] + tail;
    }
  }

  lemma {:induction false} RunStepsCons(w: C.World, s: Step, rest: seq<Step>, c: Chunk)
    requires Fits([s] + rest, |c.waveforms|)
    ensures ([s] + rest)[1..] == rest
    ensures StepFits(s, |c.waveforms|) && Fits(rest, StepWidth(s, |c.waveforms|))
    ensures var (t, d) := RunStep(w, s, c);
            var (us, e) := RunSteps(w, rest, d);
            RunSteps(w, [s] + rest, c) == ([t] + us, e)
  {
    assert ([s] + rest)[1..] == rest;
  }

  /** Running the merged steps, and running the waiting filters followed by the original steps, give the same chunk,
      and merging what the original steps have become gives what the merged steps have become. */
  ghost predicate Simulates(w: C.World, steps: seq<Step>, pending: Option<Bank>, c: Chunk)
    requires Fits(steps, |c.waveforms|) && (pending.Some? ==> |pending.value| == |c.waveforms|)
  {
    Fits(Merged(steps, |c.waveforms|, pending), |c.waveforms|) &&
    var (pending', d) := RunPending(w, pending, c);
    var (steps', out) := RunSteps(w, steps, d);
    RunSteps(w, Merged(steps, |c.waveforms|, pending), c) == (Merged(steps', |c.waveforms|, pending'), out)
  }

  lemma {:induction false} FilterStepSimulates(w: C.World, s: Step, rest: seq<Step>, pending: Option<Bank>, c: Chunk)
    requires Fits([s] + rest, |c.waveforms|) && (pending.Some? ==> |pending.value| == |c.waveforms|)
    requires s.FilterGroup? && ([s] + rest)[1..] == rest
    requires var bank := pending.GetOr(EmptyBank(|c.waveforms|));
             Simulates(w, rest, Some(AddToBank(bank, s.channel, s.filters)), c)
    ensures Simulates(w, [s] + rest, pending, c)
  {
    var bank := pending.GetOr(EmptyBank(|c.waveforms|));
    EmptyBankDoesNothing(w, c);
    BankThenGroup(w, bank, s.channel, s.filters, c);
    var (pending', d) := RunPending(w, pending, c);
    var (s', e) := RunStep(w, s, d);
    var rest' := RunSteps(w, rest, e).0;
    RunStepsCons(w, s, rest, d);
    assert ([s'] + rest')[1..] == rest';
  }

  lemma {:induction false} OtherStepSimulates(w: C.World, s: Step, rest: seq<Step>, c: Chunk)
    requires Fits([s] + rest, |c.waveforms|)
    requires !s.FilterGroup? && ([s] + rest)[1..] == rest
    requires Simulates(w, rest, None, RunStep(w, s, c).1)
    ensures Simulates(w, [s] + rest, None, c)
  {
    MergedFits([s] + rest, |c.waveforms|, None);
    var (s', e) := RunStep(w, s, c);
    var rest' := RunSteps(w, rest, e).0;
    RunStepsCons(w, s, rest, c);
    OtherStepStays(s, rest, |c.waveforms|);
    OtherStepStays(s', rest', |c.waveforms|);
    RunStepsCons(w, s, Merged(rest, |e.waveforms|, None), c);
  }

  lemma {:induction false} OtherStepStays(s: Step, rest: seq<Step>, width: nat)
    requires !s.FilterGroup? && StepFits(s, width) && Fits(rest, StepWidth(s, width))
    ensures ([s] + rest)[1..] == rest && Fits([s] + rest, width)
    ensures Merged([s] + rest, width, None) == [s] + Merged(rest, StepWidth(s, width), None)
  {
    assert ([s] + rest)[1..] == rest;
    assert [] + [s] == [s];
  }

  lemma {:induction false} FlushSimulates(w: C.World, s: Step, rest: seq<Step>, bank: Bank, c: Chunk)
    requires Fits([s] + rest, |c.waveforms|) && |bank| == |c.waveforms|
    requires !s.FilterGroup? && ([s] + rest)[1..] == rest
    requires Simulates(w, [s] + rest, None, RunStep(w, ParallelFilters(bank), c).1)
    ensures Simulates(w, [s] + rest, Some(bank), c)
  {
    var width := |c.waveforms|;
    var p := ParallelFilters(bank);
    MergedFits([s] + rest, width, Some(bank));
    var (p', d) := RunStep(w, p, c);
    var (all', out) := RunSteps(w, [s] + rest, d);
    var m, m' := Merged([s] + rest, width, None), Merged(all', width, None);
    RunStepsCons(w, s, rest, d);
    FlushedFirst([s] + rest, width, bank);
    FlushedFirst(all', width, p'.perChannel);
    RunStepsCons(w, p, m, c);
  }

  /** In front of any other step, waiting filters become a step of their own. */
  lemma {:induction false} FlushedFirst(steps: seq<Step>, width: nat, bank: Bank)
    requires Fits(steps, width) && |bank| == width && steps != [] && !steps[0].FilterGroup?
    ensures Merged(steps, width, Some(bank)) == [ParallelFilters(bank)] + Merged(steps, width, None)
  {
  }

  lemma {:induction false} MergedSimulates(w: C.World, steps: seq<Step>, pending: Option<Bank>, c: Chunk)
    requires Fits(steps, |c.waveforms|) && (pending.Some? ==> |pending.value| == |c.waveforms|)
    ensures Simulates(w, steps, pending, c)
    decreases |steps|
  {
    if steps == [] {
      MergedFits(steps, |c.waveforms|, pending);
      if pending.Some? {
        var p := ParallelFilters(pending.value);
        RunStepsCons(w, p, [], c);
        assert [p] + [] == [p] && [RunStep(w, p, c).0] + [] == [RunStep(w, p, c).0];
      }
    } else {
      var s, rest := steps[0], steps[1..];
      assert steps == [s] + rest;
      var d := RunPending(w, pending, c).1;
      if s.FilterGroup? {
        MergedSimulates(w, rest, Some(AddToBank(pending.GetOr(EmptyBank(|c.waveforms|)), s.channel, s.filters)), c);
        FilterStepSimulates(w, s, rest, pending, c);
      } else {
        MergedSimulates(w, rest, None, RunStep(w, s, d).1);
        OtherStepSimulates(w, s, rest, d);
        if pending.Some? { FlushSimulates(w, s, rest, pending.value, c); }
      }
    }
  }

  /** Parallel and sequential pipelines give equal outputs for any run of chunks, and stay in equal states: after the
      run the parallel pipeline is the merged form of what the sequential one has become. */
  lemma {:induction false} ParallelIsSequential(w: C.World, p: Live, inputs: seq<Input>, width: nat)
    requires Ready(p, width) && Width(inputs, width)
    ensures Fits(Merged(p.steps, width, None), width)
    ensures var (last, outs) := RunAll(w, p, inputs, width);
            RunAll(w, Live(Merged(p.steps, width, None), p.volume), inputs, width)
              == (Live(Merged(last.steps, width, None), last.volume), outs)
    decreases |inputs|
  {
    MergedFits(p.steps, width, None);
    if inputs != [] {
      var (v, plan) := Advance(p.volume, inputs[0].fader);
      MergedSimulates(w, p.steps, None, ApplyToChunk(w.pow10, plan, inputs[0].chunk));
      var q := RunOne(w, p, inputs[0]).0;
      ParallelIsSequential(w, q, inputs[1..], width);
    }
  }

  // ---------------------------------------------------------------------------------------------
  // The order in which the channels are worked on
  // ---------------------------------------------------------------------------------------------

  function Left(bank: Bank, done: seq<nat>): nat
    requires |bank| == |done| && forall i :: 0 <= i < |bank| ==> done[i] <= |bank[i]|
  {
    if bank == [] then 0
    else |bank[|bank| - 1]| - done[|bank| - 1] + Left(bank[..|bank| - 1], done[..|bank| - 1])
  }

  lemma {:induction false} OneLess(bank: Bank, done: seq<nat>, ch: nat)
    requires |bank| == |done| && ch < |bank| && forall i :: 0 <= i < |bank| ==> done[i] <= |bank[i]|
    requires done[ch] < |bank[ch]|
    ensures Left(bank, done[ch := done[ch] + 1]) == Left(bank, done) - 1
  {
    var n := |bank| - 1;
    if ch < n {
      assert done[ch := done[ch] + 1][..n] == done[..n][ch := done[ch] + 1];
      OneLess(bank[..n], done[..n], ch);
    } else {
      assert done[ch := done[ch] + 1][..n] == done[..n];
    }
  }

  /** One channel of a bank after its first k filters have been run on its waveform. */
  ghost predicate RanFirst(w: C.World, fs: seq<Filter>, x: Waveform, k: nat, fs': seq<Filter>, x': Waveform) {
    k <= |fs| && fs' == RunFilters(w, fs[..k], x).0 + fs[k..] && x' == RunFilters(w, fs[..k], x).1
  }

  lemma RunNext(w: C.World, fs: seq<Filter>, x: Waveform, k: nat, fs': seq<Filter>, x': Waveform)
    requires RanFirst(w, fs, x, k, fs', x') && k < |fs|
    ensures |fs'| == |fs|
    ensures RanFirst(w, fs, x, k + 1, fs'[k := RunFilter(w, fs'[k], x').0], RunFilter(w, fs'[k], x').1)
  {
    assert fs[..k + 1][..k] == fs[..k];
    assert fs'[k] == fs[k];
  }

  lemma {:induction false} RanAll(w: C.World, fs: seq<Filter>, x: Waveform, fs': seq<Filter>, x': Waveform)
    requires RanFirst(w, fs, x, |fs|, fs', x')
    ensures (fs', x') == RunFilters(w, fs, x)
  {
    assert fs[..|fs|] == fs && fs[|fs|..] == [];
    var r := RunFilters(w, fs, x);
    assert r.0 + [] == r.0;
    assert fs' == r.0 + [];
  }

  ghost predicate Progress(w: C.World, bank: Bank, ws: seq<Waveform>, done: seq<nat>, bank': Bank, ws': seq<Waveform>) {
    && |bank'| == |bank| == |done| && |ws'| == |ws|
    && (forall i :: 0 <= i < |bank| ==> done[i] <= |bank[i]| == |bank'[i]|)
    && (forall i :: 0 <= i < |bank| && i < |ws| ==> RanFirst(w, bank[i], ws[i], done[i], bank'[i], ws'[i]))
    && (forall i :: 0 <= i < |bank| && (i >= |ws| || ws[i] == []) ==> bank'[i] == bank[i])
    && (forall i :: 0 <= i < |ws| && (i >= |bank| || ws[i] == []) ==> ws'[i] == ws[i])
  }

  lemma NoTurnsTaken(w: C.World, bank: Bank, ws: seq<Waveform>)
    ensures Progress(w, bank, ws, seq(|bank|, _ => 0), bank, ws)
  {
  }

  lemma TakeTurn(
      w: C.World, bank: Bank, ws: seq<Waveform>, done: seq<nat>, bank': Bank, ws': seq<Waveform>, ch: nat, f: Filter,
        x: Waveform)
    requires Progress(w, bank, ws, done, bank', ws')
    requires ch < |bank| && ch < |ws| && ws[ch] != [] && done[ch] < |bank[ch]|
    requires (f, x) == RunFilter(w, bank'[ch][done[ch]], ws'[ch])
    ensures Progress(w, bank, ws, done[ch := done[ch] + 1], bank'[ch := bank'[ch][done[ch] := f]], ws'[ch := x])
  {
    RunNext(w, bank[ch], ws[ch], done[ch], bank'[ch], ws'[ch]);
  }

  lemma AllTurnsTaken(w: C.World, bank: Bank, ws: seq<Waveform>, done: seq<nat>, bank': Bank, ws': seq<Waveform>)
    requires Progress(w, bank, ws, done, bank', ws')
    requires forall ch :: 0 <= ch < |bank| && ch < |ws| && ws[ch] != [] ==> done[ch] == |bank[ch]|
    ensures (bank', ws') == RunParallel(w, bank, ws)
  {
    forall i | 0 <= i < |bank| && i < |ws| ensures (bank'[i], ws'[i]) == RunChannel(w, bank[i], ws[i]) {
      if ws[i] != [] { RanAll(w, bank[i], ws[i], bank'[i], ws'[i]); }
    }
    var r := RunParallel(w, bank, ws);
    assert bank' == r.0 && ws' == r.1;
  }

  /** Worker threads take turns in any order, one filter of one channel at a time. Whatever the order, the result is
      the same: filters of different channels do not disturb each other, and within a channel the order is kept. */
  method FilterInParallel(w: C.World, bank: Bank, ws: seq<Waveform>) returns (bank': Bank, ws': seq<Waveform>)
    ensures (bank', ws') == RunParallel(w, bank, ws)
  {
    bank', ws' := bank, ws;
    var done: seq<nat> := seq(|bank|, _ => 0);
    NoTurnsTaken(w, bank, ws);
    while exists ch :: 0 <= ch < |bank| && ch < |ws| && ws[ch] != [] && done[ch] < |bank[ch]|
      invariant Progress(w, bank, ws, done, bank', ws')
      decreases Left(bank, done)
    {
      var ch :| 0 <= ch < |bank| && ch < |ws| && ws[ch] != [] && done[ch] < |bank[ch]|;
      var (f, x) := RunFilter(w, bank'[ch][done[ch]], ws'[ch]);
      TakeTurn(w, bank, ws, done, bank', ws', ch, f, x);
      OneLess(bank, done, ch);
      bank', ws', done := bank'[ch := bank'[ch][done[ch] := f]], ws'[ch := x], done[ch := done[ch] + 1];
    }
    AllTurnsTaken(w, bank, ws, done, bank', ws');
  }
}
