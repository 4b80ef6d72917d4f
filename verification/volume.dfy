/** The volume control: a gain that follows a fader through linear ramps in dB, one chunk at a time. */
module VolumeControl {
  import opened Audio

  /** 10 to the power of its argument; only its being a function matters here. */
  type Pow10 = real -> real

  const MUTED_DB: real := -100.0
  const CHANGE_THRESHOLD_DB: real := 0.01

  datatype VolumeState = VolumeState(
    rampChunks: nat,     // ramp time, in chunks
    currentDb: real,     // level of the last sample that was ramped
    targetDb: real,
    mute: bool,
    rampStartDb: real,
    rampStep: nat,       // 0 when no ramp is running, otherwise the number of the next ramp chunk
    chunksize: nat,
    limitDb: real)

  /** What one chunk is multiplied with. */
  datatype GainPlan =
    | Hold(muted: bool, db: real)
    | Ramp(levels: seq<real>)
    | Unchanged

  /** What the user asks for while one chunk is processed. */
  datatype Fader = Fader(db: real, mute: bool)

  function Wanted(v: VolumeState, f: Fader): real { Min(f.db, v.limitDb) }

  predicate Triggered(v: VolumeState, f: Fader) {
    Abs(Wanted(v, f) - v.targetDb) > CHANGE_THRESHOLD_DB || v.mute != f.mute
  }

  function Goal(v: VolumeState): real { if v.mute then MUTED_DB else v.targetDb }

  /** Picks up a fader movement: starts a ramp, or jumps when there is no ramp time. */
  function Prepare(v: VolumeState, f: Fader): VolumeState {
    if !Triggered(v, f) then v
    else if v.rampChunks > 0 then
      v.(rampStartDb := v.currentDb, rampStep := 1, targetDb := Wanted(v, f), mute := f.mute)
    else
      v.(currentDb := if f.mute then 0.0 else Wanted(v, f), rampStep := 0, targetDb := Wanted(v, f), mute := f.mute)
  }

  function RampLevel(v: VolumeState, i: nat): real
    requires v.rampChunks > 0 && v.chunksize > 0
  {
    var range := (Goal(v) - v.rampStartDb) / v.rampChunks as real;
    v.rampStartDb + range * (v.rampStep as real - 1.0) + i as real * (range / v.chunksize as real)
  }

  lemma LevelInSteps(v: VolumeState, range: real, stepsize: real, i: nat)
    requires v.rampChunks > 0 && v.chunksize > 0
    requires range == (Goal(v) - v.rampStartDb) / v.rampChunks as real && stepsize == range / v.chunksize as real
    ensures RampLevel(v, i) == v.rampStartDb + range * (v.rampStep as real - 1.0) + i as real * stepsize
  {
  }

  function PlanOf(v: VolumeState): GainPlan
    requires v.chunksize > 0
  {
    if v.rampStep == 0 then Hold(v.mute, v.targetDb)
    else if v.rampStep <= v.rampChunks then Ramp(seq(v.chunksize, i requires 0 <= i => RampLevel(v, i)))
    else Unchanged
  }

  /** The state once the planned chunk has been processed. */
  function AfterChunk(v: VolumeState): VolumeState
    requires v.chunksize > 0
  {
    if 0 < v.rampStep <= v.rampChunks then
      v.(rampStep := if v.rampStep + 1 > v.rampChunks then 0 else v.rampStep + 1,
         currentDb := RampLevel(v, v.chunksize - 1))
    else v
  }

  function Advance(v: VolumeState, f: Fader): (VolumeState, GainPlan)
    requires v.chunksize > 0
  {
    var p := Prepare(v, f);
    (AfterChunk(p), PlanOf(p))
  }

  function LinearGain(pow10: Pow10, db: real): real { pow10(db / 20.0) }

  function SampleGain(pow10: Pow10, plan: GainPlan, i: nat): real {
    match plan
    case Hold(muted, db) => if muted then 0.0 else LinearGain(pow10, db)
    case Ramp(levels) => if i < |levels| then LinearGain(pow10, levels[i]) else 1.0
    case Unchanged => 1.0
  }

  function ApplyPlan(pow10: Pow10, plan: GainPlan, w: Waveform): (r: Waveform)
    ensures |r| == |w|
  {
    seq(|w|, i requires 0 <= i < |w| => w[i] * SampleGain(pow10, plan, i))
  }

  function ApplyToChunk(pow10: Pow10, plan: GainPlan, c: Chunk): (r: Chunk)
    ensures |r.waveforms| == |c.waveforms| && r.frames == c.frames
    ensures c.Valid() ==> r.Valid()
  {
    c.(waveforms := seq(|c.waveforms|, i requires 0 <= i < |c.waveforms| => ApplyPlan(pow10, plan, c.waveforms[i])))
  }

  /** The gain of one sample: none while a mute is held, ten to the power of a twentieth of the level while one is held
      or gone through. */
  ghost function GainAt(pow10: Pow10, plan: GainPlan, i: nat): real {
    if plan.Hold? then (if plan.muted then 0.0 else pow10(plan.db / 20.0))
    else if plan.Ramp? && i < |plan.levels| then pow10(plan.levels[i] / 20.0)
    else 1.0
  }

  /** Every sample of `d` is that of `c` times its gain. */
  ghost predicate IsScaled(pow10: Pow10, plan: GainPlan, c: Chunk, d: Chunk) {
    d.frames == c.frames && |d.waveforms| == |c.waveforms| &&
    forall ch :: 0 <= ch < |c.waveforms| ==>
      |d.waveforms[ch]| == |c.waveforms[ch]| &&
      forall i :: 0 <= i < |c.waveforms[ch]| ==> d.waveforms[ch][i] == c.waveforms[ch][i] * GainAt(pow10, plan, i)
  }

  lemma PlanScales(pow10: Pow10, plan: GainPlan, c: Chunk)
    ensures IsScaled(pow10, plan, c, ApplyToChunk(pow10, plan, c))
  {
  }

  // ---------------------------------------------------------------------------------------------
  // Runs
  // ---------------------------------------------------------------------------------------------

  /** State after a chunk for every fader reading, and the plan each chunk was multiplied with. */
  function Run(v: VolumeState, faders: seq<Fader>): (r: (VolumeState, seq<GainPlan>))
    requires v.chunksize > 0
    ensures |r.1| == |faders|
    ensures r.0.chunksize == v.chunksize && r.0.rampChunks == v.rampChunks && r.0.limitDb == v.limitDb
    decreases |faders|
  {
    if faders == [] then (v, [])
    else
      var (u, plan) := Advance(v, faders[0]);
      var (last, plans) := Run(u, faders[1..]);
      (last, [plan] + plans)
  }

  /** The faders ask for (nearly) the same thing all the time. */
  ghost predicate Steady(v: VolumeState, faders: seq<Fader>, target: real, mute: bool) {
    forall i :: 0 <= i < |faders| ==>
      Abs(Wanted(v, faders[i]) - target) <= CHANGE_THRESHOLD_DB && faders[i].mute == mute
  }

  /** Sample m, counted from the start of a ramp, of a line of n samples from one level to another. */
  ghost function OnLine(start: real, goal: real, n: nat, m: nat): real
    requires n > 0
  {
    start + m as real * ((goal - start) / n as real)
  }

  lemma LevelIsOnLine(v: VolumeState, i: nat)
    requires v.rampChunks > 0 && v.chunksize > 0 && v.rampStep > 0
    ensures v.rampChunks * v.chunksize > 0
    ensures RampLevel(v, i) ==
            OnLine(v.rampStartDb, Goal(v), v.rampChunks * v.chunksize, (v.rampStep - 1) * v.chunksize + i)
  {
  }

  /** The chunks that are left of a running ramp stay on its line, and the ramp ends on time. */
  lemma {:induction false} RampContinues(v: VolumeState, faders: seq<Fader>, k: nat)
    requires v.chunksize > 0 && 0 < v.rampStep <= v.rampChunks
    requires Steady(v, faders, v.targetDb, v.mute)
    requires k < |faders|
    ensures v.rampChunks * v.chunksize > 0
    ensures var (_, plans) := Run(v, faders);
            var n := v.rampChunks * v.chunksize;
            if v.rampStep + k <= v.rampChunks then
              plans[k].Ramp? && |plans[k].levels| == v.chunksize &&
              forall i :: 0 <= i < v.chunksize ==>
                plans[k].levels[i] == OnLine(v.rampStartDb, Goal(v), n, (v.rampStep - 1 + k) * v.chunksize + i)
            else
              plans[k] == Hold(v.mute, v.targetDb)
    decreases k
  {
    LevelIsOnLine(v, 0);
    assert !Triggered(v, faders[0]);
    var u := AfterChunk(v);
    var plan := PlanOf(v);
    assert Run(v, faders).1 == [plan] + Run(u, faders[1..]).1;
    if k == 0 {
      forall i | 0 <= i < v.chunksize
        ensures plan.levels[i] ==
          OnLine(v.rampStartDb, Goal(v), v.rampChunks * v.chunksize, (v.rampStep - 1) * v.chunksize + i)
      {
        LevelIsOnLine(v, i);
      }
    } else if u.rampStep == 0 {
      HoldContinues(u, faders[1..], k - 1);
    } else {
      RampContinues(u, faders[1..], k - 1);
    }
  }

  lemma {:induction false} HoldContinues(v: VolumeState, faders: seq<Fader>, k: nat)
    requires v.chunksize > 0 && v.rampStep == 0
    requires Steady(v, faders, v.targetDb, v.mute)
    requires k < |faders|
    ensures Run(v, faders).1[k] == Hold(v.mute, v.targetDb)
    decreases k
  {
    assert !Triggered(v, faders[0]);
    if k > 0 { HoldContinues(v, faders[1..], k - 1); }
  }

  lemma {:induction false} HoldingChangesNothing(v: VolumeState, faders: seq<Fader>)
    requires v.chunksize > 0 && v.rampStep == 0
    requires Steady(v, faders, v.targetDb, v.mute)
    ensures Run(v, faders).0 == v
    decreases |faders|
  {
    if faders != [] {
      assert !Triggered(v, faders[0]);
      HoldingChangesNothing(v, faders[1..]);
    }
  }

  /** Without ramp time a fader movement takes effect at once, and stays. */
  lemma {:induction false} JumpWithoutRamp(v: VolumeState, faders: seq<Fader>, k: nat)
    requires v.chunksize > 0 && v.rampChunks == 0 && k < |faders| && Triggered(v, faders[0])
    requires Steady(v, faders, Wanted(v, faders[0]), faders[0].mute)
    ensures Run(v, faders).1[k] == Hold(faders[0].mute, Min(faders[0].db, v.limitDb))
  {
    PreparedOnce(v, faders);
    var p := Prepare(v, faders[0]);
    assert Steady(p, faders, p.targetDb, p.mute) by {
      assert forall i :: 0 <= i < |faders| ==> Wanted(p, faders[i]) == Wanted(v, faders[i]);
    }
    HoldContinues(p, faders, k);
  }

  /** Picking up the same fader reading a second time changes nothing. */
  lemma {:induction false} PreparedOnce(v: VolumeState, faders: seq<Fader>)
    requires v.chunksize > 0 && faders != []
    ensures Run(Prepare(v, faders[0]), faders) == Run(v, faders)
  {
    var p := Prepare(v, faders[0]);
    assert !Triggered(p, faders[0]);
    assert Advance(p, faders[0]) == Advance(v, faders[0]);
  }

  /** A fader movement that is then left alone: for exactly rampChunks chunks the applied levels form one
      straight line in dB, across the chunk boundaries, from the last ramped level to the new goal; from
      then on the new level is held. */
  lemma {:induction false} UndisturbedRamp(v: VolumeState, faders: seq<Fader>, k: nat)
    requires v.chunksize > 0 && v.rampChunks > 0
    requires k < |faders| && Triggered(v, faders[0])
    requires Steady(v, faders, Wanted(v, faders[0]), faders[0].mute)
    ensures v.rampChunks * v.chunksize > 0
    ensures var (_, plans) := Run(v, faders);
            var goal := if faders[0].mute then MUTED_DB else Wanted(v, faders[0]);
            if k < v.rampChunks then
              plans[k].Ramp? && |plans[k].levels| == v.chunksize &&
              forall i :: 0 <= i < v.chunksize ==>
                plans[k].levels[i] == OnLine(v.currentDb, goal, v.rampChunks * v.chunksize, k * v.chunksize + i)
            else
              plans[k] == Hold(faders[0].mute, Wanted(v, faders[0]))
  {
    PreparedOnce(v, faders);
    var p := Prepare(v, faders[0]);
    assert p.rampStep == 1 && p.rampStartDb == v.currentDb;
    assert Steady(p, faders, p.targetDb, p.mute) by {
      assert forall i :: 0 <= i < |faders| ==> Wanted(p, faders[i]) == Wanted(v, faders[i]);
    }
    RampContinues(p, faders, k);
  }

  /** Every ramp, also one that interrupts another ramp, starts at the level the last ramped sample had. */
  lemma RampStartsWhereTheLastOneEnded(v: VolumeState, f: Fader, g: Fader)
    requires v.chunksize > 0 && v.rampChunks > 0
    requires Advance(v, f).1.Ramp?
    requires Triggered(Advance(v, f).0, g)
    ensures Advance(Advance(v, f).0, g).1.Ramp?
    ensures Advance(Advance(v, f).0, g).1.levels[0] == Advance(v, f).1.levels[v.chunksize - 1]
  {
  }

  /** The last ramp sample is one sample step short of the goal. The level that is held afterwards is the goal
      itself, so a later ramp, which starts at the last ramped level, joins the held level without a jump exactly
      when the previous ramp had no distance to cover. */
  lemma CompletedRampStopsOneStepShort(v: VolumeState)
    requires v.chunksize > 0 && v.rampChunks > 0 && v.rampStep == v.rampChunks
    ensures v.rampChunks * v.chunksize > 0
    ensures AfterChunk(v).rampStep == 0
    ensures AfterChunk(v).currentDb == Goal(v) - (Goal(v) - v.rampStartDb) / (v.rampChunks * v.chunksize) as real
    ensures AfterChunk(v).currentDb == Goal(v) <==> v.rampStartDb == Goal(v)
  {
  }

  /** Whatever the faders did, the target the last chunk worked towards is within the change threshold of the last
      fader reading, cut off at the volume limit, and the mute setting is the last one. */
  lemma {:induction false} TargetTracksFader(v: VolumeState, faders: seq<Fader>)
    requires v.chunksize > 0 && faders != []
    ensures var u := Run(v, faders).0;
            Abs(u.targetDb - Min(faders[|faders| - 1].db, v.limitDb)) <= CHANGE_THRESHOLD_DB &&
            u.mute == faders[|faders| - 1].mute
    decreases |faders|
  {
    var u := Advance(v, faders[0]).0;
    if |faders| > 1 {
      TargetTracksFader(u, faders[1..]);
    }
  }

  // ---------------------------------------------------------------------------------------------
  // The object
  // ---------------------------------------------------------------------------------------------

  class Volume {
    const pow10: Pow10
    const chunksize: nat
    const limitDb: real
    const rampChunks: nat
    var currentDb: real
    var targetDb: real
    var targetGain: real
    var mute: bool
    var rampStartDb: real
    var rampStep: nat

    ghost predicate Valid()
      reads this
    {
      chunksize > 0 && targetGain == if mute then 0.0 else LinearGain(pow10, targetDb)
    }

    ghost function State(): VolumeState
      reads this
    {
      VolumeState(rampChunks, currentDb, targetDb, mute, rampStartDb, rampStep, chunksize, limitDb)
    }

    constructor (pow10: Pow10, rampChunks: nat, limitDb: real, initial: Fader, chunksize: nat)
      requires chunksize > 0
      ensures Valid()
      ensures this.pow10 == pow10
      ensures State() == VolumeState(rampChunks, if initial.mute then MUTED_DB else initial.db, initial.db,
                                     initial.mute, initial.db, 0, chunksize, limitDb)
    {
      this.pow10 := pow10;
      this.chunksize := chunksize;
      this.limitDb := limitDb;
      this.rampChunks := rampChunks;
      currentDb := if initial.mute then MUTED_DB else initial.db;
      rampStartDb := initial.db;
      targetDb := initial.db;
      targetGain := if initial.mute then 0.0 else LinearGain(pow10, initial.db);
      mute := initial.mute;
      rampStep := 0;
    }

    method PrepareProcessing(shared: Fader)
      requires Valid()
      modifies this
      ensures Valid() && State() == Prepare(old(State()), shared)
    {
      var target := Min(shared.db, limitDb);
      if Abs(target - targetDb) > CHANGE_THRESHOLD_DB || mute != shared.mute {
        if rampChunks > 0 {
          rampStartDb := currentDb;
          rampStep := 1;
        } else {
          currentDb := if shared.mute then 0.0 else target;
          rampStep := 0;
        }
        targetDb := target;
        targetGain := if shared.mute then 0.0 else LinearGain(pow10, target);
        mute := shared.mute;
      }
    }

    /** The levels, in dB, of the samples of the next ramp chunk. */
    method MakeRamp() returns (levels: seq<real>)
      requires Valid() && 0 < rampStep <= rampChunks
      ensures Ramp(levels) == PlanOf(State())
    {
      var target := if mute then MUTED_DB else targetDb;
      var range := (target - rampStartDb) / rampChunks as real;
      var stepsize := range / chunksize as real;
      ghost var v := State();
      levels := [];
      for i := 0 to chunksize
        invariant |levels| == i
        invariant forall j :: 0 <= j < i ==> levels[j] == RampLevel(v, j)
      {
        LevelInSteps(v, range, stepsize, i);
        var level := rampStartDb + range * (rampStep as real - 1.0) + i as real * stepsize;
        assert level == RampLevel(v, i);
        levels := levels + [level];
      }
    }

    method ProcessChunk(chunk: Chunk, shared: Fader) returns (out: Chunk)
      requires Valid()
      modifies this
      ensures Valid()
      ensures State() == Advance(old(State()), shared).0
      ensures out == ApplyToChunk(pow10, Advance(old(State()), shared).1, chunk)
      ensures IsScaled(pow10, Advance(old(State()), shared).1, chunk, out)
    {
      PlanScales(pow10, Advance(old(State()), shared).1, chunk);
      PrepareProcessing(shared);
      ghost var plan := PlanOf(State());
      if rampStep == 0 {
        var waveforms := Scaled(chunk.waveforms, plan, [], true, targetGain);
        out := chunk.(waveforms := waveforms);
      } else if rampStep <= rampChunks {
        var levels := MakeRamp();
        rampStep := rampStep + 1;
        if rampStep > rampChunks {
          rampStep := 0;
        }
        var waveforms := Scaled(chunk.waveforms, plan, levels, false, 1.0);
        out := chunk.(waveforms := waveforms);
        currentDb := levels[|levels| - 1];
      } else {
        out := chunk;
        assert forall i :: 0 <= i < |chunk.waveforms| ==>
          ApplyPlan(pow10, plan, chunk.waveforms[i]) == chunk.waveforms[i];
      }
    }

    /** Multiplies every sample with the held gain or with the gain of its place on the ramp. */
    method Scaled(waveforms: seq<Waveform>, ghost plan: GainPlan, levels: seq<real>, held: bool, gain: real)
      returns (r: seq<Waveform>)
      requires if held then plan.Hold? && gain == SampleGain(pow10, plan, 0) else plan == Ramp(levels)
      ensures |r| == |waveforms|
      ensures forall c :: 0 <= c < |waveforms| ==> r[c] == ApplyPlan(pow10, plan, waveforms[c])
    {
      r := [];
      for c := 0 to |waveforms|
        invariant |r| == c
        invariant forall d :: 0 <= d < c ==> r[d] == ApplyPlan(pow10, plan, waveforms[d])
      {
        var w: Waveform := [];
        for i := 0 to |waveforms[c]|
          invariant |w| == i
          invariant forall j :: 0 <= j < i ==> w[j] == waveforms[c][j] * SampleGain(pow10, plan, j)
        {
          var g := if held then gain else if i < |levels| then LinearGain(pow10, levels[i]) else 1.0;
          w := w + [waveforms[c][i] * g];
        }
        ghost var scaled := ApplyPlan(pow10, plan, waveforms[c]);
        assert forall j :: 0 <= j < |w| ==> w[j] == scaled[j];
        assert w == scaled;
        r := r + [w];
      }
    }
  }
}
