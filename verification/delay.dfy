/** The delay filter: a queue of whole samples, followed by a second stage for what is left of the delay. The second
    stage is any state S with a step function; the filter itself uses a biquad section. */
module DelayLine {
  import opened Audio
  import Subsample

  datatype State<S> = State(queue: Waveform, stage: Option<S>)

  type StepFunction<!S> = (S, real) -> (S, real)

  // ---------------------------------------------------------------------------------------------
  // Sample by sample
  // ---------------------------------------------------------------------------------------------

  /** The queue is always full: what is pushed in at one end pushes out the oldest sample at the other. */
  function Rotate(queue: Waveform, x: real): (r: (Waveform, real))
    ensures |r.0| == |queue|
  {
    if queue == [] then (queue, x) else (queue[1..] + [x], queue[0])
  }

  function StageSingle<S>(step: StepFunction<S>, stage: Option<S>, x: real): (Option<S>, real) {
    match stage
    case None => (None, x)
    case Some(s) => var (t, y) := step(s, x); (Some(t), y)
  }

  function Single<S>(step: StepFunction<S>, d: State<S>, x: real): (State<S>, real) {
    var (queue, v) := Rotate(d.queue, x);
    var (stage, y) := StageSingle(step, d.stage, v);
    (State(queue, stage), y)
  }

  function Singles<S>(step: StepFunction<S>, d: State<S>, xs: Waveform): (r: (State<S>, Waveform))
    ensures |r.1| == |xs|
    decreases |xs|
  {
    if xs == [] then (d, [])
    else
      var (e, y) := Single(step, d, xs[0]);
      var (last, ys) := Singles(step, e, xs[1..]);
      (last, [y] + ys)
  }

  // ---------------------------------------------------------------------------------------------
  // A waveform at a time: first all samples through the queue, then all through the second stage
  // ---------------------------------------------------------------------------------------------

  function Shift(queue: Waveform, xs: Waveform): (r: (Waveform, Waveform))
    ensures |r.0| == |queue| && |r.1| == |xs|
    decreases |xs|
  {
    if xs == [] then (queue, [])
    else
      var (next, y) := Rotate(queue, xs[0]);
      var (last, ys) := Shift(next, xs[1..]);
      (last, [y] + ys)
  }

  function Staged<S>(step: StepFunction<S>, stage: Option<S>, xs: Waveform): (r: (Option<S>, Waveform))
    ensures |r.1| == |xs|
    decreases |xs|
  {
    if xs == [] then (stage, [])
    else
      var (next, y) := StageSingle(step, stage, xs[0]);
      var (last, ys) := Staged(step, next, xs[1..]);
      (last, [y] + ys)
  }

  function TwoPass<S>(step: StepFunction<S>, d: State<S>, xs: Waveform): (State<S>, Waveform) {
    var (queue, ys) := Shift(d.queue, xs);
    var (stage, zs) := Staged(step, d.stage, ys);
    (State(queue, stage), zs)
  }

  /** Processing a waveform in two passes is the same as processing its samples one by one. */
  lemma {:induction false} TwoPassIsSingles<S>(step: StepFunction<S>, d: State<S>, xs: Waveform)
    ensures TwoPass(step, d, xs) == Singles(step, d, xs)
    decreases |xs|
  {
    if xs != [] {
      var e := Single(step, d, xs[0]).0;
      TwoPassIsSingles(step, e, xs[1..]);
      var (queue, y) := Rotate(d.queue, xs[0]);
      var ys := Shift(queue, xs[1..]).1;
      assert ([y] + ys)[1..] == ys;
    }
  }

  /** The queue puts its contents in front of the input and keeps the end. */
  lemma {:induction false} ShiftPrepends(queue: Waveform, xs: Waveform)
    ensures Shift(queue, xs).0 == (queue + xs)[|xs|..] && Shift(queue, xs).1 == (queue + xs)[..|xs|]
    decreases |xs|
  {
    if xs != [] {
      var (next, y) := Rotate(queue, xs[0]);
      ShiftPrepends(next, xs[1..]);
      assert [y] + (next + xs[1..]) == queue + xs;
      var all, rest := queue + xs, next + xs[1..];
      assert rest[|xs| - 1..] == all[|xs|..] && [y] + rest[..|xs| - 1] == all[..|xs|];
    } else {
      assert queue + xs == queue;
    }
  }

  // ---------------------------------------------------------------------------------------------
  // Streams cut into chunks
  // ---------------------------------------------------------------------------------------------

  function Flat(chunks: seq<Waveform>): Waveform { if chunks == [] then [] else chunks[0] + Flat(chunks[1..]) }

  /** The chunks of a stream, one call each. */
  function Chunked<S>(step: StepFunction<S>, d: State<S>, chunks: seq<Waveform>): (State<S>, seq<Waveform>)
    decreases |chunks|
  {
    if chunks == [] then (d, [])
    else
      var (e, out) := TwoPass(step, d, chunks[0]);
      var (last, outs) := Chunked(step, e, chunks[1..]);
      (last, [out] + outs)
  }

  lemma {:induction false} SinglesAppend<S>(step: StepFunction<S>, d: State<S>, xs: Waveform, ys: Waveform)
    ensures Singles(step, d, xs + ys).0 == Singles(step, Singles(step, d, xs).0, ys).0
    ensures Singles(step, d, xs + ys).1 == Singles(step, d, xs).1 + Singles(step, Singles(step, d, xs).0, ys).1
    decreases |xs|
  {
    if xs == [] {
      assert xs + ys == ys;
      assert [] + Singles(step, d, ys).1 == Singles(step, d, ys).1;
    } else {
      assert (xs + ys)[1..] == xs[1..] + ys;
      SinglesAppend(step, Single(step, d, xs[0]).0, xs[1..], ys);
    }
  }

  /** How a stream is cut into chunks does not show, neither in the output nor in the state that is left. */
  lemma {:induction false} ChunkingDoesNotShow<S>(step: StepFunction<S>, d: State<S>, chunks: seq<Waveform>)
    ensures Flat(Chunked(step, d, chunks).1) == TwoPass(step, d, Flat(chunks)).1
    ensures Chunked(step, d, chunks).0 == TwoPass(step, d, Flat(chunks)).0
    decreases |chunks|
  {
    TwoPassIsSingles(step, d, Flat(chunks));
    if chunks != [] {
      TwoPassIsSingles(step, d, chunks[0]);
      var (e, out) := TwoPass(step, d, chunks[0]);
      ChunkingDoesNotShow(step, e, chunks[1..]);
      TwoPassIsSingles(step, e, Flat(chunks[1..]));
      SinglesAppend(step, d, chunks[0], Flat(chunks[1..]));
      var outs := Chunked(step, e, chunks[1..]).1;
      assert ([out] + outs)[1..] == outs;
    }
  }

  /** A new delay of n samples: over any run of chunks the second stage is fed n samples of silence and then the
      stream; without a second stage that is the output. */
  lemma {:induction false} StreamIsDelayed<S>(step: StepFunction<S>, n: nat, stage: Option<S>, chunks: seq<Waveform>)
    ensures var input := Flat(chunks);
            Flat(Chunked(step, State(Silence(n), stage), chunks).1) ==
            Staged(step, stage, (Silence(n) + input)[..|input|]).1
    ensures stage.None? ==>
            var input := Flat(chunks);
            Flat(Chunked(step, State(Silence(n), stage), chunks).1) == (Silence(n) + input)[..|input|]
  {
    ChunkingDoesNotShow(step, State(Silence(n), stage), chunks);
    ShiftPrepends(Silence(n), Flat(chunks));
    if stage.None? { NoStage(step, (Silence(n) + Flat(chunks))[..|Flat(chunks)|]); }
  }

  lemma {:induction false} NoStage<S>(step: StepFunction<S>, xs: Waveform)
    ensures Staged(step, None, xs).0 == None && Staged(step, None, xs).1 == xs
    decreases |xs|
  {
    if xs != [] { NoStage(step, xs[1..]); }
  }

  // ---------------------------------------------------------------------------------------------
  // Delays that are not a whole number of samples
  // ---------------------------------------------------------------------------------------------

  function Allpass(c: Subsample.Coefficients): StepFunction<Subsample.Memory> { (m, x) => Subsample.Step(c, m, x) }

  /** Sample i of a straight line. */
  ghost function At(start: real, slope: real, i: int): real { start + slope * i as real }

  ghost predicate IsLine(xs: Waveform, start: real, slope: real) {
    forall i :: 0 <= i < |xs| ==> xs[i] == At(start, slope, i)
  }

  /** A delay filter that has been fed a straight line forever, with `start` coming next. */
  ghost predicate FedALine(d: State<Subsample.Memory>, c: Subsample.Coefficients, start: real, slope: real)
    requires Subsample.UnityGain(c) && 1.0 + c.a1 + c.a2 > 0.0
  {
    var out := At(start, slope, -|d.queue|);
    && d.stage.Some?
    && IsLine(d.queue, out, slope)
    && Subsample.OnLine(c, d.stage.value, out, slope, slope * Subsample.GroupDelay(c))
  }

  lemma LineMoves(start: real, slope: real, i: int)
    ensures At(start, slope, i + 1) == At(start, slope, i) + slope &&
      At(start + slope, slope, i) == At(start, slope, i + 1)
  {
    assert slope * (i + 1) as real == slope * i as real + slope;
  }

  lemma PushKeepsLine(queue: Waveform, start: real, slope: real)
    requires IsLine(queue, At(start, slope, -|queue|), slope)
    ensures Rotate(queue, start).1 == At(start, slope, -|queue|)
    ensures IsLine(Rotate(queue, start).0, At(start + slope, slope, -|queue|), slope)
  {
  }

  lemma LineThrough(c: Subsample.Coefficients, d: State<Subsample.Memory>, start: real, slope: real)
    requires Subsample.UnityGain(c) && 1.0 + c.a1 + c.a2 > 0.0 && FedALine(d, c, start, slope)
    ensures var (e, y) := Single(Allpass(c), d, start);
            FedALine(e, c, start + slope, slope) && |e.queue| == |d.queue| &&
            y == start - Lateness(c, |d.queue|, slope)
  {
    PushKeepsLine(d.queue, start, slope);
    LineMoves(start, slope, -|d.queue|);
    LineLeaves(c, d.stage.value, |d.queue|, start, slope);
  }

  /** What comes out of the queue goes through the second stage. */
  lemma LineLeaves(c: Subsample.Coefficients, m: Subsample.Memory, queued: nat, start: real, slope: real)
    requires Subsample.UnityGain(c) && 1.0 + c.a1 + c.a2 > 0.0
    requires Subsample.OnLine(c, m, At(start, slope, 0 - queued), slope, slope * Subsample.GroupDelay(c))
    ensures Subsample.Step(c, m, At(start, slope, 0 - queued)).1 == start - Lateness(c, queued, slope)
    ensures Subsample.OnLine(c, Subsample.Step(c, m, At(start, slope, 0 - queued)).0,
                             At(start, slope, 0 - queued) + slope, slope,
                             slope * Subsample.GroupDelay(c))
  {
    Subsample.LineIsDelayed(c, m, At(start, slope, 0 - queued), slope);
    AddedLateness(start, slope, queued, Subsample.GroupDelay(c));
  }

  lemma AddedLateness(start: real, slope: real, queued: nat, delay: real)
    ensures At(start, slope, 0 - queued) - slope * delay == start - slope * (queued as real + delay)
  {
  }

  ghost function Lateness(c: Subsample.Coefficients, queued: nat, slope: real): real
    requires Subsample.UnityGain(c) && 1.0 + c.a1 + c.a2 > 0.0
  {
    slope * (queued as real + Subsample.GroupDelay(c))
  }

  lemma {:induction false} SinglesFirst<S>(step: StepFunction<S>, d: State<S>, xs: Waveform, i: nat)
    requires i < |xs|
    ensures Singles(step, d, xs).1[i] ==
            if i == 0 then Single(step, d, xs[0]).1 else Singles(step, Single(step, d, xs[0]).0, xs[1..]).1[i - 1]
  {
  }

  /** A straight line leaves the filter late by the queued samples and the group delay together. */
  lemma {:induction false} LineIsLate(c: Subsample.Coefficients, d: State<Subsample.Memory>, xs: Waveform,
                                      start: real, slope: real, late: real, i: nat)
    requires Subsample.UnityGain(c) && 1.0 + c.a1 + c.a2 > 0.0 && FedALine(d, c, start, slope)
    requires IsLine(xs, start, slope) && i < |xs| && late == Lateness(c, |d.queue|, slope)
    ensures Singles(Allpass(c), d, xs).1[i] == xs[i] - late
    decreases i
  {
    FirstOnLine(xs, start, slope);
    LineThrough(c, d, start, slope);
    SinglesFirst(Allpass(c), d, xs, i);
    if i > 0 {
      LineIsLate(c, Single(Allpass(c), d, start).0, xs[1..], start + slope, slope, late, i - 1);
    }
  }

  lemma FirstOnLine(xs: Waveform, start: real, slope: real)
    requires xs != [] && IsLine(xs, start, slope)
    ensures xs[0] == start && IsLine(xs[1..], start + slope, slope)
  {
  }

  lemma {:induction false} ChunkedLineIsLate(c: Subsample.Coefficients, d: State<Subsample.Memory>,
                                             chunks: seq<Waveform>, start: real, slope: real, late: real, i: nat)
    requires Subsample.UnityGain(c) && 1.0 + c.a1 + c.a2 > 0.0 && FedALine(d, c, start, slope)
    requires IsLine(Flat(chunks), start, slope) && i < |Flat(chunks)| && late == Lateness(c, |d.queue|, slope)
    ensures |Flat(Chunked(Allpass(c), d, chunks).1)| == |Flat(chunks)|
    ensures Flat(Chunked(Allpass(c), d, chunks).1)[i] == Flat(chunks)[i] - late
  {
    ChunkingDoesNotShow(Allpass(c), d, chunks);
    TwoPassIsSingles(Allpass(c), d, Flat(chunks));
    LineIsLate(c, d, Flat(chunks), start, slope, late, i);
  }

  lemma RequestedLateness(delay: real, c: Subsample.Coefficients, queued: nat, slope: real)
    requires delay >= 0.1 && Subsample.BuildSubsampleBiquad(delay) == (queued, Some(c))
    ensures Subsample.UnityGain(c) && 1.0 + c.a1 + c.a2 > 0.0 && slope * delay == Lateness(c, queued, slope)
  {
    Subsample.PartsAddUp(delay, queued, c);
    SameMultiple(slope, delay, queued as real + Subsample.GroupDelay(c));
  }

  lemma SameMultiple(s: real, a: real, b: real)
    requires a == b
    ensures s * a == s * b
  {
  }

  /** Requests of a tenth of a sample and more are met to the letter: in the steady state a straight line comes out,
      processed in chunks of any size, late by exactly the requested number of samples. */
  lemma {:induction false} RequestIsMet(delay: real, c: Subsample.Coefficients, d: State<Subsample.Memory>,
                                        chunks: seq<Waveform>, start: real, slope: real, i: nat)
    requires delay >= 0.1 && Subsample.BuildSubsampleBiquad(delay) == (|d.queue|, Some(c))
    requires Subsample.UnityGain(c) && 1.0 + c.a1 + c.a2 > 0.0 && FedALine(d, c, start, slope)
    requires IsLine(Flat(chunks), start, slope) && i < |Flat(chunks)|
    ensures |Flat(Chunked(Allpass(c), d, chunks).1)| == |Flat(chunks)|
    ensures Flat(Chunked(Allpass(c), d, chunks).1)[i] == Flat(chunks)[i] - slope * delay
  {
    RequestedLateness(delay, c, |d.queue|, slope);
    ChunkedLineIsLate(c, d, chunks, start, slope, slope * delay, i);
  }

  /** A sample of a waveform, or of the two samples before it. */
  ghost function Past(xs: Waveform, last: real, oneBefore: real, i: int): real
    requires -2 <= i < |xs|
  {
    if i == -2 then oneBefore else if i == -1 then last else xs[i]
  }

  /** What a step keeps, about the last two samples that came in and went out, holds for every sample of a waveform. */
  lemma {:induction false} StepByStep<S(!new)>(
      step: StepFunction<S>, s: S, xs: Waveform, x1: real, x2: real, y1: real, y2: real, i: nat,
      knows: (S, real, real, real, real) -> bool, law: (real, real, real, real, real, real) -> bool)
    requires forall s, x, x1, x2, y1, y2 :: knows(s, x1, x2, y1, y2) ==>
      law(x, x1, x2, step(s, x).1, y1, y2) && knows(step(s, x).0, x, x1, step(s, x).1, y1)
    requires knows(s, x1, x2, y1, y2) && i < |xs|
    ensures var ys := Staged(step, Some(s), xs).1;
            law(xs[i], Past(xs, x1, x2, i - 1), Past(xs, x1, x2, i - 2),
                ys[i], Past(ys, y1, y2, i - 1), Past(ys, y1, y2, i - 2))
    decreases i
  {
    var (next, y) := step(s, xs[0]);
    var ys := Staged(step, Some(next), xs[1..]).1;
    assert Staged(step, Some(s), xs).1 == [y] + ys;
    if i > 0 {
      StepByStep(step, next, xs[1..], xs[0], x1, y, y1, i - 1, knows, law);
    }
  }

  /** A section that has seen these last two samples and has put out those. */
  ghost predicate Remembers(c: Subsample.Coefficients, m: Subsample.Memory, x1: real, x2: real, y1: real, y2: real) {
    m.s1 == c.b1 * x1 + c.b2 * x2 - c.a1 * y1 - c.a2 * y2 && m.s2 == c.b2 * x1 - c.a2 * y1
  }

  /** The difference equation of a second order section. */
  ghost predicate Equation(c: Subsample.Coefficients, x: real, x1: real, x2: real, y: real, y1: real, y2: real) {
    y == c.b0 * x + c.b1 * x1 + c.b2 * x2 - c.a1 * y1 - c.a2 * y2
  }

  lemma StepObeys(c: Subsample.Coefficients, m: Subsample.Memory, x: real, x1: real, x2: real, y1: real, y2: real)
    requires Remembers(c, m, x1, x2, y1, y2)
    ensures var (next, y) := Subsample.Step(c, m, x);
            Equation(c, x, x1, x2, y, y1, y2) && Remembers(c, next, x, x1, y, y1)
  {
  }

  /** Whatever the section has seen before: every sample it puts out obeys the difference equation. */
  lemma {:induction false} DifferenceEquation(c: Subsample.Coefficients, m: Subsample.Memory, xs: Waveform,
                                              x1: real, x2: real, y1: real, y2: real, i: nat)
    requires Remembers(c, m, x1, x2, y1, y2) && i < |xs|
    ensures var ys := Staged(Allpass(c), Some(m), xs).1;
            Equation(c, xs[i], Past(xs, x1, x2, i - 1), Past(xs, x1, x2, i - 2),
                     ys[i], Past(ys, y1, y2, i - 1), Past(ys, y1, y2, i - 2))
  {
    ghost var knows := (m, x1, x2, y1, y2) => Remembers(c, m, x1, x2, y1, y2);
    ghost var law := (x, x1, x2, y, y1, y2) => Equation(c, x, x1, x2, y, y1, y2);
    forall m, x, x1, x2, y1, y2 | knows(m, x1, x2, y1, y2)
      ensures law(x, x1, x2, Allpass(c)(m, x).1, y1, y2) && knows(Allpass(c)(m, x).0, x, x1, Allpass(c)(m, x).1, y1)
    {
      StepObeys(c, m, x, x1, x2, y1, y2);
    }
    StepByStep(Allpass(c), m, xs, x1, x2, y1, y2, i, knows, law);
  }

  /** From its first sample on a new delay filter puts out what the difference equation makes of the silence in its
      queue
      and the stream behind that. */
  lemma {:induction false} NewDelayFilters(c: Subsample.Coefficients, n: nat, chunks: seq<Waveform>, i: nat)
    requires i < |Flat(chunks)|
    ensures var xs := (Silence(n) + Flat(chunks))[..|Flat(chunks)|];
            var ys := Flat(Chunked(Allpass(c), State(Silence(n), Some(Subsample.Memory(0.0, 0.0))), chunks).1);
            |ys| == |xs| &&
            Equation(c, xs[i], Past(xs, 0.0, 0.0, i - 1), Past(xs, 0.0, 0.0, i - 2),
                     ys[i], Past(ys, 0.0, 0.0, i - 1), Past(ys, 0.0, 0.0, i - 2))
  {
    var m := Subsample.Memory(0.0, 0.0);
    StreamIsDelayed(Allpass(c), n, Some(m), chunks);
    DifferenceEquation(c, m, (Silence(n) + Flat(chunks))[..|Flat(chunks)|], 0.0, 0.0, 0.0, 0.0, i);
  }

  // ---------------------------------------------------------------------------------------------
  // The objects
  // ---------------------------------------------------------------------------------------------

  /** The first n samples of a waveform have gone through the queue. */
  ghost predicate Shifting(queue: Waveform, was: Waveform, now: Waveform, waveform: Waveform, n: nat) {
    && n <= |was| == |waveform| && waveform[n..] == was[n..]
    && now == Shift(queue, was[..n]).0 && waveform[..n] == Shift(queue, was[..n]).1
  }

  lemma ShiftNothing(queue: Waveform, was: Waveform)
    ensures Shifting(queue, was, queue, was, 0)
  {
  }

  lemma ShiftOne(queue: Waveform, was: Waveform, now: Waveform, waveform: Waveform, n: nat)
    requires Shifting(queue, was, now, waveform, n) && n < |was|
    ensures Shifting(queue, was, Rotate(now, waveform[n]).0, waveform[n := Rotate(now, waveform[n]).1], n + 1)
  {
    var x := waveform[n];
    assert x == waveform[n..][0] == was[n..][0] == was[n];
    assert was[n + 1..] == was[n..][1..] && waveform[n + 1..] == waveform[n..][1..];
    assert was[..n + 1] == was[..n] + [x];
    ShiftAppend(queue, was[..n], x);
    assert waveform[n := Rotate(now, x).1][..n + 1] == waveform[..n] + [Rotate(now, x).1];
  }

  lemma {:induction false} ShiftAppend(queue: Waveform, xs: Waveform, x: real)
    ensures Shift(queue, xs + [x]).0 == Rotate(Shift(queue, xs).0, x).0
    ensures Shift(queue, xs + [x]).1 == Shift(queue, xs).1 + [Rotate(Shift(queue, xs).0, x).1]
    decreases |xs|
  {
    if xs == [] {
      assert [x][1..] == [];
    } else {
      assert (xs + [x])[1..] == xs[1..] + [x];
      ShiftAppend(Rotate(queue, xs[0]).0, xs[1..], x);
    }
  }

  /** The first n samples of a waveform have gone through the second stage. */
  ghost predicate Staging<S>(step: StepFunction<S>, first: Option<S>, was: Waveform, stage: Option<S>,
                             waveform: Waveform, n: nat) {
    && n <= |was| == |waveform| && waveform[n..] == was[n..]
    && stage == Staged(step, first, was[..n]).0 && waveform[..n] == Staged(step, first, was[..n]).1
  }

  lemma StageOne<S>(step: StepFunction<S>, first: Option<S>, was: Waveform, stage: Option<S>, waveform: Waveform,
                    n: nat)
    requires Staging(step, first, was, stage, waveform, n) && n < |was|
    ensures var (next, y) := StageSingle(step, stage, waveform[n]);
            Staging(step, first, was, next, waveform[n := y], n + 1)
  {
    var x := waveform[n];
    assert x == waveform[n..][0] == was[n..][0] == was[n];
    assert was[n + 1..] == was[n..][1..] && waveform[n + 1..] == waveform[n..][1..];
    assert was[..n + 1] == was[..n] + [x];
    StageAppend(step, first, was[..n], x);
    var y := StageSingle(step, stage, x).1;
    assert waveform[n := y][..n + 1] == waveform[..n] + [y];
  }

  lemma {:induction false} StageAppend<S>(step: StepFunction<S>, stage: Option<S>, xs: Waveform, x: real)
    ensures Staged(step, stage, xs + [x]).0 == StageSingle(step, Staged(step, stage, xs).0, x).0
    ensures Staged(step, stage, xs + [x]).1 ==
      Staged(step, stage, xs).1 + [StageSingle(step, Staged(step, stage, xs).0, x).1]
    decreases |xs|
  {
    if xs == [] {
      assert [x][1..] == [];
    } else {
      assert (xs + [x])[1..] == xs[1..] + [x];
      StageAppend(step, StageSingle(step, stage, xs[0]).0, xs[1..], x);
    }
  }

  /** A ring buffer that is full from the start. */
  class FullRing {
    const cells: array<real>
    var oldest: nat

    ghost predicate Valid()
      reads this
    {
      oldest < cells.Length
    }

    ghost function Contents(): Waveform
      reads this, cells
      requires Valid()
    {
      cells[oldest..] + cells[..oldest]
    }

    constructor (n: nat)
      requires n > 0
      ensures Valid() && fresh(cells) && Contents() == Silence(n)
    {
      cells := new real[n](_ => 0.0);
      oldest := 0;
    }

    method PushOverwrite(x: real) returns (y: real)
      requires Valid()
      modifies this, cells
      ensures Valid() && |old(Contents())| > 0
      ensures Contents() == Rotate(old(Contents()), x).0 && y == Rotate(old(Contents()), x).1
    {
      y := cells[oldest];
      cells[oldest] := x;
      oldest := if oldest + 1 == cells.Length then 0 else oldest + 1;
    }
  }

  class Delay<S> {
    const step: StepFunction<S>
    const queue: FullRing?
    var stage: Option<S>

    ghost predicate Valid()
      reads this, queue
    {
      queue != null ==> queue.Valid()
    }

    ghost function Now(): State<S>
      requires Valid()
      reads this, queue, if queue == null then {} else {queue.cells}
    {
      State(if queue == null then [] else queue.Contents(), stage)
    }

    ghost function Frame(): set<object>
      reads this, queue
    {
      {this} + if queue == null then {} else {queue, queue.cells}
    }

    constructor (samples: nat, stage: Option<S>, step: StepFunction<S>)
      ensures Valid() && this.step == step && fresh(Frame()) && Now() == State(Silence(samples), stage)
    {
      this.step := step;
      this.stage := stage;
      if samples > 0 {
        queue := new FullRing(samples);
      } else {
        queue := null;
      }
    }

    method ProcessSingle(input: real) returns (output: real)
      requires Valid()
      modifies Frame()
      ensures Valid() && Now() == Single(step, old(Now()), input).0 && output == Single(step, old(Now()), input).1
    {
      output := input;
      if queue != null {
        output := queue.PushOverwrite(input);
      }
      if stage.Some? {
        var (next, value) := step(stage.value, output);
        stage, output := Some(next), value;
      }
    }

    /** Two passes over the waveform, each in place. */
    method ProcessWaveform(waveform: array<real>)
      requires Valid() && waveform !in Frame()
      modifies Frame(), waveform
      ensures Valid()
      ensures var (d, out) := TwoPass(step, old(Now()), old(waveform[..])); Now() == d && waveform[..] == out
    {
      ShiftInPlace(waveform);
      if stage.Some? {
        StageInPlace(waveform);
      } else {
        NoStage(step, waveform[..]);
      }
    }

    method ShiftInPlace(waveform: array<real>)
      requires Valid() && waveform !in Frame()
      modifies Frame(), waveform
      ensures Valid() && stage == old(stage)
      ensures var (q, out) := Shift(old(Now().queue), old(waveform[..])); Now().queue == q && waveform[..] == out
    {
      ghost var was, q := waveform[..], Now().queue;
      if queue != null {
        ShiftNothing(q, was);
        for i := 0 to waveform.Length
          invariant Valid() && stage == old(stage)
          invariant Shifting(q, was, Now().queue, waveform[..], i)
        {
          ShiftOne(q, was, Now().queue, waveform[..], i);
          waveform[i] := queue.PushOverwrite(waveform[i]);
        }
        assert was[..waveform.Length] == was && waveform[..waveform.Length] == waveform[..];
      } else {
        ShiftPrepends([], was);
        assert [] + was == was;
      }
    }

    method StageInPlace(waveform: array<real>)
      requires Valid() && waveform !in Frame() && stage.Some?
      modifies this, waveform
      ensures Valid() && Now().queue == old(Now().queue)
      ensures var (s, out) := Staged(step, old(stage), old(waveform[..])); stage == s && waveform[..] == out
    {
      ghost var was := waveform[..];
      for i := 0 to waveform.Length
        invariant Valid() && stage.Some? && Now().queue == old(Now().queue)
        invariant Staging(step, old(stage), was, stage, waveform[..], i)
      {
        StageOne(step, old(stage), was, stage, waveform[..], i);
        var (next, value) := step(stage.value, waveform[i]);
        stage, waveform[i] := Some(next), value;
      }
      assert was[..waveform.Length] == was && waveform[..waveform.Length] == waveform[..];
    }
  }

  /** The filter for a requested delay starts out silent. */
  method FromRequest(delay: real, subsample: bool) returns (d: Delay<Subsample.Memory>)
    requires delay >= 0.0
    ensures fresh(d) && d.Valid()
    ensures var (samples, c) := Subsample.Parts(delay, subsample);
      && d.Now() == State(Silence(samples), if c.Some? then Some(Subsample.Memory(0.0, 0.0)) else None)
      && (c.Some? ==> d.step == Allpass(c.value))
    ensures !subsample ==> d.Now().stage.None? && -0.5 < |d.Now().queue| as real - delay <= 0.5
    ensures subsample ==> (d.Now().stage.Some? <==> delay >= 0.1)
  {
    Subsample.PartsMeetTheRequest(delay, subsample);
    var (samples, c) := Subsample.Parts(delay, subsample);
    if c.Some? {
      d := new Delay(samples, Some(Subsample.Memory(0.0, 0.0)), Allpass(c.value));
    } else {
      d := new Delay(samples, None, (m, x) => (m, x));
    }
  }
}
