/** When leaving out capture channels shows: a processor in front of the first mixer, and a mask that is out of date. */
module MaskLimits {
  import opened Audio
  import opened VolumeControl
  import C = Config
  import opened Mixers
  import opened Validation
  import opened Pipelines
  import opened Parallel
  import opened Masking
  import R = Reconfigure

  // ---------------------------------------------------------------------------------------------
  // What arrives at the first mixer
  // ---------------------------------------------------------------------------------------------

  function MaskedAll(mask: seq<bool>, chunks: seq<Chunk>): (r: seq<Chunk>)
    requires AreWide(chunks, |mask|)
    ensures |r| == |chunks| && AreWide(r, |mask|)
    ensures forall i :: 0 <= i < |r| ==> r[i] == Masked(mask, chunks[i])
  {
    seq(|chunks|, i requires 0 <= i < |chunks| => Masked(mask, chunks[i]))
  }

  ghost predicate AgreeingStreams(used: seq<bool>, a: seq<Chunk>, b: seq<Chunk>) {
    |a| == |b| && forall i :: 0 <= i < |a| ==> AgreeOnUsed(used, a[i], b[i])
  }

  /** Whatever is captured, behind these steps the mask does not show on any used channel. */
  ghost predicate Unseen(w: C.World, steps: seq<Step>, used: seq<bool>, mask: seq<bool>) {
    |mask| == |used| && Fits(steps, |used|) &&
    forall chunks: seq<Chunk> :: AreWide(chunks, |used|) ==> UnseenIn(w, steps, used, mask, chunks)
  }

  ghost predicate UnseenIn(w: C.World, steps: seq<Step>, used: seq<bool>, mask: seq<bool>, chunks: seq<Chunk>)
    requires |mask| == |used| && Fits(steps, |used|) && AreWide(chunks, |used|)
  {
    AgreeingStreams(used, RunChunks(w, steps, chunks, |used|), RunChunks(w, steps, MaskedAll(mask, chunks), |used|))
  }

  /** The mask does not show at the first active mixer, which is step k of the configuration. */
  ghost predicate UnseenByMixer(w: C.World, conf: C.Configuration, k: nat, used: seq<bool>, mask: seq<bool>) {
    Buildable(conf) && k <= |Steps(conf)| && Unseen(w, BuildSteps(w, conf, k), used, mask)
  }

  ghost predicate IsMask(conf: C.Configuration, used: seq<bool>) {
    |used| == conf.devices.captureChannels && forall c :: 0 <= c < |used| ==> (used[c] <==> IsUsed(conf, c))
  }

  // ---------------------------------------------------------------------------------------------
  // Filters only
  // ---------------------------------------------------------------------------------------------

  ghost predicate OnlyFilters(steps: seq<Step>) { forall j :: 0 <= j < |steps| ==> steps[j].FilterGroup? }

  /** Filters of unused channels do not touch the others. */
  lemma {:induction false} FiltersKeepAgreement(w: C.World, used: seq<bool>, s: seq<Step>, t: seq<Step>, a: Chunk,
                                                b: Chunk)
    requires AgreeOnUsed(used, a, b) && AgreeingSteps(used, s, t) && OnlyFilters(s)
    requires Fits(s, |used|) && Fits(t, |used|)
    ensures AgreeOnUsed(used, RunSteps(w, s, a).1, RunSteps(w, t, b).1)
    ensures AgreeingSteps(used, RunSteps(w, s, a).0, RunSteps(w, t, b).0) && OnlyFilters(RunSteps(w, s, a).0)
    decreases |s|
  {
    if s != [] {
      assert OnlyFilters(s[1..]) by {
        assert forall j :: 0 <= j < |s[1..]| ==> s[1..][j] == s[j + 1];
      }
      var (s0, a') := RunStep(w, s[0], a);
      var (t0, b') := RunStep(w, t[0], b);
      FiltersKeepAgreement(w, used, s[1..], t[1..], a', b');
      var s', t' := RunSteps(w, s[1..], a').0, RunSteps(w, t[1..], b').0;
      assert ([s0] + s')[1..] == s' && ([t0] + t')[1..] == t';
    }
  }

  lemma {:induction false} FilteredStreamsAgree(w: C.World, used: seq<bool>, s: seq<Step>, t: seq<Step>, a: seq<Chunk>,
                                                b: seq<Chunk>)
    requires AgreeingStreams(used, a, b) && AgreeingSteps(used, s, t) && OnlyFilters(s)
    requires Fits(s, |used|) && Fits(t, |used|)
    ensures AreWide(a, |used|) && AreWide(b, |used|)
    ensures AgreeingStreams(used, RunChunks(w, s, a, |used|), RunChunks(w, t, b, |used|))
    decreases |a|
  {
    if a != [] {
      FiltersKeepAgreement(w, used, s, t, a[0], b[0]);
      FilteredStreamsAgree(w, used, RunSteps(w, s, a[0]).0, RunSteps(w, t, b[0]).0, a[1..], b[1..]);
    }
  }

  /** Every used channel is let through. */
  ghost predicate Covers(mask: seq<bool>, used: seq<bool>) {
    |mask| == |used| && forall i :: 0 <= i < |used| && used[i] ==> mask[i]
  }

  lemma {:induction false} CoveringMaskIsUnseen(w: C.World, steps: seq<Step>, used: seq<bool>, mask: seq<bool>)
    requires Fits(steps, |used|) && OnlyFilters(steps) && Covers(mask, used)
    ensures Unseen(w, steps, used, mask)
  {
    AgreesWithItself(used, steps);
    forall chunks: seq<Chunk> | AreWide(chunks, |used|) ensures UnseenIn(w, steps, used, mask, chunks) {
      FilteredStreamsAgree(w, used, steps, steps, chunks, MaskedAll(mask, chunks));
    }
  }

  // ---------------------------------------------------------------------------------------------
  // Processors in front of the first mixer
  // ---------------------------------------------------------------------------------------------

  function Quiet(ws: seq<Waveform>): (r: seq<Waveform>)
    ensures |r| == |ws|
  {
    seq(|ws|, i requires 0 <= i < |ws| => Silence(|ws[i]|))
  }

  /** A processor that falls silent as soon as a channel is missing. */
  function QuietWithoutAll(ws: seq<Waveform>): (r: seq<Waveform>) { if [] in ws then Quiet(ws) else ws }

  /** The same world with filters that do nothing and with such processors. */
  function Sensitive(w: C.World): C.World {
    w.(filter := (c, s, x) => (s, x), processor := (c, s, ws) => (s, QuietWithoutAll(ws)))
  }

  /** Two worlds that check, build and update everything alike. */
  ghost predicate SameChecks(v: C.World, w: C.World) { v.(filter := w.filter, processor := w.processor) == w }

  lemma AcceptedAlike(v: C.World, w: C.World, conf: C.Configuration)
    requires SameChecks(v, w) && Accepted(w, conf)
    ensures Accepted(v, conf)
  {
    forall i | 0 <= i < |Steps(conf)| ensures StepIsOkAt(v, conf, i) {
      assert StepIsOkAt(w, conf, i);
    }
  }

  ghost predicate NoMixers(steps: seq<Step>) {
    forall j :: 0 <= j < |steps| ==> steps[j].FilterGroup? || steps[j].ProcessorStep?
  }

  predicate HasProcessor(steps: seq<Step>) { steps != [] && (steps[0].ProcessorStep? || HasProcessor(steps[1..])) }

  lemma {:induction false} IdleFilters(w: C.World, fs: seq<Filter>, x: Waveform)
    ensures RunFilters(Sensitive(w), fs, x).1 == x
  {
    if fs != [] { IdleFilters(w, fs[..|fs| - 1], x); }
  }

  lemma SensitiveStep(w: C.World, s: Step, c: Chunk)
    requires StepFits(s, |c.waveforms|) && (s.FilterGroup? || s.ProcessorStep?)
    ensures RunStep(Sensitive(w), s, c).1 ==
      if s.ProcessorStep? then c.(waveforms := QuietWithoutAll(c.waveforms)) else c
  {
    if s.FilterGroup? {
      IdleFilters(w, s.filters, c.waveforms[s.channel]);
      assert c.waveforms[s.channel := c.waveforms[s.channel]] == c.waveforms;
    }
  }

  lemma QuietStaysQuiet(ws: seq<Waveform>)
    ensures [] in ws ==> [] in Quiet(ws)
    ensures QuietWithoutAll(QuietWithoutAll(ws)) == QuietWithoutAll(ws)
  {
    if [] in ws {
      var i :| 0 <= i < |ws| && ws[i] == [];
      assert Quiet(ws)[i] == [];
      assert Quiet(Quiet(ws)) == Quiet(ws);
    }
  }

  /** In that world a chunk passes unchanged, or is silenced by the first processor when a channel is missing. */
  lemma {:induction false} SensitiveSteps(w: C.World, steps: seq<Step>, c: Chunk)
    requires Fits(steps, |c.waveforms|) && NoMixers(steps)
    ensures RunSteps(Sensitive(w), steps, c).1 ==
      if HasProcessor(steps) then c.(waveforms := QuietWithoutAll(c.waveforms)) else c
    decreases |steps|
  {
    if steps != [] {
      assert NoMixers(steps[1..]) by {
        assert forall j :: 0 <= j < |steps[1..]| ==> steps[1..][j] == steps[j + 1];
      }
      SensitiveStep(w, steps[0], c);
      QuietStaysQuiet(c.waveforms);
      SensitiveSteps(w, steps[1..], RunStep(Sensitive(w), steps[0], c).1);
    }
  }

  function Tone(channels: nat): Chunk { Chunk(1, seq(channels, _ => [1.0])) }

  lemma {:induction false} ProcessorShowsTheMask(w: C.World, steps: seq<Step>, used: seq<bool>, on: nat, off: nat)
    requires Fits(steps, |used|) && NoMixers(steps) && HasProcessor(steps)
    requires on < |used| && off < |used| && used[on] && !used[off]
    ensures !Unseen(Sensitive(w), steps, used, used)
  {
    var v, tone := Sensitive(w), Tone(|used|);
    var masked := Masked(used, tone);
    SensitiveSteps(w, steps, tone);
    SensitiveSteps(w, steps, masked);
    assert [] !in tone.waveforms;
    assert masked.waveforms[off] == [];
    FirstChunk(v, steps, [tone], |used|);
    FirstChunk(v, steps, MaskedAll(used, [tone]), |used|);
    assert Quiet(masked.waveforms)[on] == Silence(1) && Silence(1)[0] == 0.0;
    assert !UnseenIn(v, steps, used, used, [tone]);
  }

  lemma {:induction false} BuiltBeforeMixer(w: C.World, conf: C.Configuration, n: nat)
    requires Buildable(conf) && n <= |Steps(conf)| && forall j :: 0 <= j < n ==> ActiveMixer(conf, Steps(conf)[j]).None?
    ensures NoMixers(BuildSteps(w, conf, n))
    ensures HasProcessor(BuildSteps(w, conf, n)) <==>
            exists j :: 0 <= j < n && Steps(conf)[j].ProcessorStep? && !Steps(conf)[j].IsBypassed()
  {
    for i := 0 to n
      invariant NoMixers(BuildSteps(w, conf, i))
      invariant HasProcessor(BuildSteps(w, conf, i)) <==>
                exists j :: 0 <= j < i && Steps(conf)[j].ProcessorStep? && !Steps(conf)[j].IsBypassed()
    {
      assert StepBuildableAt(conf, i);
      var more := BuildStep(w, conf, Steps(conf)[i], WidthAt(conf, i));
      HasProcessorAppend(BuildSteps(w, conf, i), more);
      NoMixersAppend(BuildSteps(w, conf, i), more);
      BuiltProcessor(w, conf, i);
    }
  }

  lemma NoMixersAppend(a: seq<Step>, b: seq<Step>)
    ensures NoMixers(a) && NoMixers(b) ==> NoMixers(a + b)
  {
  }

  lemma {:induction false} HasProcessorAppend(a: seq<Step>, b: seq<Step>)
    ensures HasProcessor(a + b) <==> HasProcessor(a) || HasProcessor(b)
    decreases |a|
  {
    if a == [] {
      assert a + b == b;
    } else {
      assert (a + b)[1..] == a[1..] + b;
      HasProcessorAppend(a[1..], b);
    }
  }

  lemma {:induction false} OnlyGroups(steps: seq<Step>)
    requires OnlyFilters(steps)
    ensures !HasProcessor(steps)
    decreases |steps|
  {
    if steps != [] {
      assert forall j :: 0 <= j < |steps[1..]| ==> steps[1..][j] == steps[j + 1];
      OnlyGroups(steps[1..]);
    }
  }

  lemma {:induction false} BuiltProcessor(w: C.World, conf: C.Configuration, i: nat)
    requires i < |Steps(conf)| && StepBuildableAt(conf, i) && ActiveMixer(conf, Steps(conf)[i]).None?
    ensures var built := BuildStep(w, conf, Steps(conf)[i], WidthAt(conf, i));
            NoMixers(built) && (HasProcessor(built) <==> Steps(conf)[i].ProcessorStep? && !Steps(conf)[i].IsBypassed())
  {
    var built := BuildStep(w, conf, Steps(conf)[i], WidthAt(conf, i));
    if !(Steps(conf)[i].ProcessorStep? && !Steps(conf)[i].IsBypassed()) { OnlyGroups(built); }
  }

  /** For every accepted configuration with an active mixer, a used and an unused channel: whatever the filters and
      processors do, the mask does not show at the first mixer, if and only if no active processor comes before it. */
  lemma UnseenIffNoProcessorBefore(
      w: C.World, conf: C.Configuration, used: seq<bool>, k: nat, on: nat, off: nat)
    requires Accepted(w, conf) && Buildable(conf) && FirstActiveMixerAt(conf, k) && IsMask(conf, used)
    requires on < |used| && off < |used| && used[on] && !used[off]
    ensures (forall v: C.World :: SameChecks(v, w) ==> UnseenByMixer(v, conf, k, used, used))
            <==> !ProcessorBeforeFirstMixer(conf)
  {
    if ProcessorBeforeFirstMixer(conf) {
      var v := Sensitive(w);
      assert SameChecks(v, w);
      MixerlessFits(v, w, conf, used, k);
      BuiltBeforeMixer(v, conf, k);
      OnlyOneFirst(conf, k);
      ProcessorShowsTheMask(w, BuildSteps(v, conf, k), used, on, off);
      assert !UnseenByMixer(v, conf, k, used, used);
    } else {
      forall v: C.World | SameChecks(v, w) ensures UnseenByMixer(v, conf, k, used, used) {
        MixerlessFits(v, w, conf, used, k);
        OnlyFiltersBefore(v, conf, k);
        CoveringMaskIsUnseen(v, BuildSteps(v, conf, k), used, used);
      }
    }
  }

  lemma OnlyOneFirst(conf: C.Configuration, k: nat)
    requires FirstActiveMixerAt(conf, k)
    ensures ProcessorBeforeFirstMixer(conf) <==>
            exists j :: 0 <= j < k && Steps(conf)[j].ProcessorStep? && !Steps(conf)[j].IsBypassed()
  {
    assert forall i: nat :: FirstActiveMixerAt(conf, i) ==> i == k;
  }

  lemma {:induction false} MixerlessFits(v: C.World, w: C.World, conf: C.Configuration, used: seq<bool>, k: nat)
    requires Accepted(w, conf) && Buildable(conf) && SameChecks(v, w) && FirstActiveMixerAt(conf, k) &&
      IsMask(conf, used)
    ensures Accepted(v, conf) && Fits(BuildSteps(v, conf, k), |used|)
  {
    AcceptedAlike(v, w, conf);
    BuildStepsFit(v, conf, k);
  }

  // ---------------------------------------------------------------------------------------------
  // A mask that is out of date
  // ---------------------------------------------------------------------------------------------

  lemma {:induction false} LengthsStay(w: C.World, steps: seq<Step>, c: Chunk, i: nat)
    requires Fits(steps, |c.waveforms|) && OnlyFilters(steps) && i < |c.waveforms|
    ensures |RunSteps(w, steps, c).1.waveforms| == |c.waveforms|
    ensures |RunSteps(w, steps, c).1.waveforms[i]| == |c.waveforms[i]|
    decreases |steps|
  {
    if steps != [] {
      assert forall j :: 0 <= j < |steps[1..]| ==> steps[1..][j] == steps[j + 1];
      LengthsStay(w, steps[1..], RunStep(w, steps[0], c).1, i);
    }
  }

  lemma {:induction false} MissingChannelShows(w: C.World, steps: seq<Step>, used: seq<bool>, mask: seq<bool>, c: nat)
    requires Fits(steps, |used|) && OnlyFilters(steps) && |mask| == |used| && c < |used| && used[c] && !mask[c]
    ensures !Unseen(w, steps, used, mask)
  {
    var tone := Tone(|used|);
    LengthsStay(w, steps, tone, c);
    LengthsStay(w, steps, Masked(mask, tone), c);
    FirstChunk(w, steps, [tone], |used|);
    FirstChunk(w, steps, MaskedAll(mask, [tone]), |used|);
    assert !UnseenIn(w, steps, used, mask, [tone]);
  }

  lemma {:induction false} FirstChunk(w: C.World, steps: seq<Step>, chunks: seq<Chunk>, width: nat)
    requires Fits(steps, width) && AreWide(chunks, width) && chunks != []
    ensures RunChunks(w, steps, chunks, width)[0] == RunSteps(w, steps, chunks[0]).1
  {
  }

  /** Chunks in flight may carry the mask of an earlier configuration. With no processor before the first mixer of the
      new one, that does not show there if and only if the old mask lets all channels through that are used now. */
  lemma OldMaskIsUnseenIff(w: C.World, conf: C.Configuration, used: seq<bool>, mask: seq<bool>, k: nat)
    requires Accepted(w, conf) && Buildable(conf) && FirstActiveMixerAt(conf, k) && !ProcessorBeforeFirstMixer(conf)
    requires IsMask(conf, used) && |mask| == |used|
    ensures UnseenByMixer(w, conf, k, used, mask) <==> Covers(mask, used)
  {
    MixerlessFits(w, w, conf, used, k);
    OnlyFiltersBefore(w, conf, k);
    if Covers(mask, used) {
      CoveringMaskIsUnseen(w, BuildSteps(w, conf, k), used, mask);
    } else {
      var c :| 0 <= c < |used| && used[c] && !mask[c];
      MissingChannelShows(w, BuildSteps(w, conf, k), used, mask, c);
    }
  }

  /** Each chunk carries some mask that lets the used channels through. */
  ghost predicate CoveredInputs(used: seq<bool>, masks: seq<seq<bool>>, inputs: seq<Input>, masked: seq<Input>) {
    |masks| == |masked| == |inputs| &&
    forall i :: 0 <= i < |inputs| ==>
      |inputs[i].chunk.waveforms| == |used| && Covers(masks[i], used) &&
      masked[i] == inputs[i].(chunk := Masked(masks[i], inputs[i].chunk))
  }

  /** Then no output of any run shows which masks the chunks carried. */
  lemma {:induction false} OldMasksAreInvisible(w: C.World, conf: C.Configuration, used: seq<bool>, volume: VolumeState,
                                                masks: seq<seq<bool>>, inputs: seq<Input>, masked: seq<Input>)
    requires Accepted(w, conf) && Buildable(conf) && !ProcessorBeforeFirstMixer(conf) && IsMask(conf, used)
    requires volume.chunksize > 0 && CoveredInputs(used, masks, inputs, masked)
    ensures Ready(Live(Build(w, conf), volume), |used|) && Width(inputs, |used|) && Width(masked, |used|)
    ensures RunAll(w, Live(Build(w, conf), volume), inputs, |used|).1 ==
      RunAll(w, Live(Build(w, conf), volume), masked, |used|).1
  {
    OnlyUsedChannelsMatter(w, conf, used, volume, inputs, masked);
  }

  /** A change of parameters, after which the live pipeline is kept, never moves the set of used channels. */
  lemma ParameterChangeKeepsMask(current: C.Configuration, next: C.Configuration, change: R.ConfigChange, channel: nat)
    requires R.IsDiff(current, next, change) && change.FilterParameters?
    ensures IsUsed(current, channel) <==> IsUsed(next, channel)
  {
    assert forall i :: 0 <= i < |Steps(current)| ==>
      ActiveMixer(current, Steps(current)[i]) == ActiveMixer(next, Steps(next)[i]);
    assert forall k: nat :: FirstActiveMixerAt(current, k) <==> FirstActiveMixerAt(next, k);
  }
}
