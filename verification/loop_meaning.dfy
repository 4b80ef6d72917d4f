/** What comes out of the processing loop, and which configuration it goes by. */
module LoopMeaning {
  import opened Audio
  import opened VolumeControl
  import C = Config
  import opened Mixers
  import opened Validation
  import opened Pipelines
  import opened Parallel
  import opened Reconfigure
  import opened Engine
  import opened Semantics

  /** The audio of the rounds up to the end of the stream, each chunk with its fader reading. */
  ghost function AudioIn(rounds: seq<Round>): seq<Input>
    decreases |rounds|
  {
    if rounds == [] || rounds[0].message.EndOfStream? then []
    else
      (if rounds[0].message.AudioData? then [Input(rounds[0].message.chunk, rounds[0].target)] else [])
      + AudioIn(rounds[1..])
  }

  /** The chunks among the messages sent on. */
  ghost function AudioOut(sent: seq<AudioMessage>): seq<Chunk>
    decreases |sent|
  {
    if sent == [] then []
    else (if sent[0].AudioData? then [sent[0].chunk] else []) + AudioOut(sent[1..])
  }

  /** Rounds in which a message of the supervisor is waiting, up to the end of the stream. */
  ghost function WaitingRounds(rounds: seq<Round>): nat
    decreases |rounds|
  {
    if rounds == [] || rounds[0].message.EndOfStream? then 0
    else (if rounds[0].configWaiting then 1 else 0) + WaitingRounds(rounds[1..])
  }

  lemma {:induction false} OneMoreOut(out: AudioMessage, outs: seq<AudioMessage>)
    ensures AudioOut([out] + outs) == (if out.AudioData? then [out.chunk] else []) + AudioOut(outs)
  {
    assert ([out] + outs)[1..] == outs;
  }

  /** No message is left waiting: every round that finds one takes one. */
  lemma {:induction false} EveryMessageIsTaken(w: C.World, msgs: seq<Message>, p: Progress, rounds: seq<Round>)
    requires p.applied <= |msgs|
    ensures LoopRun(w, msgs, p, rounds).0.applied == MinNat(|msgs|, p.applied + WaitingRounds(rounds))
    decreases |rounds|
  {
    if rounds != [] && !rounds[0].message.EndOfStream? {
      var live := Handled(w, p.live, rounds[0].message, rounds[0].target).0;
      var next := if rounds[0].configWaiting && p.applied < |msgs|
                  then Progress(Changed(w, live, msgs[p.applied], rounds[0].current), p.applied + 1)
                  else p.(live := live);
      EveryMessageIsTaken(w, msgs, next, rounds[1..]);
    }
  }

  /** As long as no message is taken, the audio that is sent on is what the live pipeline makes of the audio. */
  lemma {:induction false} LoopRunsThePipeline(w: C.World, msgs: seq<Message>, p: Progress, rounds: seq<Round>,
                                               width: nat)
    requires p.applied == |msgs| || WaitingRounds(rounds) == 0
    requires Ready(p.live, width) && Width(AudioIn(rounds), width)
    ensures AudioOut(LoopRun(w, msgs, p, rounds).1) == RunAll(w, p.live, AudioIn(rounds), width).1
    ensures LoopRun(w, msgs, p, rounds).0.live == RunAll(w, p.live, AudioIn(rounds), width).0
    decreases |rounds|
  {
    if rounds != [] {
      var (live, out) := Handled(w, p.live, rounds[0].message, rounds[0].target);
      if out.EndOfStream? {
        OneMoreOut(out, []);
      } else {
        OneMoreRound(w, p.live, rounds, width);
        LoopRunsThePipeline(w, msgs, p.(live := live), rounds[1..], width);
        OneMoreOut(out, LoopRun(w, msgs, p.(live := live), rounds[1..]).1);
      }
    }
  }

  lemma {:induction false} AudioRound(w: C.World, live: Live, chunk: Chunk, target: Fader, rest: seq<Input>, width: nat)
    requires Ready(live, width) && Width([Input(chunk, target)] + rest, width)
    ensures var (next, out) := Handled(w, live, AudioData(chunk), target);
            Ready(next, width) && out.AudioData? && Width(rest, width) &&
            RunAll(w, live, [Input(chunk, target)] + rest, width) ==
              (RunAll(w, next, rest, width).0, [out.chunk] + RunAll(w, next, rest, width).1)
  {
    FirstInput(w, live, Input(chunk, target), rest, width);
  }

  lemma {:induction false} OneMoreRound(w: C.World, live: Live, rounds: seq<Round>, width: nat)
    requires rounds != [] && !rounds[0].message.EndOfStream? && Ready(live, width) && Width(AudioIn(rounds), width)
    ensures Width(AudioIn(rounds[1..]), width)
    ensures var (next, out) := Handled(w, live, rounds[0].message, rounds[0].target);
            Ready(next, width) && !out.EndOfStream? &&
            RunAll(w, live, AudioIn(rounds), width) ==
              (RunAll(w, next, AudioIn(rounds[1..]), width).0,
               (if out.AudioData? then [out.chunk] else []) + RunAll(w, next, AudioIn(rounds[1..]), width).1)
  {
    if rounds[0].message.AudioData? {
      AudioRound(w, live, rounds[0].message.chunk, rounds[0].target, AudioIn(rounds[1..]), width);
    } else {
      NothingPrepended(AudioIn(rounds[1..]));
      NothingPrepended(RunAll(w, live, AudioIn(rounds[1..]), width).1);
    }
  }

  lemma NothingPrepended<T>(s: seq<T>)
    ensures [] + s == s
  {
  }

  lemma {:induction false} FirstInput(w: C.World, live: Live, input: Input, rest: seq<Input>, width: nat)
    requires Ready(live, width) && Width([input] + rest, width)
    ensures |input.chunk.waveforms| == width && Width(rest, width)
    ensures var (next, out) := RunOne(w, live, input);
            var (last, outs) := RunAll(w, next, rest, width);
            RunAll(w, live, [input] + rest, width) == (last, [out] + outs)
  {
    assert ([input] + rest)[0] == input && ([input] + rest)[1..] == rest;
    assert forall i :: 0 <= i < |rest| ==> rest[i] == ([input] + rest)[i + 1];
  }

  /** From a pipeline that was just built, at the start or for a message, until the next message is taken: the audio
      sent on is what the configuration says of the audio that arrives. */
  lemma {:induction false} LoopMeansItsConfiguration(
      w: C.World, conf: C.Configuration, volume: VolumeState, msgs: seq<Message>, k: nat, rounds: seq<Round>)
    returns (streams: seq<seq<Chunk>>)
    requires Usable(w, conf) && volume.chunksize > 0 && Width(AudioIn(rounds), conf.devices.captureChannels)
    requires k == |msgs| || WaitingRounds(rounds) == 0
    ensures Means(w, conf, streams) && Scaled(w, volume, AudioIn(rounds), streams[0])
    ensures AudioOut(LoopRun(w, msgs, Progress(Live(Fresh(w, conf), volume), k), rounds).1) == streams[|Steps(conf)|]
  {
    streams := PipelineMeansItsConfiguration(w, conf, volume, AudioIn(rounds));
    LoopRunsThePipeline(w, msgs, Progress(Live(Fresh(w, conf), volume), k), rounds, conf.devices.captureChannels);
  }

  /** A round that takes a message other than a change of parameters ends with a new pipeline, at the volume that the
      fader
      has at that moment; one that takes a change of parameters goes on with the volume control it had. */
  lemma {:induction false} TakenMessage(w: C.World, msgs: seq<Message>, p: Progress, round: Round)
    requires p.applied < |msgs| && round.configWaiting && !round.message.EndOfStream?
    requires Usable(w, msgs[p.applied].conf)
    ensures var m := msgs[p.applied];
            var q := LoopRun(w, msgs, p, [round]).0;
            var live := Handled(w, p.live, round.message, round.target).0;
            q.applied == p.applied + 1 &&
            if m.change.FilterParameters? then
              q.live.volume == live.volume && |q.live.steps| == |live.steps| &&
              forall i :: 0 <= i < |live.steps| && UpdateIsSafe(live.steps[i], m.conf, m.change) ==>
                HandedOver(w, live.steps[i], q.live.steps[i], m.conf, m.change)
            else q.live == Live(Fresh(w, m.conf), NewVolume(w, m.conf, round.current))
  {
    var m := msgs[p.applied];
    var live := Handled(w, p.live, round.message, round.target).0;
    assert [round][1..] == [];
    if m.change.FilterParameters? {
      forall i | 0 <= i < |live.steps| && UpdateIsSafe(live.steps[i], m.conf, m.change)
        ensures HandedOver(w, live.steps[i], UpdatedSteps(w, live.steps, m.conf, m.change)[i], m.conf, m.change)
      {
        UpdateHandsOver(w, live.steps[i], m.conf, m.change);
      }
    }
  }

  /** Up to a round that takes a message and from there on: a run of the loop is a run of its two parts. */
  lemma {:induction false} RunsInParts(w: C.World, msgs: seq<Message>, p: Progress, a: seq<Round>, b: seq<Round>)
    requires forall i :: 0 <= i < |a| ==> !a[i].message.EndOfStream?
    ensures var (q, outs) := LoopRun(w, msgs, p, a);
            var (last, more) := LoopRun(w, msgs, q, b);
            LoopRun(w, msgs, p, a + b) == (last, outs + more)
    decreases |a|
  {
    if a == [] {
      assert a + b == b;
      var more := LoopRun(w, msgs, p, b).1;
      assert [] + more == more;
    } else {
      var (live, out) := Handled(w, p.live, a[0].message, a[0].target);
      var next := if a[0].configWaiting && p.applied < |msgs|
                  then Progress(Changed(w, live, msgs[p.applied], a[0].current), p.applied + 1)
                  else p.(live := live);
      assert (a + b)[1..] == a[1..] + b;
      RunsInParts(w, msgs, next, a[1..], b);
      var (q, outs) := LoopRun(w, msgs, next, a[1..]);
      var more := LoopRun(w, msgs, q, b).1;
      assert ([out] + outs) + more == [out] + (outs + more);
    }
  }

  /** A volume control that was just built holds the level it was built with as long as the fader stays there. */
  lemma {:induction false} NewVolumeHolds(w: C.World, conf: C.Configuration, current: Fader, faders: seq<Fader>, k: nat)
    requires conf.devices.chunksize > 0 && k < |faders|
    requires forall i :: 0 <= i < |faders| ==>
      Abs(Min(faders[i].db, w.volumeLimit(conf.devices)) - current.db) <= CHANGE_THRESHOLD_DB &&
      faders[i].mute == current.mute
    ensures Run(NewVolume(w, conf, current), faders).1[k] == Hold(current.mute, current.db)
  {
    HoldContinues(NewVolume(w, conf, current), faders, k);
  }

  /** The first movement of the fader starts at that level, or at the level that stands for a mute, and takes the ramp
      time of the configuration. */
  lemma {:induction false} NewVolumeRamps(w: C.World, conf: C.Configuration, current: Fader, faders: seq<Fader>, k: nat)
    requires conf.devices.chunksize > 0 && w.rampChunks(conf.devices) > 0 && k < |faders|
    requires Triggered(NewVolume(w, conf, current), faders[0])
    requires forall i :: 0 <= i < |faders| ==> faders[i] == faders[0]
    ensures w.rampChunks(conf.devices) * conf.devices.chunksize > 0
    ensures var plans := Run(NewVolume(w, conf, current), faders).1;
            var n := w.rampChunks(conf.devices);
            var size := conf.devices.chunksize;
            var level := Min(faders[0].db, w.volumeLimit(conf.devices));
            if k < n then
              plans[k].Ramp? && |plans[k].levels| == size &&
              forall i :: 0 <= i < size ==>
                plans[k].levels[i] ==
                  OnLine(if current.mute then MUTED_DB else current.db, if faders[0].mute then MUTED_DB else level,
                         n * size, k * size + i)
            else plans[k] == Hold(faders[0].mute, level)
  {
    UndisturbedRamp(NewVolume(w, conf, current), faders, k);
  }
}
