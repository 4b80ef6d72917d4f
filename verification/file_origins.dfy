/** Which bytes of a captured stream come from the file, for files of any bytes: those of the file are marked, so that
    they are told from the silence that is added also when they look like it. */
module FileOrigins {
  import opened Audio
  import opened Frames
  import opened Sounds
  import opened FileCapture

  // ---------------------------------------------------------------------------------------------
  // Marks do not show
  // ---------------------------------------------------------------------------------------------

  function MarkedParams<T>(p: Params<T>): Params<Option<T>> {
    Params(None, p.frame, p.chunkFrames, p.extraFrames, p.readBytes, p.silentLimit)
  }

  function PlainMessage<T>(m: Message<Option<T>>, zero: T): Message<T> {
    match m
    case Audio(data, valid) => Audio(Plain(data, zero), valid)
    case Pause => Pause
    case EndOfStream => EndOfStream
  }

  function PlainSent<T>(sent: seq<Message<Option<T>>>, zero: T): (r: seq<Message<T>>)
    ensures |r| == |sent|
  {
    seq(|sent|, i requires 0 <= i < |sent| => PlainMessage(sent[i], zero))
  }

  function PlainCapture<T>(c: Capture<Option<T>>, zero: T): Capture<T> {
    Capture(Plain(c.file, zero), c.read, c.extraLeft, c.silent, PlainSent(c.sent, zero), c.withheld, c.ended, c.running)
  }

  function PlainResult<T>(r: ReadResult<Option<T>>, zero: T): ReadResult<T> {
    match r
    case EndOfFile(data) => EndOfFile(Plain(data, zero))
    case Timeout(data) => Timeout(Plain(data, zero))
    case Complete(data) => Complete(Plain(data, zero))
  }

  lemma PlainSentMore<T>(sent: seq<Message<Option<T>>>, more: seq<Message<Option<T>>>, zero: T)
    ensures PlainSent(sent + more, zero) == PlainSent(sent, zero) + PlainSent(more, zero)
  {
  }

  lemma ReadFilePlain<T>(file: seq<Option<T>>, requested: nat, patience: Option<nat>, zero: T)
    ensures PlainResult(ReadFile(file, requested, patience), zero) == ReadFile(Plain(file, zero), requested, patience)
  {
    if patience.Some? && patience.value <= |file| { PlainSlice(file, 0, patience.value, zero); }
    if requested <= |file| { PlainSlice(file, 0, requested, zero); }
  }

  lemma PaddedPlain<T>(data: seq<Option<T>>, n: nat, zero: T)
    ensures Plain(data + Repeat(None, n), zero) == Plain(data, zero) + Repeat(zero, n)
  {
    PlainConcat(data, Repeat(None, n), zero);
    PlainOfSilence(n, zero);
  }

  lemma EmitPlain<T>(p: Params<T>, c: Capture<Option<T>>, data: seq<Option<T>>, valid: nat, loud: bool)
    requires p.Valid() && |data| <= p.ChunkBytes()
    ensures PlainCapture(Emit(MarkedParams(p), c, data, valid, loud), p.zero) ==
            Emit(p, PlainCapture(c, p.zero), Plain(data, p.zero), valid, loud)
  {
    PaddedPlain(data, p.ChunkBytes() - |data|, p.zero);
    var chunk := Message<Option<T>>.Audio(data + Repeat(None, p.ChunkBytes() - |data|), Count(valid, p.frame));
    PlainSentMore(c.sent, [chunk], p.zero);
    PlainSentMore(c.sent, [Message<Option<T>>.Pause], p.zero);
    assert PlainSent([chunk], p.zero) == [PlainMessage(chunk, p.zero)];
    assert PlainSent([Message<Option<T>>.Pause], p.zero) == [Pause];
  }

  lemma {:induction false} SilentChunksPlain<T>(p: Params<T>, frames: nat)
    requires p.Valid()
    ensures PlainSent(SilentChunks(MarkedParams(p), frames), p.zero) == SilentChunks(p, frames)
    decreases frames
  {
    if frames > 0 {
      var n := MinNat(frames, p.chunkFrames);
      SilentChunksPlain(p, frames - n);
      PlainOfSilence(p.ChunkBytes(), p.zero);
      var chunk := Message<Option<T>>.Audio(Repeat(None, p.ChunkBytes()), n);
      PlainSentMore([chunk], SilentChunks(MarkedParams(p), frames - n), p.zero);
      assert PlainSent([chunk], p.zero) == [PlainMessage(chunk, p.zero)];
    }
  }

  lemma FinishPlain<T>(p: Params<T>, c: Capture<Option<T>>)
    requires p.Valid()
    ensures PlainCapture(Finish(MarkedParams(p), c), p.zero) == Finish(p, PlainCapture(c, p.zero))
  {
    var chunks := SilentChunks(MarkedParams(p), Count(c.extraLeft, p.frame));
    SilentChunksPlain(p, Count(c.extraLeft, p.frame));
    PlainSentMore(c.sent + chunks, [Message<Option<T>>.EndOfStream], p.zero);
    PlainSentMore(c.sent, chunks, p.zero);
    assert PlainSent([Message<Option<T>>.EndOfStream], p.zero) == [EndOfStream];
  }

  lemma EmittedPlain<T>(p: Params<T>, c: Capture<Option<T>>, data: seq<Option<T>>, extraLeft: nat, loud: bool)
    requires p.Valid() && data <= c.file && |data| <= p.ChunkBytes() && extraLeft <= c.extraLeft
    ensures Plain(data, p.zero) <= Plain(c.file, p.zero)
    ensures PlainCapture(Emitted(MarkedParams(p), c, data, extraLeft, loud), p.zero) ==
            Emitted(p, PlainCapture(c, p.zero), Plain(data, p.zero), extraLeft, loud)
  {
    PlainSlice(c.file, 0, |data|, p.zero);
    PlainSlice(c.file, |data|, |c.file|, p.zero);
    EmitPlain(p, Taken(c, data).(extraLeft := extraLeft), data, |data| + (c.extraLeft - extraLeft), loud);
  }

  lemma AfterReadPlain<T>(p: Params<T>, c: Capture<Option<T>>, result: ReadResult<Option<T>>, done: bool, loud: bool)
    requires p.Valid() && result.data <= c.file && |result.data| <= p.ChunkBytes()
    ensures PlainResult(result, p.zero).data <= PlainCapture(c, p.zero).file
    ensures PlainCapture(AfterRead(MarkedParams(p), c, result, done, loud), p.zero) ==
            AfterRead(p, PlainCapture(c, p.zero), PlainResult(result, p.zero), done, loud)
  {
    EmittedPlain(p, c, result.data, c.extraLeft, loud);
    EmittedPlain(p, c, result.data, FillUp(c.extraLeft, |result.data|, p.ChunkBytes()).1, loud);
    FinishPlain(p, c);
    PlainSentMore(c.sent, [Message<Option<T>>.Pause], p.zero);
    assert PlainSent([Message<Option<T>>.Pause], p.zero) == [Pause];
  }

  lemma OnTurnPlain<T>(p: Params<T>, c: Capture<Option<T>>, t: Turn)
    requires p.Valid() && WithinLimit(MarkedParams(p), c)
    ensures PlainCapture(OnTurn(MarkedParams(p), c, t), p.zero) == OnTurn(p, PlainCapture(c, p.zero), t)
  {
    match t
    case Exit =>
      PlainSentMore(c.sent, [Message<Option<T>>.EndOfStream], p.zero);
      assert PlainSent([Message<Option<T>>.EndOfStream], p.zero) == [EndOfStream];
    case Read(patience, loud) =>
      var (requested, done) := LimitCapture(p, c.read);
      ReadFilePlain(c.file, requested, patience, p.zero);
      AfterReadPlain(p, c, ReadFile(c.file, requested, patience), done, loud);
  }

  /** Every run of the program is a run with marks, with the marks taken off; and a read comes too early in one if and
      only if it does in the other. */
  lemma {:induction false} MarksDoNotShow<T>(p: Params<T>, c: Capture<Option<T>>, file: seq<T>, turns: seq<Turn>)
    requires p.Valid() && WithinLimit(MarkedParams(p), c)
    ensures PlainCapture(Run(MarkedParams(p), c, turns), p.zero) == Run(p, PlainCapture(c, p.zero), turns)
    ensures NeverEarly(MarkedParams(p), c, Marked(file), turns) <==> NeverEarly(p, PlainCapture(c, p.zero), file, turns)
    decreases |turns|
  {
    if turns != [] && c.running {
      OnTurnPlain(p, c, turns[0]);
      EarlyAlike(p, c, file, turns[0]);
      MarksDoNotShow(p, OnTurn(MarkedParams(p), c, turns[0]), file, turns[1..]);
    }
  }

  lemma EarlyAlike<T>(p: Params<T>, c: Capture<Option<T>>, file: seq<T>, t: Turn)
    requires p.Valid() && WithinLimit(MarkedParams(p), c)
    ensures AddsEarly(MarkedParams(p), c, Marked(file), t) <==> AddsEarly(p, PlainCapture(c, p.zero), file, t)
  {
    if t.Read? { ReadFilePlain(c.file, LimitCapture(p, c.read).0, t.patience, p.zero); }
  }

  lemma {:induction false} PayloadPlain<T>(sent: seq<Message<Option<T>>>, frame: nat, zero: T)
    ensures Plain(Payload(sent, frame), zero) == Payload(PlainSent(sent, zero), frame)
  {
    if sent != [] {
      var n := |sent| - 1;
      PayloadPlain(sent[..n], frame, zero);
      assert PlainSent(sent, zero)[..n] == PlainSent(sent[..n], zero);
      PlainConcat(Payload(sent[..n], frame), Valid(sent[n], frame), zero);
      ValidPlain(sent[n], frame, zero);
    }
  }

  lemma ValidPlain<T>(m: Message<Option<T>>, frame: nat, zero: T)
    ensures Plain(Valid(m, frame), zero) == Valid(PlainMessage(m, zero), frame)
  {
  }

  // ---------------------------------------------------------------------------------------------
  // Files of any bytes
  // ---------------------------------------------------------------------------------------------

  /** The same run, with the bytes of the file marked. */
  function MarkedRun<T>(p: Params<T>, file: seq<T>, turns: seq<Turn>): Capture<Option<T>>
    requires p.Valid()
  {
    Run(MarkedParams(p), Start(MarkedParams(p), Marked(file)), turns)
  }

  lemma {:induction false} RunIsPlain<T>(p: Params<T>, file: seq<T>, turns: seq<Turn>)
    requires p.Valid()
    ensures PlainCapture(MarkedRun(p, file, turns), p.zero) == Run(p, Start(p, file), turns)
    ensures NeverEarly(MarkedParams(p), Start(MarkedParams(p), Marked(file)), Marked(file), turns)
            <==> NeverEarly(p, Start(p, file), file, turns)
    ensures Plain(Payload(MarkedRun(p, file, turns).sent, p.frame), p.zero) ==
      Payload(Run(p, Start(p, file), turns).sent, p.frame)
  {
    MarksDoNotShow(p, Start(MarkedParams(p), Marked(file)), file, turns);
    PlainOfMarked(file, p.zero);
    assert PlainSent(Start(MarkedParams(p), Marked(file)).sent, p.zero) == [];
    PayloadPlain(MarkedRun(p, file, turns).sent, p.frame, p.zero);
  }

  /** With nothing withheld, the bytes sent that come from the file are what was read, in order and without a gap. */
  lemma {:induction false} FileStaysInOrder<T>(p: Params<T>, file: seq<T>, turns: seq<Turn>)
    requires p.Valid() && Whole(p.readBytes, p.frame) && Whole(|file|, p.frame)
    requires forall i :: 0 <= i < |turns| ==> AlignedTurn(turns[i], p.frame)
    requires Run(p, Start(p, file), turns).withheld == 0
    ensures var c := Run(p, Start(p, file), turns);
            var payload := Payload(MarkedRun(p, file, turns).sent, p.frame);
            && Plain(payload, p.zero) == Payload(c.sent, p.frame)
            && c.read <= |file| && Sound(payload, None) == Marked(file[..c.read])
  {
    RunIsPlain(p, file, turns);
    MarkedIsLoud(file);
    CaptureConserves(MarkedParams(p), Marked(file), turns);
    MarkedSlice(file, 0, Run(p, Start(p, file), turns).read);
  }

  /** For any file: a stream that reached its end, with nothing withheld, is made of what there was to read and of the
      extra silence after it if and only if no read was timed out half way while there was extra silence left and more
      to read. */
  lemma {:induction false} FileThenSilenceIff<T>(p: Params<T>, file: seq<T>, turns: seq<Turn>)
    requires p.Valid() && Whole(p.readBytes, p.frame) && Whole(|file|, p.frame) && Smooth(p, turns)
    requires Run(p, Start(p, file), turns).ended
    ensures var payload := Payload(MarkedRun(p, file, turns).sent, p.frame);
            && Plain(payload, p.zero) == Payload(Run(p, Start(p, file), turns).sent, p.frame)
            && (payload == Marked(file[..Goal(p, file)]) + Repeat(None, p.ExtraBytes())
                <==> NeverEarly(p, Start(p, file), file, turns))
  {
    RunIsPlain(p, file, turns);
    MarkedIsLoud(file);
    LoudFileThenSilenceIff(MarkedParams(p), Marked(file), turns);
    MarkedSlice(file, 0, Goal(p, file));
  }
}
