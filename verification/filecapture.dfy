/** Capturing from a file or a pipe without resampling: which bytes are read, how a short read is filled up, and what
    reaches the processing thread. Bytes are of any type T, one value of which is silence. */
module FileCapture {
  import opened Audio
  import opened Frames
  import opened Sounds

  datatype Params<T> = Params(
    zero: T,
    frame: nat,          // bytes per frame: channels times bytes per sample
    chunkFrames: nat,
    extraFrames: nat,    // silence to add at the end
    readBytes: nat,      // bytes to read at most, 0 for all there are
    silentLimit: nat)    // silent chunks until the stream is paused, 0 for never
  {
    predicate Valid() { frame > 0 && chunkFrames > 0 }
    function ChunkBytes(): nat { Times(chunkFrames, frame) }
    function ExtraBytes(): nat { Times(extraFrames, frame) }
  }

  /** A chunk, with the number of its frames that count. */
  datatype Message<T> = Audio(data: seq<T>, valid: nat) | Pause | EndOfStream

  datatype ReadResult<T> = EndOfFile(data: seq<T>) | Timeout(data: seq<T>) | Complete(data: seq<T>)

  datatype Capture<T> = Capture(
    file: seq<T>,        // what has not been read yet
    read: nat,           // bytes read so far
    extraLeft: nat,      // bytes of silence still to be added
    silent: nat,         // silent chunks in a row
    sent: seq<Message<T>>,
    withheld: nat,       // bytes that counted in chunks a pause took the place of
    ended: bool,         // the stream reached its end
    running: bool)

  /** What happens in one round: a command to exit, or a read that gives up after some bytes, if it is given a limit to
      its patience, and a chunk that is loud or silent. */
  datatype Turn = Exit | Read(patience: Option<nat>, loud: bool)

  // ---------------------------------------------------------------------------------------------
  // One round
  // ---------------------------------------------------------------------------------------------

  /** A reader fills the whole request, or stops short at the end of the file or when its time is up. */
  function ReadFile<T>(file: seq<T>, requested: nat, patience: Option<nat>): (r: ReadResult<T>)
    ensures r.data <= file && |r.data| <= requested
    ensures r.Complete? ==> |r.data| == requested
  {
    if patience.Some? && patience.value <= |file| && (patience.value == 0 || patience.value < requested) then
      (assert patience.value <= requested; Timeout(file[..patience.value]))
    else if |file| < requested then EndOfFile(file)
    else Complete(file[..requested])
  }

  predicate WithinLimit<T>(p: Params<T>, c: Capture<T>) { p.readBytes > 0 ==> c.read <= p.readBytes }

  /** The size of the next read, and whether it is cut short by the limit. */
  function LimitCapture<T>(p: Params<T>, read: nat): (r: (nat, bool))
    requires p.readBytes > 0 ==> read <= p.readBytes
    ensures p.readBytes > 0 ==> read + r.0 <= p.readBytes
    ensures r.0 <= p.ChunkBytes() && (r.1 <==> r.0 < p.ChunkBytes())
    ensures r.1 ==> p.readBytes > 0 && read + r.0 == p.readBytes
  {
    if p.readBytes == 0 || read + p.ChunkBytes() <= p.readBytes then (p.ChunkBytes(), false)
    else (p.readBytes - read, true)
  }

  /** Bytes of a short read that count, and the extra silence left once it is filled up. */
  function FillUp(extraLeft: nat, bytes: nat, chunk: nat): (r: (nat, nat))
    requires bytes <= chunk
    ensures r.0 <= chunk && r.0 - bytes == extraLeft - r.1
    ensures r.0 == chunk || r.1 == 0
  {
    if extraLeft > chunk - bytes then (chunk, extraLeft - (chunk - bytes)) else (bytes + extraLeft, 0)
  }

  /** Silent chunks in a row, once another chunk has come. */
  function CountSilent(limit: nat, silent: nat, loud: bool): nat {
    if limit == 0 then silent else if loud then 0 else silent + 1
  }

  predicate Pausing<T>(p: Params<T>, c: Capture<T>, loud: bool) {
    p.silentLimit > 0 && !loud && c.silent >= p.silentLimit
  }

  /** Counts the silent chunks; a pause takes the place of a chunk when there have been enough of them. */
  function Emit<T>(p: Params<T>, c: Capture<T>, data: seq<T>, valid: nat, loud: bool): (r: Capture<T>)
    requires p.Valid() && |data| <= p.ChunkBytes()
    ensures r == c.(silent := r.silent, sent := r.sent, withheld := r.withheld)
  {
    var silent := CountSilent(p.silentLimit, c.silent, loud);
    if Pausing(p, c, loud) then c.(silent := silent, sent := c.sent + [Pause], withheld := c.withheld + valid)
    else c.(silent := silent,
            sent := c.sent + [Audio(data + Repeat(p.zero, p.ChunkBytes() - |data|), Count(valid, p.frame))])
  }

  /** The silence that is sent at the end, in chunks. */
  function SilentChunks<T>(p: Params<T>, frames: nat): seq<Message<T>>
    requires p.Valid()
    decreases frames
  {
    if frames == 0 then []
    else
      var n := MinNat(frames, p.chunkFrames);
      [Audio(Repeat(p.zero, p.ChunkBytes()), n)] + SilentChunks(p, frames - n)
  }

  function Finish<T>(p: Params<T>, c: Capture<T>): Capture<T>
    requires p.Valid()
  {
    c.(sent := c.sent + SilentChunks(p, Count(c.extraLeft, p.frame)) + [EndOfStream],
       extraLeft := 0, ended := true, running := false)
  }

  /** The state after taking the bytes of a read from the file. */
  function Taken<T>(c: Capture<T>, data: seq<T>): Capture<T>
    requires data <= c.file
  {
    c.(file := c.file[|data|..], read := c.read + |data|)
  }

  /** The state once `data` has been read and emitted, filled up until `extraLeft` bytes of extra silence are left. */
  function Emitted<T>(p: Params<T>, c: Capture<T>, data: seq<T>, extraLeft: nat, loud: bool): Capture<T>
    requires p.Valid() && data <= c.file && |data| <= p.ChunkBytes() && extraLeft <= c.extraLeft
  {
    Emit(p, Taken(c, data).(extraLeft := extraLeft), data, |data| + (c.extraLeft - extraLeft), loud)
  }

  function AfterRead<T>(p: Params<T>, c: Capture<T>, result: ReadResult<T>, done: bool, loud: bool): Capture<T>
    requires p.Valid() && result.data <= c.file && |result.data| <= p.ChunkBytes()
  {
    if result.Complete? && !done then Emitted(p, c, result.data, c.extraLeft, loud)
    else if result.data != [] then
      Emitted(p, c, result.data, FillUp(c.extraLeft, |result.data|, p.ChunkBytes()).1, loud)
    else if result.Timeout? then c.(sent := c.sent + [Pause])
    else Finish(p, c)
  }

  function OnTurn<T>(p: Params<T>, c: Capture<T>, t: Turn): (r: Capture<T>)
    requires p.Valid() && WithinLimit(p, c)
    ensures WithinLimit(p, r)
  {
    match t
    case Exit => c.(sent := c.sent + [EndOfStream], running := false)
    case Read(patience, loud) =>
      var (requested, done) := LimitCapture(p, c.read);
      AfterRead(p, c, ReadFile(c.file, requested, patience), done, loud)
  }

  function Start<T>(p: Params<T>, file: seq<T>): Capture<T> { Capture(file, 0, p.ExtraBytes(), 0, [], 0, false, true) }

  function Run<T>(p: Params<T>, c: Capture<T>, turns: seq<Turn>): (r: Capture<T>)
    requires p.Valid() && WithinLimit(p, c)
    ensures WithinLimit(p, r)
    decreases |turns|
  {
    if turns == [] || !c.running then c else Run(p, OnTurn(p, c, turns[0]), turns[1..])
  }

  // ---------------------------------------------------------------------------------------------
  // Conservation
  // ---------------------------------------------------------------------------------------------

  /** The bytes of the frames that count. */
  function Valid<T>(m: Message<T>, frame: nat): seq<T> {
    if m.Audio? && Times(m.valid, frame) <= |m.data| then m.data[..Times(m.valid, frame)] else []
  }

  function Payload<T>(sent: seq<Message<T>>, frame: nat): seq<T> {
    if sent == [] then [] else Payload(sent[..|sent| - 1], frame) + Valid(sent[|sent| - 1], frame)
  }

  lemma {:induction false} PayloadConcat<T>(a: seq<Message<T>>, b: seq<Message<T>>, frame: nat)
    ensures Payload(a + b, frame) == Payload(a, frame) + Payload(b, frame)
  {
    if b == [] {
      assert a + b == a;
    } else {
      var n := |b| - 1;
      assert (a + b)[..|a + b| - 1] == a + b[..n] && (a + b)[|a + b| - 1] == b[n];
      PayloadConcat(a, b[..n], frame);
      Reassociate(Payload(a, frame), Payload(b[..n], frame), Valid(b[n], frame));
    }
  }

  lemma {:induction false} PayloadOfOne<T>(m: Message<T>, frame: nat)
    ensures Payload([m], frame) == Valid(m, frame)
  {
    assert [m][..0] == [];
    assert [] + Valid(m, frame) == Valid(m, frame);
  }

  /** The file, and what a read may be cut to, are whole frames. */
  ghost predicate AlignedTurn(t: Turn, frame: nat)
    requires frame > 0
  {
    t.Read? && t.patience.Some? ==> Whole(t.patience.value, frame)
  }

  ghost predicate Aligned<T>(p: Params<T>, c: Capture<T>)
    requires p.Valid()
  {
    Whole(p.readBytes, p.frame) && Whole(|c.file|, p.frame) && Whole(c.read, p.frame) && Whole(c.extraLeft, p.frame)
  }

  /** Everything that counted so far was sent or withheld: what was read, in order, and part of the extra silence. */
  ghost predicate Conserved<T>(p: Params<T>, c: Capture<T>, file: seq<T>)
    requires p.Valid()
  {
    && c.read <= |file| && c.file == file[c.read..] && c.extraLeft <= p.ExtraBytes()
    && |Payload(c.sent, p.frame)| + c.withheld == c.read + p.ExtraBytes() - c.extraLeft
    && (c.withheld == 0 && Loud(file, p.zero) ==> Sound(Payload(c.sent, p.frame), p.zero) == file[..c.read])
  }

  /** How far a file is read. */
  function Goal<T>(p: Params<T>, file: seq<T>): nat { if p.readBytes == 0 then |file| else MinNat(|file|, p.readBytes) }

  ghost predicate AtEnd<T>(p: Params<T>, c: Capture<T>, file: seq<T>) {
    c.ended ==> c.extraLeft == 0 && c.read == Goal(p, file)
  }

  ghost predicate Inv<T>(p: Params<T>, c: Capture<T>, file: seq<T>) {
    && p.Valid() && WithinLimit(p, c)
    && Aligned(p, c) && Conserved(p, c, file) && AtEnd(p, c, file)
  }

  lemma {:induction false} StartIsInv<T>(p: Params<T>, file: seq<T>)
    requires p.Valid() && Whole(p.readBytes, p.frame) && Whole(|file|, p.frame)
    ensures Inv(p, Start(p, file), file)
  {
    TimesIsWhole(p.extraFrames, p.frame);
  }

  lemma {:induction false} SentOne<T>(sent: seq<Message<T>>, m: Message<T>, frame: nat)
    ensures Payload(sent + [m], frame) == Payload(sent, frame) + Valid(m, frame)
  {
    PayloadConcat(sent, [m], frame);
    PayloadOfOne(m, frame);
  }

  lemma {:induction false} SentNothing<T>(sent: seq<Message<T>>, m: Message<T>, frame: nat)
    requires !m.Audio?
    ensures Payload(sent + [m], frame) == Payload(sent, frame)
  {
    SentOne(sent, m, frame);
    assert Payload(sent, frame) + [] == Payload(sent, frame);
  }

  lemma ReadIsWhole<T>(p: Params<T>, c: Capture<T>, file: seq<T>, t: Turn)
    requires Inv(p, c, file) && t.Read? && AlignedTurn(t, p.frame)
    ensures var data := ReadFile(c.file, LimitCapture(p, c.read).0, t.patience).data;
            Whole(|data|, p.frame) && Aligned(p, Taken(c, data))
  {
    TimesIsWhole(p.chunkFrames, p.frame);
    if p.readBytes > 0 { WholeDifference(p.readBytes, c.read, p.frame); }
    var data := ReadFile(c.file, LimitCapture(p, c.read).0, t.patience).data;
    WholeDifference(|c.file|, |data|, p.frame);
    WholeSum(c.read, |data|, p.frame);
  }

  ghost predicate PayloadGrew<T>(before: seq<T>, after: seq<T>, bytes: seq<T>) {
    after == before + bytes || (bytes == [] && after == before)
  }

  /** `e` has carried on `valid` more bytes: `data` and the silence it is filled up with, unless they are withheld. */
  ghost predicate CarriedOn<T>(p: Params<T>, c: Capture<T>, e: Capture<T>, data: seq<T>, valid: nat) {
    && |data| <= valid
    && |Payload(e.sent, p.frame)| + e.withheld == |Payload(c.sent, p.frame)| + c.withheld + valid
    && (e.withheld == 0 ==>
          c.withheld == 0 && PayloadGrew(Payload(c.sent, p.frame), Payload(e.sent, p.frame),
                                           data + Repeat(p.zero, valid - |data|)))
  }

  lemma {:induction false} AudioPayload<T>(p: Params<T>, sent: seq<Message<T>>, data: seq<T>, valid: nat)
    requires p.Valid() && |data| <= valid <= p.ChunkBytes() && Whole(valid, p.frame)
    ensures Payload(sent + [Audio(data + Repeat(p.zero, p.ChunkBytes() - |data|), Count(valid, p.frame))], p.frame) ==
            Payload(sent, p.frame) + (data + Repeat(p.zero, valid - |data|))
  {
    CountIsExact(valid, p.frame);
    var chunk := data + Repeat(p.zero, p.ChunkBytes() - |data|);
    SentOne(sent, Audio(chunk, Count(valid, p.frame)), p.frame);
    assert chunk[..valid] == data + Repeat(p.zero, valid - |data|);
  }

  lemma {:induction false} CarriedByAudio<T>(p: Params<T>, c: Capture<T>, e: Capture<T>, data: seq<T>, valid: nat)
    requires p.Valid() && |data| <= valid <= p.ChunkBytes() && Whole(valid, p.frame) && e.withheld == c.withheld
    requires e.sent == c.sent + [Audio(data + Repeat(p.zero, p.ChunkBytes() - |data|), Count(valid, p.frame))]
    ensures CarriedOn(p, c, e, data, valid)
  {
    AudioPayload(p, c.sent, data, valid);
  }

  lemma CarriedByPause<T>(p: Params<T>, c: Capture<T>, e: Capture<T>, data: seq<T>, valid: nat)
    requires |data| <= valid && e.withheld == c.withheld + valid && e.sent == c.sent + [Pause]
    ensures CarriedOn(p, c, e, data, valid)
  {
    SentNothing(c.sent, Pause, p.frame);
  }

  lemma {:induction false} EmittedCarriesOn<T>(p: Params<T>, c: Capture<T>, data: seq<T>, extraLeft: nat, loud: bool)
    requires p.Valid() && data <= c.file && extraLeft <= c.extraLeft &&
      |data| + (c.extraLeft - extraLeft) <= p.ChunkBytes()
    requires Whole(|data| + (c.extraLeft - extraLeft), p.frame)
    ensures CarriedOn(p, c, Emitted(p, c, data, extraLeft, loud), data, |data| + (c.extraLeft - extraLeft))
  {
    if Pausing(p, c, loud) {
      CarriedByPause(p, c, Emitted(p, c, data, extraLeft, loud), data, |data| + (c.extraLeft - extraLeft));
    } else {
      CarriedByAudio(p, c, Emitted(p, c, data, extraLeft, loud), data, |data| + (c.extraLeft - extraLeft));
    }
  }

  lemma {:induction false} SoundOfFilledUp<T>(payload: seq<T>, data: seq<T>, zero: T, n: nat, before: seq<T>)
    requires Loud(data, zero) && Sound(payload, zero) == before
    ensures Sound(payload + (data + Repeat(zero, n)), zero) == before + data
  {
    SoundConcat(payload, data + Repeat(zero, n), zero);
    SoundConcat(data, Repeat(zero, n), zero);
    SoundOfLoud(data, zero);
    SoundOfSilence(zero, n);
    assert data + [] == data;
  }

  ghost predicate Advanced<T>(c: Capture<T>, e: Capture<T>, data: seq<T>, extraLeft: nat) {
    |data| <= |c.file| && e.file == c.file[|data|..] && e.read == c.read + |data| && e.extraLeft == extraLeft &&
      !e.ended
  }

  lemma EmittedAdvances<T>(p: Params<T>, c: Capture<T>, data: seq<T>, extraLeft: nat, loud: bool)
    requires p.Valid() && data <= c.file && |data| <= p.ChunkBytes() && extraLeft <= c.extraLeft && !c.ended
    ensures Advanced(c, Emitted(p, c, data, extraLeft, loud), data, extraLeft)
  {
  }

  lemma FilledUpIsValid(bytes: nat, extraLeft: nat, left: nat, frame: nat)
    requires frame > 0 && Whole(bytes, frame) && Whole(extraLeft, frame) && Whole(left, frame) && left <= extraLeft
    ensures Whole(bytes + (extraLeft - left), frame)
  {
    WholeDifference(extraLeft, left, frame);
    WholeSum(bytes, extraLeft - left, frame);
  }

  lemma {:induction false} EmitAdvances<T>(p: Params<T>, c: Capture<T>, data: seq<T>, extraLeft: nat, loud: bool)
    requires p.Valid() && data <= c.file && extraLeft <= c.extraLeft && !c.ended
    requires |data| + (c.extraLeft - extraLeft) <= p.ChunkBytes()
    requires Whole(|data|, p.frame) && Whole(c.extraLeft, p.frame) && Whole(extraLeft, p.frame)
    ensures Advanced(c, Emitted(p, c, data, extraLeft, loud), data, extraLeft)
    ensures CarriedOn(p, c, Emitted(p, c, data, extraLeft, loud), data, |data| + (c.extraLeft - extraLeft))
  {
    EmittedAdvances(p, c, data, extraLeft, loud);
    FilledUpIsValid(|data|, c.extraLeft, extraLeft, p.frame);
    EmittedCarriesOn(p, c, data, extraLeft, loud);
  }

  /** Bytes that are read next, filled up and emitted. */
  lemma {:induction false} EmitKeepsInv<T>(p: Params<T>, c: Capture<T>, file: seq<T>, data: seq<T>, extraLeft: nat,
                                           loud: bool)
    requires Inv(p, c, file) && !c.ended && data <= c.file && extraLeft <= c.extraLeft
    requires |data| + (c.extraLeft - extraLeft) <= p.ChunkBytes() && WithinLimit(p, Taken(c, data))
    requires Whole(|data|, p.frame) && Whole(extraLeft, p.frame) && Aligned(p, Taken(c, data))
    ensures Inv(p, Emitted(p, c, data, extraLeft, loud), file)
  {
    EmitAdvances(p, c, data, extraLeft, loud);
    AdvanceKeepsInv(p, c, file, data, extraLeft, Emitted(p, c, data, extraLeft, loud));
  }

  lemma {:induction false} AdvanceKeepsInv<T>(p: Params<T>, c: Capture<T>, file: seq<T>, data: seq<T>, extraLeft: nat,
                                              e: Capture<T>)
    requires Inv(p, c, file) && data <= c.file && extraLeft <= c.extraLeft && Advanced(c, e, data, extraLeft)
    requires WithinLimit(p, Taken(c, data)) && Whole(extraLeft, p.frame) && Aligned(p, Taken(c, data))
    requires CarriedOn(p, c, e, data, |data| + (c.extraLeft - extraLeft))
    ensures Inv(p, e, file)
  {
    EmitKeepsConserved(p, c, file, data, extraLeft, e);
  }

  lemma EmitKeepsConserved<T>(p: Params<T>, c: Capture<T>, file: seq<T>, data: seq<T>, extraLeft: nat, e: Capture<T>)
    requires p.Valid() && Conserved(p, c, file) && data <= c.file && extraLeft <= c.extraLeft
    requires Advanced(c, e, data, extraLeft)
    requires CarriedOn(p, c, e, data, |data| + (c.extraLeft - extraLeft))
    ensures Conserved(p, e, file)
  {
    if e.withheld == 0 && Loud(file, p.zero) {
      MoreSound(Payload(c.sent, p.frame), Payload(e.sent, p.frame), file, c.read, data, p.zero,
        c.extraLeft - extraLeft);
    }
  }

  lemma {:induction false} MoreSound<T>(before: seq<T>, after: seq<T>, file: seq<T>, read: nat, data: seq<T>, zero: T,
                                        n: nat)
    requires Loud(file, zero) && read <= |file| && data <= file[read..] && Sound(before, zero) == file[..read]
    requires PayloadGrew(before, after, data + Repeat(zero, n))
    ensures Sound(after, zero) == file[..read + |data|]
  {
    assert file[..read + |data|] == file[..read] + data;
    assert forall i :: 0 <= i < |data| ==> data[i] == file[read + i];
    SoundOfFilledUp(before, data, zero, n, file[..read]);
  }

  lemma {:induction false} SilentChunk<T>(p: Params<T>, n: nat)
    requires p.Valid() && n <= p.chunkFrames
    ensures Payload([Audio(Repeat(p.zero, p.ChunkBytes()), n)], p.frame) == Repeat(p.zero, Times(n, p.frame))
  {
    var m := Audio(Repeat(p.zero, p.ChunkBytes()), n);
    PayloadOfOne(m, p.frame);
    TimesAdd(n, p.chunkFrames - n, p.frame);
    assert m.data[..Times(n, p.frame)] == Repeat(p.zero, Times(n, p.frame));
  }

  lemma RepeatSum<T>(x: T, a: nat, b: nat)
    ensures Repeat(x, a) + Repeat(x, b) == Repeat(x, a + b)
  {
  }

  lemma OneMoreChunk<T>(p: Params<T>, n: nat, left: nat)
    requires p.Valid() && n <= p.chunkFrames &&
      Payload(SilentChunks(p, left), p.frame) == Repeat(p.zero, Times(left, p.frame))
    ensures Payload([Audio(Repeat(p.zero, p.ChunkBytes()), n)] + SilentChunks(p, left), p.frame) ==
            Repeat(p.zero, Times(n + left, p.frame))
  {
    PayloadConcat([Audio(Repeat(p.zero, p.ChunkBytes()), n)], SilentChunks(p, left), p.frame);
    SilentChunk(p, n);
    RepeatSum(p.zero, Times(n, p.frame), Times(left, p.frame));
    TimesAdd(n, left, p.frame);
  }

  lemma {:induction false} SilencePayload<T>(p: Params<T>, frames: nat)
    requires p.Valid()
    ensures Payload(SilentChunks(p, frames), p.frame) == Repeat(p.zero, Times(frames, p.frame))
    decreases frames
  {
    if frames > p.chunkFrames {
      SilencePayload(p, frames - p.chunkFrames);
      OneMoreChunk(p, p.chunkFrames, frames - p.chunkFrames);
    } else if frames > 0 {
      SilencePayload(p, 0);
      OneMoreChunk(p, frames, 0);
    }
  }

  lemma FinishPayload<T>(p: Params<T>, c: Capture<T>)
    requires p.Valid() && Whole(c.extraLeft, p.frame)
    ensures Payload(Finish(p, c).sent, p.frame) == Payload(c.sent, p.frame) + Repeat(p.zero, c.extraLeft)
  {
    var silence := SilentChunks(p, Count(c.extraLeft, p.frame));
    CountIsExact(c.extraLeft, p.frame);
    SilencePayload(p, Count(c.extraLeft, p.frame));
    PayloadConcat(c.sent, silence, p.frame);
    SentNothing(c.sent + silence, EndOfStream, p.frame);
  }

  lemma FinishKeepsInv<T>(p: Params<T>, c: Capture<T>, file: seq<T>)
    requires Inv(p, c, file) && c.read == Goal(p, file)
    ensures Inv(p, Finish(p, c), file)
  {
    FinishPayload(p, c);
    SoundThenSilence(Payload(c.sent, p.frame), p.zero, c.extraLeft);
  }

  lemma {:induction false} SoundThenSilence<T>(payload: seq<T>, zero: T, n: nat)
    ensures Sound(payload + Repeat(zero, n), zero) == Sound(payload, zero)
  {
    SoundConcat(payload, Repeat(zero, n), zero);
    SoundOfSilence(zero, n);
    assert Sound(payload, zero) + [] == Sound(payload, zero);
  }

  /** A read that is not timed out and gets nothing means that all there is to read has been read. */
  lemma NothingLeft<T>(p: Params<T>, c: Capture<T>, file: seq<T>, patience: Option<nat>)
    requires p.Valid() && WithinLimit(p, c) && c.read <= |file| && c.file == file[c.read..]
    requires var (requested, _) := LimitCapture(p, c.read);
             var r := ReadFile(c.file, requested, patience);
             r.data == [] && !r.Timeout?
    ensures c.read == Goal(p, file)
  {
    FrameFitsChunk(p);
  }

  lemma FrameFitsChunk<T>(p: Params<T>)
    requires p.Valid()
    ensures p.ChunkBytes() > 0
  {
    TimesIsProduct(p.chunkFrames, p.frame);
  }

  lemma TurnKeepsInv<T>(p: Params<T>, c: Capture<T>, file: seq<T>, t: Turn)
    requires Inv(p, c, file) && !c.ended && AlignedTurn(t, p.frame)
    ensures Inv(p, OnTurn(p, c, t), file)
  {
    match t {
      case Exit => SentNothing(c.sent, EndOfStream, p.frame);
      case Read(patience, loud) => ReadKeepsInv(p, c, file, patience, loud);
    }
  }

  lemma ReadKeepsInv<T>(p: Params<T>, c: Capture<T>, file: seq<T>, patience: Option<nat>, loud: bool)
    requires Inv(p, c, file) && !c.ended && AlignedTurn(Read(patience, loud), p.frame)
    ensures Inv(p, OnTurn(p, c, Read(patience, loud)), file)
  {
    var (requested, done) := LimitCapture(p, c.read);
    var result := ReadFile(c.file, requested, patience);
    ReadIsWhole(p, c, file, Read(patience, loud));
    if result.data == [] && !result.Timeout? { NothingLeft(p, c, file, patience); }
    AfterReadKeepsInv(p, c, file, result, done, loud);
  }

  lemma AfterReadKeepsInv<T>(p: Params<T>, c: Capture<T>, file: seq<T>, result: ReadResult<T>, done: bool, loud: bool)
    requires Inv(p, c, file) && !c.ended && result.data <= c.file && |result.data| <= p.ChunkBytes()
    requires Whole(|result.data|, p.frame) && Aligned(p, Taken(c, result.data)) && WithinLimit(p, Taken(c, result.data))
    requires result.data == [] && !result.Timeout? ==> c.read == Goal(p, file)
    requires result.Complete? && !done ==> |result.data| == p.ChunkBytes()
    ensures Inv(p, AfterRead(p, c, result, done, loud), file)
  {
    if result.Complete? && !done {
      EmitKeepsInv(p, c, file, result.data, c.extraLeft, loud);
    } else if result.data != [] {
      ShortReadKeepsInv(p, c, file, result.data, loud);
    } else {
      assert Taken(c, []) == c;
      if result.Timeout? {
        SentNothing(c.sent, Pause, p.frame);
      } else {
        FinishKeepsInv(p, c, file);
      }
    }
  }

  lemma {:induction false} ShortReadKeepsInv<T>(p: Params<T>, c: Capture<T>, file: seq<T>, data: seq<T>, loud: bool)
    requires Inv(p, c, file) && !c.ended && data <= c.file && |data| <= p.ChunkBytes()
    requires Whole(|data|, p.frame) && Aligned(p, Taken(c, data)) && WithinLimit(p, Taken(c, data))
    ensures Inv(p, Emitted(p, c, data, FillUp(c.extraLeft, |data|, p.ChunkBytes()).1, loud), file)
  {
    FilledUpIsWhole(p, c.extraLeft, |data|);
    EmitKeepsInv(p, c, file, data, FillUp(c.extraLeft, |data|, p.ChunkBytes()).1, loud);
  }

  lemma {:induction false} FilledUpIsWhole<T>(p: Params<T>, extraLeft: nat, bytes: nat)
    requires p.Valid() && bytes <= p.ChunkBytes() && Whole(bytes, p.frame) && Whole(extraLeft, p.frame)
    ensures Whole(FillUp(extraLeft, bytes, p.ChunkBytes()).1, p.frame)
  {
    TimesIsWhole(p.chunkFrames, p.frame);
    WholeDifference(p.ChunkBytes(), bytes, p.frame);
    if extraLeft > p.ChunkBytes() - bytes { WholeDifference(extraLeft, p.ChunkBytes() - bytes, p.frame); }
  }

  lemma {:induction false} RunKeepsInv<T>(p: Params<T>, c: Capture<T>, file: seq<T>, turns: seq<Turn>)
    requires Inv(p, c, file) && (c.ended ==> !c.running)
    requires forall i :: 0 <= i < |turns| ==> AlignedTurn(turns[i], p.frame)
    ensures Inv(p, Run(p, c, turns), file)
    decreases |turns|
  {
    if turns != [] && c.running {
      TurnKeepsInv(p, c, file, turns[0]);
      RunKeepsInv(p, OnTurn(p, c, turns[0]), file, turns[1..]);
    }
  }

  /** For every file of whole frames and every run, timeouts, pauses and an early exit included: the bytes that count in
      the chunks sent, together with those withheld by pauses, are as many as were read plus the silence added so far.
      A stream that reached its end has been read as far as it should be, and all of the extra silence was added. With
      nothing withheld, and data that can be told from silence, what was sent apart from silence is what was read, in
      order. */
  lemma {:induction false} CaptureConserves<T>(p: Params<T>, file: seq<T>, turns: seq<Turn>)
    requires p.Valid() && Whole(p.readBytes, p.frame) && Whole(|file|, p.frame)
    requires forall i :: 0 <= i < |turns| ==> AlignedTurn(turns[i], p.frame)
    ensures var c := Run(p, Start(p, file), turns);
            var payload := Payload(c.sent, p.frame);
            && c.read <= Goal(p, file) && c.extraLeft <= p.ExtraBytes()
            && |payload| + c.withheld == c.read + (p.ExtraBytes() - c.extraLeft)
            && (c.ended ==> |payload| + c.withheld == Goal(p, file) + p.ExtraBytes())
            && (c.withheld == 0 && Loud(file, p.zero) ==> Sound(payload, p.zero) == file[..c.read])
  {
    StartIsInv(p, file);
    RunKeepsInv(p, Start(p, file), file, turns);
  }

  // ---------------------------------------------------------------------------------------------
  // What exactly is sent
  // ---------------------------------------------------------------------------------------------

  /** A read that is timed out half way, while there is extra silence left and more to read afterwards. */
  predicate AddsEarly<T>(p: Params<T>, c: Capture<T>, file: seq<T>, t: Turn)
    requires p.Valid() && WithinLimit(p, c)
  {
    t.Read? && c.extraLeft > 0 &&
    var r := ReadFile(c.file, LimitCapture(p, c.read).0, t.patience);
    r.Timeout? && r.data != [] && c.read + |r.data| < Goal(p, file)
  }

  predicate NeverEarly<T>(p: Params<T>, c: Capture<T>, file: seq<T>, turns: seq<Turn>)
    requires p.Valid() && WithinLimit(p, c)
    decreases |turns|
  {
    turns == [] || !c.running ||
      (!AddsEarly(p, c, file, turns[0]) && NeverEarly(p, OnTurn(p, c, turns[0]), file, turns[1..]))
  }

  /** Chunks are never withheld: there is no limit to silence, or no silence. */
  predicate NeverPauses<T>(p: Params<T>, turns: seq<Turn>) {
    p.silentLimit == 0 || forall i :: 0 <= i < |turns| ==> Sounding(turns[i])
  }

  predicate Sounding(t: Turn) { t.Read? ==> t.loud }

  /** Reads of whole frames, and nothing that pauses the stream. */
  ghost predicate Smooth<T>(p: Params<T>, turns: seq<Turn>) {
    p.Valid() && NeverPauses(p, turns) && forall i :: 0 <= i < |turns| ==> AlignedTurn(turns[i], p.frame)
  }

  lemma SmoothRest<T>(p: Params<T>, turns: seq<Turn>)
    requires Smooth(p, turns) && turns != []
    ensures Smooth(p, turns[1..]) && AlignedTurn(turns[0], p.frame) && (p.silentLimit == 0 || Sounding(turns[0]))
  {
  }

  ghost predicate InOrder<T>(p: Params<T>, c: Capture<T>, file: seq<T>)
    requires p.Valid()
  {
    && c.read <= |file| && c.extraLeft <= p.ExtraBytes()
    && c.withheld == 0
    && Payload(c.sent, p.frame) == file[..c.read] + Repeat(p.zero, p.ExtraBytes() - c.extraLeft)
    && (c.extraLeft < p.ExtraBytes() ==> c.read == Goal(p, file))
  }

  lemma DataThenSilence<T>(head: seq<T>, data: seq<T>, zero: T, n: nat)
    ensures head + Repeat(zero, 0) + (data + Repeat(zero, n)) == head + data + Repeat(zero, n)
  {
  }

  lemma MoreSilence<T>(head: seq<T>, zero: T, done: nat, n: nat)
    ensures head + Repeat(zero, done) + Repeat(zero, n) == head + Repeat(zero, done + n)
  {
    RepeatSum(zero, done, n);
    assert head + Repeat(zero, done) + Repeat(zero, n) == head + (Repeat(zero, done) + Repeat(zero, n));
  }

  lemma EmitKeepsOrder<T>(p: Params<T>, c: Capture<T>, file: seq<T>, data: seq<T>, extraLeft: nat, e: Capture<T>)
    requires p.Valid() && InOrder(p, c, file) && c.file == file[c.read..] && data <= c.file && extraLeft <= c.extraLeft
    requires Advanced(c, e, data, extraLeft) && CarriedOn(p, c, e, data, |data| + (c.extraLeft - extraLeft)) &&
      e.withheld == 0
    requires data != [] ==> c.read < Goal(p, file)
    requires extraLeft < c.extraLeft ==> e.read == Goal(p, file)
    ensures InOrder(p, e, file)
  {
    var n := c.extraLeft - extraLeft;
    var done := p.ExtraBytes() - c.extraLeft;
    assert file[..e.read] == file[..c.read] + data;
    if data != [] {
      DataThenSilence(file[..c.read], data, p.zero, n);
    } else {
      assert data + Repeat(p.zero, n) == Repeat(p.zero, n);
      MoreSilence(file[..c.read], p.zero, done, n);
    }
  }

  lemma FinishKeepsOrder<T>(p: Params<T>, c: Capture<T>, file: seq<T>)
    requires p.Valid() && InOrder(p, c, file) && Whole(c.extraLeft, p.frame) && c.read == Goal(p, file)
    ensures InOrder(p, Finish(p, c), file)
  {
    FinishPayload(p, c);
    MoreSilence(file[..c.read], p.zero, p.ExtraBytes() - c.extraLeft, c.extraLeft);
  }

  lemma NotWithheld<T>(p: Params<T>, c: Capture<T>, data: seq<T>, extraLeft: nat, loud: bool)
    requires p.Valid() && data <= c.file && |data| <= p.ChunkBytes() && extraLeft <= c.extraLeft &&
      (p.silentLimit == 0 || loud)
    ensures Emitted(p, c, data, extraLeft, loud).withheld == c.withheld
  {
  }

  lemma {:induction false} EmitInOrder<T>(p: Params<T>, c: Capture<T>, file: seq<T>, data: seq<T>, extraLeft: nat,
                                          loud: bool)
    requires Inv(p, c, file) && InOrder(p, c, file) && !c.ended && data <= c.file && extraLeft <= c.extraLeft
    requires |data| + (c.extraLeft - extraLeft) <= p.ChunkBytes() && Whole(|data|, p.frame) && Whole(extraLeft, p.frame)
    requires data != [] ==> c.read < Goal(p, file)
    requires extraLeft < c.extraLeft ==> c.read + |data| == Goal(p, file)
    requires p.silentLimit == 0 || loud
    ensures InOrder(p, Emitted(p, c, data, extraLeft, loud), file)
  {
    NotWithheld(p, c, data, extraLeft, loud);
    EmitAdvances(p, c, data, extraLeft, loud);
    EmitKeepsOrder(p, c, file, data, extraLeft, Emitted(p, c, data, extraLeft, loud));
  }

  lemma {:induction false} ShortReadInOrder<T>(p: Params<T>, c: Capture<T>, file: seq<T>, data: seq<T>, loud: bool)
    requires Inv(p, c, file) && InOrder(p, c, file) && !c.ended && data <= c.file && |data| <= p.ChunkBytes()
    requires data != [] && Whole(|data|, p.frame) && (p.silentLimit == 0 || loud)
    requires c.read < Goal(p, file) && (c.extraLeft > 0 ==> c.read + |data| == Goal(p, file))
    ensures InOrder(p, Emitted(p, c, data, FillUp(c.extraLeft, |data|, p.ChunkBytes()).1, loud), file)
  {
    FilledUpIsWhole(p, c.extraLeft, |data|);
    EmitInOrder(p, c, file, data, FillUp(c.extraLeft, |data|, p.ChunkBytes()).1, loud);
  }

  lemma AfterReadInOrder<T>(p: Params<T>, c: Capture<T>, file: seq<T>, result: ReadResult<T>, done: bool, loud: bool)
    requires Inv(p, c, file) && InOrder(p, c, file) && !c.ended && result.data <= c.file &&
      |result.data| <= p.ChunkBytes()
    requires Whole(|result.data|, p.frame) && (p.silentLimit == 0 || loud)
    requires result.data != [] ==> c.read < Goal(p, file)
    requires !result.Timeout? && (result.Complete? ==> done) ==> c.read + |result.data| == Goal(p, file)
    requires result.Timeout? && result.data != [] && c.extraLeft > 0 ==> c.read + |result.data| == Goal(p, file)
    ensures InOrder(p, AfterRead(p, c, result, done, loud), file)
  {
    if result.Complete? && !done {
      EmitInOrder(p, c, file, result.data, c.extraLeft, loud);
    } else if result.data != [] {
      ShortReadInOrder(p, c, file, result.data, loud);
    } else {
      assert Taken(c, []) == c;
      if result.Timeout? {
        SentNothing(c.sent, Pause, p.frame);
      } else {
        FinishKeepsOrder(p, c, file);
      }
    }
  }

  /** A read that stops short, at the end of the file or at the limit, gets the rest of what there is to read. */
  lemma ShortReadIsLast<T>(p: Params<T>, c: Capture<T>, file: seq<T>, patience: Option<nat>)
    requires p.Valid() && WithinLimit(p, c) && c.read <= |file| && c.file == file[c.read..]
    ensures var (requested, done) := LimitCapture(p, c.read);
            var r := ReadFile(c.file, requested, patience);
            && (r.data != [] ==> c.read < Goal(p, file))
            && c.read + |r.data| <= Goal(p, file)
            && (!r.Timeout? && (r.Complete? ==> done) ==> c.read + |r.data| == Goal(p, file))
  {
  }

  lemma TurnKeepsOrder<T>(p: Params<T>, c: Capture<T>, file: seq<T>, t: Turn)
    requires Inv(p, c, file) && InOrder(p, c, file) && !c.ended && (p.silentLimit == 0 || Sounding(t))
    requires AlignedTurn(t, p.frame) && !AddsEarly(p, c, file, t)
    ensures InOrder(p, OnTurn(p, c, t), file)
  {
    match t {
      case Exit => SentNothing(c.sent, EndOfStream, p.frame);
      case Read(patience, loud) =>
        var (requested, done) := LimitCapture(p, c.read);
        ReadIsWhole(p, c, file, t);
        ShortReadIsLast(p, c, file, patience);
        AfterReadInOrder(p, c, file, ReadFile(c.file, requested, patience), done, loud);
    }
  }

  lemma {:induction false} RunKeepsOrder<T>(p: Params<T>, c: Capture<T>, file: seq<T>, turns: seq<Turn>)
    requires Inv(p, c, file) && InOrder(p, c, file) && (c.ended ==> !c.running) && Smooth(p, turns)
    requires NeverEarly(p, c, file, turns)
    ensures Inv(p, Run(p, c, turns), file) && InOrder(p, Run(p, c, turns), file)
    decreases |turns|
  {
    if turns != [] && c.running {
      SmoothRest(p, turns);
      TurnKeepsOrder(p, c, file, turns[0]);
      TurnKeepsInv(p, c, file, turns[0]);
      RunKeepsOrder(p, OnTurn(p, c, turns[0]), file, turns[1..]);
    }
  }

  /** When nothing is withheld and no read that is timed out half way finds extra silence to be filled up with, a stream
      that reached its end is, byte for byte, what there was to read followed by the extra silence. */
  lemma {:induction false} FileThenSilence<T>(p: Params<T>, file: seq<T>, turns: seq<Turn>)
    requires p.Valid() && Whole(p.readBytes, p.frame) && Whole(|file|, p.frame) && Smooth(p, turns)
    requires NeverEarly(p, Start(p, file), file, turns)
    ensures var c := Run(p, Start(p, file), turns);
            c.ended ==> Payload(c.sent, p.frame) == file[..Goal(p, file)] + Repeat(p.zero, p.ExtraBytes())
  {
    StartIsInv(p, file);
    assert file[..0] + Repeat(p.zero, 0) == [];
    RunKeepsOrder(p, Start(p, file), file, turns);
  }

  /** Silence that was added too early is there to stay. */
  ghost predicate SilentEarly<T>(p: Params<T>, payload: seq<T>, file: seq<T>, read: nat, n: nat) {
    n > 0 && read < Goal(p, file) && file[..read] + Repeat(p.zero, n) <= payload
  }

  /** What such a read leaves behind. */
  function EarlyLeft<T>(p: Params<T>, c: Capture<T>, t: Turn): (nat, nat)
    requires p.Valid() && WithinLimit(p, c) && t.Read?
  {
    var n := |ReadFile(c.file, LimitCapture(p, c.read).0, t.patience).data|;
    (c.read + n, c.extraLeft - FillUp(c.extraLeft, n, p.ChunkBytes()).1)
  }

  lemma EarlyShows<T>(p: Params<T>, c: Capture<T>, file: seq<T>, t: Turn)
    requires Inv(p, c, file) && InOrder(p, c, file) && !c.ended && (p.silentLimit == 0 || Sounding(t))
    requires AlignedTurn(t, p.frame) && AddsEarly(p, c, file, t)
    ensures SilentEarly(p, Payload(OnTurn(p, c, t).sent, p.frame), file, EarlyLeft(p, c, t).0, EarlyLeft(p, c, t).1)
  {
    var data := ReadFile(c.file, LimitCapture(p, c.read).0, t.patience).data;
    EarlyTurn(p, c, file, t);
    ReadIsWhole(p, c, file, t);
    FilledUpIsWhole(p, c.extraLeft, |data|);
    EmittedEarly(p, c, file, data, FillUp(c.extraLeft, |data|, p.ChunkBytes()).1, t.loud);
  }

  lemma EarlyTurn<T>(p: Params<T>, c: Capture<T>, file: seq<T>, t: Turn)
    requires p.Valid() && WithinLimit(p, c) && AddsEarly(p, c, file, t)
    ensures var data := ReadFile(c.file, LimitCapture(p, c.read).0, t.patience).data;
            var extraLeft := FillUp(c.extraLeft, |data|, p.ChunkBytes()).1;
            extraLeft < c.extraLeft && OnTurn(p, c, t) == Emitted(p, c, data, extraLeft, t.loud)
  {
  }

  lemma {:induction false} EmittedEarly<T>(p: Params<T>, c: Capture<T>, file: seq<T>, data: seq<T>, extraLeft: nat,
                                           loud: bool)
    requires Inv(p, c, file) && InOrder(p, c, file) && !c.ended && (p.silentLimit == 0 || loud)
    requires data <= c.file && data != [] && extraLeft < c.extraLeft &&
      |data| + (c.extraLeft - extraLeft) <= p.ChunkBytes()
    requires Whole(|data|, p.frame) && Whole(extraLeft, p.frame) && c.read + |data| < Goal(p, file)
    ensures SilentEarly(p, Payload(Emitted(p, c, data, extraLeft, loud).sent, p.frame), file,
                        c.read + |data|, c.extraLeft - extraLeft)
  {
    var e, n := Emitted(p, c, data, extraLeft, loud), c.extraLeft - extraLeft;
    NotWithheld(p, c, data, extraLeft, loud);
    EmitAdvances(p, c, data, extraLeft, loud);
    InOrderSoFar(p, c, file);
    FilledUpPayload(Payload(c.sent, p.frame), Payload(e.sent, p.frame), file, c.read, data, p.zero, n);
  }

  lemma InOrderSoFar<T>(p: Params<T>, c: Capture<T>, file: seq<T>)
    requires p.Valid() && InOrder(p, c, file) && c.read < Goal(p, file)
    ensures Payload(c.sent, p.frame) == file[..c.read]
  {
    assert file[..c.read] + Repeat(p.zero, 0) == file[..c.read];
  }

  lemma FilledUpPayload<T>(before: seq<T>, after: seq<T>, file: seq<T>, read: nat, data: seq<T>, zero: T, n: nat)
    requires read + |data| <= |file| && before == file[..read] && data != [] && data <= file[read..]
    requires PayloadGrew(before, after, data + Repeat(zero, n))
    ensures after == file[..read + |data|] + Repeat(zero, n)
  {
    assert file[..read + |data|] == file[..read] + data;
    Reassociate(before, data, Repeat(zero, n));
  }

  lemma {:induction false} SentGrows<T>(p: Params<T>, c: Capture<T>, turns: seq<Turn>)
    requires p.Valid() && WithinLimit(p, c)
    ensures c.sent <= Run(p, c, turns).sent
    decreases |turns|
  {
    if turns != [] && c.running { SentGrows(p, OnTurn(p, c, turns[0]), turns[1..]); }
  }

  lemma {:induction false} PayloadGrows<T>(a: seq<Message<T>>, b: seq<Message<T>>, frame: nat)
    requires a <= b
    ensures Payload(a, frame) <= Payload(b, frame)
  {
    assert b == a + b[|a|..];
    PayloadConcat(a, b[|a|..], frame);
  }

  lemma EarlyIsNotInOrder<T>(p: Params<T>, payload: seq<T>, file: seq<T>, read: nat, n: nat)
    requires SilentEarly(p, payload, file, read, n) && Loud(file, p.zero)
    ensures payload != file[..Goal(p, file)] + Repeat(p.zero, p.ExtraBytes())
  {
    assert payload[read] == (file[..read] + Repeat(p.zero, n))[read] == p.zero;
    assert (file[..Goal(p, file)] + Repeat(p.zero, p.ExtraBytes()))[read] == file[read];
  }

  lemma {:induction false} EarlyTurnShows<T>(p: Params<T>, c: Capture<T>, file: seq<T>, turns: seq<Turn>)
    requires Inv(p, c, file) && InOrder(p, c, file) && !c.ended && Loud(file, p.zero)
    requires turns != [] && c.running && (p.silentLimit == 0 || Sounding(turns[0]))
    requires AlignedTurn(turns[0], p.frame) && AddsEarly(p, c, file, turns[0])
    ensures Payload(Run(p, c, turns).sent, p.frame) != file[..Goal(p, file)] + Repeat(p.zero, p.ExtraBytes())
  {
    var d, e := OnTurn(p, c, turns[0]), Run(p, c, turns);
    EarlyShows(p, c, file, turns[0]);
    SentGrows(p, d, turns[1..]);
    StaysEarly(p, Payload(d.sent, p.frame), d.sent, e.sent, file, EarlyLeft(p, c, turns[0]).0,
      EarlyLeft(p, c, turns[0]).1);
  }

  lemma {:induction false} StaysEarly<T>(p: Params<T>, payload: seq<T>, a: seq<Message<T>>, b: seq<Message<T>>,
                                         file: seq<T>, read: nat, n: nat)
    requires a <= b && payload == Payload(a, p.frame) && SilentEarly(p, payload, file, read, n) && Loud(file, p.zero)
    ensures Payload(b, p.frame) != file[..Goal(p, file)] + Repeat(p.zero, p.ExtraBytes())
  {
    PayloadGrows(a, b, p.frame);
    EarlyIsNotInOrder(p, Payload(b, p.frame), file, read, n);
  }

  lemma {:induction false} EarlyRunShows<T>(p: Params<T>, c: Capture<T>, file: seq<T>, turns: seq<Turn>)
    requires Inv(p, c, file) && InOrder(p, c, file) && (c.ended ==> !c.running) && Smooth(p, turns)
    requires !NeverEarly(p, c, file, turns) && Loud(file, p.zero)
    ensures Payload(Run(p, c, turns).sent, p.frame) != file[..Goal(p, file)] + Repeat(p.zero, p.ExtraBytes())
    decreases |turns|
  {
    SmoothRest(p, turns);
    if AddsEarly(p, c, file, turns[0]) {
      EarlyTurnShows(p, c, file, turns);
    } else {
      TurnKeepsOrder(p, c, file, turns[0]);
      TurnKeepsInv(p, c, file, turns[0]);
      EarlyRunShows(p, OnTurn(p, c, turns[0]), file, turns[1..]);
    }
  }

  /** Exactly then: for data that can be told from silence, a stream that reached its end, with nothing withheld, is
      what there was to read followed by the extra silence if and only if no read was timed out half way while there
      was extra silence left and more to read. */
  lemma {:induction false} LoudFileThenSilenceIff<T>(p: Params<T>, file: seq<T>, turns: seq<Turn>)
    requires p.Valid() && Whole(p.readBytes, p.frame) && Whole(|file|, p.frame) && Loud(file, p.zero) &&
      Smooth(p, turns)
    requires Run(p, Start(p, file), turns).ended
    ensures (Payload(Run(p, Start(p, file), turns).sent, p.frame) ==
             file[..Goal(p, file)] + Repeat(p.zero, p.ExtraBytes()))
            <==> NeverEarly(p, Start(p, file), file, turns)
  {
    if NeverEarly(p, Start(p, file), file, turns) {
      FileThenSilence(p, file, turns);
    } else {
      StartIsInv(p, file);
      assert file[..0] + Repeat(p.zero, 0) == [];
      EarlyRunShows(p, Start(p, file), file, turns);
    }
  }

  /** It does happen: a read that is timed out half way is filled up like the last one. */
  lemma TimeoutFillsUpTheMiddle()
    ensures var p := Params(0, 1, 2, 1, 0, 0);
            var c := Run(p, Start(p, [5, 6]), [Read(Some(1), true), Read(None, true), Read(None, true)]);
            c.ended && Payload(c.sent, 1) == [5, 0, 6]
  {
    var p := Params(0, 1, 2, 1, 0, 0);
    ShortRounds(p);
    ThreeRounds(p, Start(p, [5, 6]), Read(Some(1), true), Read(None, true), Read(None, true));
    ShortPayload();
  }

  lemma {:induction false} ThreeRounds<T>(p: Params<T>, c: Capture<T>, t: Turn, u: Turn, v: Turn)
    requires p.Valid() && WithinLimit(p, c) && c.running && OnTurn(p, c, t).running &&
      OnTurn(p, OnTurn(p, c, t), u).running
    ensures Run(p, c, [t, u, v]) == OnTurn(p, OnTurn(p, OnTurn(p, c, t), u), v)
  {
    var d := OnTurn(p, c, t);
    var e := OnTurn(p, d, u);
    assert [t, u, v][1..] == [u, v] && [u, v][1..] == [v] && [v][1..] == [];
    assert Run(p, c, [t, u, v]) == Run(p, d, [u, v]);
    assert Run(p, d, [u, v]) == Run(p, e, [v]);
    assert Run(p, e, [v]) == Run(p, OnTurn(p, e, v), []);
  }

  lemma ShortPayload()
    ensures Payload([Audio([5, 0], 2), Audio([6, 0], 1), EndOfStream], 1) == [5, 0, 6]
  {
    assert Times(2, 1) == 2 && Times(1, 1) == 1;
    PayloadOfOne(Audio([5, 0], 2), 1);
    SentOne([Audio([5, 0], 2)], Audio([6, 0], 1), 1);
    var sent := [Audio([5, 0], 2)] + [Audio([6, 0], 1)];
    SentNothing(sent, EndOfStream, 1);
    assert sent + [EndOfStream] == [Audio([5, 0], 2), Audio([6, 0], 1), EndOfStream];
  }

  lemma ShortRounds(p: Params<int>)
    requires p == Params(0, 1, 2, 1, 0, 0)
    ensures p.Valid()
    ensures OnTurn(p, Start(p, [5, 6]), Read(Some(1), true)) ==
      Capture([6], 1, 0, 0, [Audio([5, 0], 2)], 0, false, true)
    ensures OnTurn(p, Capture([6], 1, 0, 0, [Audio([5, 0], 2)], 0, false, true), Read(None, true)) ==
            Capture([], 2, 0, 0, [Audio([5, 0], 2), Audio([6, 0], 1)], 0, false, true)
    ensures OnTurn(p, Capture([], 2, 0, 0, [Audio([5, 0], 2), Audio([6, 0], 1)], 0, false, true), Read(None, true)) ==
            Capture([], 2, 0, 0, [Audio([5, 0], 2), Audio([6, 0], 1), EndOfStream], 0, true, false)
  {
    assert [5] + Repeat(0, 1) == [5, 0] && [6] + Repeat(0, 1) == [6, 0];
    assert [5, 6][..1] == [5] && [5, 6][1..] == [6];
    assert Times(2, 1) == 2 && Times(1, 1) == 1 && Count(1, 1) == 1 && Count(2, 1) == 2 && Count(0, 1) == 0;
  }

  // ---------------------------------------------------------------------------------------------
  // When the stream is paused
  // ---------------------------------------------------------------------------------------------

  /** A round in which there is a chunk to be sent or withheld. */
  predicate HasChunk<T>(p: Params<T>, c: Capture<T>, t: Turn)
    requires p.Valid() && WithinLimit(p, c)
  {
    t.Read? && ReadFile(c.file, LimitCapture(p, c.read).0, t.patience).data != []
  }

  /** Which of the chunks of a run are loud. */
  function Loudness<T>(p: Params<T>, c: Capture<T>, turns: seq<Turn>): seq<bool>
    requires p.Valid() && WithinLimit(p, c)
    decreases |turns|
  {
    if turns == [] || !c.running then []
    else (if HasChunk(p, c, turns[0]) then [turns[0].loud] else []) + Loudness(p, OnTurn(p, c, turns[0]), turns[1..])
  }

  function CountFrom(limit: nat, silent: nat, louds: seq<bool>): nat
    decreases |louds|
  {
    if louds == [] then silent else CountFrom(limit, CountSilent(limit, silent, louds[0]), louds[1..])
  }

  /** The last k chunks were silent. */
  predicate SilentLately(louds: seq<bool>, k: nat) {
    k <= |louds| && forall i :: |louds| - k <= i < |louds| ==> !louds[i]
  }

  lemma TurnCounts<T>(p: Params<T>, c: Capture<T>, t: Turn)
    requires p.Valid() && WithinLimit(p, c)
    ensures OnTurn(p, c, t).silent ==
      if HasChunk(p, c, t) then CountSilent(p.silentLimit, c.silent, t.loud) else c.silent
  {
    FrameFitsChunk(p);
  }

  lemma {:induction false} RunCounts<T>(p: Params<T>, c: Capture<T>, turns: seq<Turn>)
    requires p.Valid() && WithinLimit(p, c)
    ensures Run(p, c, turns).silent == CountFrom(p.silentLimit, c.silent, Loudness(p, c, turns))
    decreases |turns|
  {
    if turns != [] && c.running {
      TurnCounts(p, c, turns[0]);
      RunCounts(p, OnTurn(p, c, turns[0]), turns[1..]);
      var later := Loudness(p, OnTurn(p, c, turns[0]), turns[1..]);
      if HasChunk(p, c, turns[0]) {
        assert ([turns[0].loud] + later)[1..] == later;
      } else {
        assert [] + later == later;
      }
    }
  }

  lemma {:induction false} CountsInARow(limit: nat, silent: nat, louds: seq<bool>, k: nat)
    requires limit > 0
    ensures CountFrom(limit, silent, louds) >= k <==>
            if k <= |louds| then SilentLately(louds, k) else SilentLately(louds, |louds|) && silent + |louds| >= k
    decreases |louds|
  {
    if louds != [] {
      CountsInARow(limit, CountSilent(limit, silent, louds[0]), louds[1..], k);
      assert forall i :: 1 <= i < |louds| ==> louds[i] == louds[1..][i - 1];
      assert forall i :: 0 <= i < |louds[1..]| ==> louds[1..][i] == louds[i + 1];
    }
  }

  /** After any run: the next chunk is withheld if and only if there is a limit to silence, the chunk is silent, and so
      were as many chunks before it as the limit says. */
  lemma {:induction false} PausesAfterSilence<T>(p: Params<T>, file: seq<T>, turns: seq<Turn>, loud: bool)
    requires p.Valid()
    ensures Pausing(p, Run(p, Start(p, file), turns), loud) <==>
            p.silentLimit > 0 && !loud && SilentLately(Loudness(p, Start(p, file), turns), p.silentLimit)
  {
    RunCounts(p, Start(p, file), turns);
    if p.silentLimit > 0 { CountsInARow(p.silentLimit, 0, Loudness(p, Start(p, file), turns), p.silentLimit); }
  }

  // ---------------------------------------------------------------------------------------------
  // The loop
  // ---------------------------------------------------------------------------------------------

  /** The variables of the capture loop. */
  class CaptureLoop<T> {
    const p: Params<T>
    var buf: array<T>
    var file: seq<T>
    var bytesRead: nat
    var extraBytesLeft: nat
    var silentChunks: nat
    var sent: seq<Message<T>>
    ghost var withheld: nat
    var ended: bool
    var running: bool

    ghost predicate Valid()
      reads this
    {
      p.Valid() && buf.Length >= p.ChunkBytes() && WithinLimit(p, Now())
    }

    ghost function Now(): Capture<T>
      reads this
    {
      Capture(file, bytesRead, extraBytesLeft, silentChunks, sent, withheld, ended, running)
    }

    constructor (p: Params<T>, file: seq<T>, bufferBytes: nat)
      requires p.Valid() && bufferBytes >= p.ChunkBytes()
      ensures this.p == p && Valid() && Now() == Start(p, file) && fresh(buf)
    {
      this.p, this.file := p, file;
      buf := new T[bufferBytes](_ => p.zero);
      bytesRead, extraBytesLeft, silentChunks, sent := 0, p.ExtraBytes(), 0, [];
      withheld, ended, running := 0, false, true;
    }

    /** How much to read next. A buffer that is too small for it is extended. */
    method LimitCaptureBytes() returns (count: nat, done: bool)
      requires p.Valid() && WithinLimit(p, Now())
      modifies this`buf
      ensures (count, done) == LimitCapture(p, bytesRead) && buf.Length >= count && buf.Length >= old(buf.Length)
      ensures buf == old(buf) || fresh(buf)
    {
      if p.readBytes == 0 || (p.readBytes > 0 && bytesRead + p.ChunkBytes() <= p.readBytes) {
        count, done := p.ChunkBytes(), false;
      } else {
        count, done := p.readBytes - bytesRead, true;
      }
      if count > buf.Length {
        var was := buf;
        buf := new T[count](i requires 0 <= i reads was => if i < was.Length then was[i] else p.zero);
      }
    }

    /** What a read leaves in the buffer. */
    method Store(data: seq<T>)
      requires |data| <= buf.Length
      modifies buf
      ensures buf[..|data|] == data
    {
      for i := 0 to |data|
        invariant buf[..i] == data[..i]
      {
        buf[i] := data[i];
      }
      assert data[..|data|] == data;
    }

    /** Whatever earlier reads left behind the bytes of a short read is overwritten. */
    method ZeroTail(bytes: nat)
      requires Valid() && bytes <= p.ChunkBytes()
      modifies buf
      ensures buf[..p.ChunkBytes()] == old(buf[..bytes]) + Repeat(p.zero, p.ChunkBytes() - bytes)
    {
      for i := bytes to p.ChunkBytes()
        invariant buf[..i] == old(buf[..bytes]) + Repeat(p.zero, i - bytes)
      {
        buf[i] := p.zero;
      }
    }

    method SendSilence(frames: nat)
      requires p.Valid()
      modifies this`sent
      ensures sent == old(sent) + SilentChunks(p, frames)
    {
      var left: nat := frames;
      while left > 0
        invariant sent + SilentChunks(p, left) == old(sent) + SilentChunks(p, frames)
      {
        var n := if left > p.chunkFrames then p.chunkFrames else left;
        var chunk := [Audio(Repeat(p.zero, p.ChunkBytes()), n)];
        assert sent + (chunk + SilentChunks(p, left - n)) == (sent + chunk) + SilentChunks(p, left - n);
        sent := sent + chunk;
        left := left - n;
      }
    }

    /** Counts silent chunks and says whether to pause. */
    method UpdateSilence(loud: bool) returns (pausing: bool)
      modifies this`silentChunks
      ensures pausing == Pausing(p, old(Now()), loud)
      ensures silentChunks == CountSilent(p.silentLimit, old(silentChunks), loud)
    {
      pausing := false;
      if p.silentLimit > 0 {
        if loud {
          silentChunks := 0;
        } else {
          pausing := silentChunks >= p.silentLimit;
          silentChunks := silentChunks + 1;
        }
      }
    }

    /** Sends the buffer on, or a pause in its place. */
    method SendChunk(ghost data: seq<T>, valid: nat, loud: bool)
      requires Valid() && |data| <= p.ChunkBytes()
      requires buf[..p.ChunkBytes()] == data + Repeat(p.zero, p.ChunkBytes() - |data|)
      modifies this`silentChunks, this`sent, this`withheld
      ensures Valid() && Now() == Emit(p, old(Now()), data, valid, loud)
    {
      var pausing := UpdateSilence(loud);
      if pausing {
        sent := sent + [Pause];
        withheld := withheld + valid;
      } else {
        sent := sent + [Audio(buf[..p.ChunkBytes()], Count(valid, p.frame))];
      }
    }

    /** Fills a short read up with extra silence. */
    method SendShortRead(data: seq<T>, loud: bool)
      requires Valid() && data <= file && |data| <= p.ChunkBytes() && WithinLimit(p, Taken(Now(), data))
      requires buf[..|data|] == data
      modifies this, buf
      ensures buf == old(buf) && Valid()
      ensures Now() == Emitted(p, old(Now()), data, FillUp(old(extraBytesLeft), |data|, p.ChunkBytes()).1, loud)
    {
      file := file[|data|..];
      bytesRead := bytesRead + |data|;
      ZeroTail(|data|);
      var missing := p.ChunkBytes() - |data|;
      var valid := |data|;
      if extraBytesLeft > missing {
        valid := p.ChunkBytes();
        extraBytesLeft := extraBytesLeft - missing;
      } else {
        valid := valid + extraBytesLeft;
        extraBytesLeft := 0;
      }
      SendChunk(data, valid, loud);
    }

    method SendWholeRead(data: seq<T>, loud: bool)
      requires Valid() && data <= file && |data| == p.ChunkBytes() && WithinLimit(p, Taken(Now(), data))
      requires buf[..|data|] == data
      modifies this
      ensures buf == old(buf) && Valid() && Now() == Emitted(p, old(Now()), data, old(extraBytesLeft), loud)
    {
      file := file[|data|..];
      bytesRead := bytesRead + |data|;
      assert data + Repeat(p.zero, 0) == data;
      SendChunk(data, |data|, loud);
    }

    method SendEnd()
      requires Valid()
      modifies this
      ensures buf == old(buf) && Valid() && Now() == Finish(p, old(Now()))
    {
      SendSilence(Count(extraBytesLeft, p.frame));
      sent := sent + [EndOfStream];
      extraBytesLeft, ended, running := 0, true, false;
    }

    /** One round of the loop. */
    method Round(t: Turn)
      requires Valid()
      modifies this, buf
      ensures Valid() && Now() == OnTurn(p, old(Now()), t) && (buf == old(buf) || fresh(buf))
    {
      if t.Exit? {
        sent := sent + [EndOfStream];
        running := false;
        return;
      }
      var count, done := LimitCaptureBytes();
      var result := ReadFile(file, count, t.patience);
      Store(result.data);
      if result.Complete? && !done {
        SendWholeRead(result.data, t.loud);
      } else if |result.data| > 0 {
        SendShortRead(result.data, t.loud);
      } else if result.Timeout? {
        sent := sent + [Pause];
      } else {
        SendEnd();
      }
    }

    method Loop(turns: seq<Turn>)
      requires Valid()
      modifies this, buf
      ensures Valid() && Now() == Run(p, old(Now()), turns)
    {
      var i := 0;
      ghost var goal := Run(p, Now(), turns);
      while i < |turns| && running
        invariant Valid() && i <= |turns| && (buf == old(buf) || fresh(buf))
        invariant Run(p, Now(), turns[i..]) == goal
      {
        assert turns[i..][1..] == turns[i + 1..];
        Round(turns[i]);
        i := i + 1;
      }
    }
  }
}
