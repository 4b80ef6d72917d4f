/** The messages a file capture sends: what each round sends, and that the end of the stream comes once and last. */
module CaptureMessages {
  import opened Audio
  import opened Frames
  import opened Sounds
  import opened FileCapture

  /** As long as capturing goes on, the end has not been sent; afterwards it is the last message, and the only such. */
  ghost predicate EndsOnce<T>(sent: seq<Message<T>>, running: bool) {
    if running then EndOfStream !in sent
    else sent != [] && sent[|sent| - 1] == EndOfStream && EndOfStream !in sent[..|sent| - 1]
  }

  lemma {:induction false} NoEndInSilence<T>(p: Params<T>, frames: nat)
    requires p.Valid()
    ensures EndOfStream !in SilentChunks(p, frames)
    decreases frames
  {
    if frames > 0 { NoEndInSilence(p, frames - MinNat(frames, p.chunkFrames)); }
  }

  lemma EndsOnceMore<T>(sent: seq<Message<T>>, more: seq<Message<T>>)
    requires EndOfStream !in sent && EndOfStream !in more
    ensures EndsOnce(sent + more, true) && EndsOnce(sent + more + [EndOfStream], false)
  {
    assert (sent + more + [EndOfStream])[..|sent + more|] == sent + more;
  }

  lemma TurnEndsOnce<T>(p: Params<T>, c: Capture<T>, t: Turn)
    requires p.Valid() && WithinLimit(p, c) && c.running && EndsOnce(c.sent, true)
    ensures EndsOnce(OnTurn(p, c, t).sent, OnTurn(p, c, t).running)
  {
    NoEndInSilence(p, Count(c.extraLeft, p.frame));
    EndsOnceMore(c.sent, SilentChunks(p, Count(c.extraLeft, p.frame)));
    EndsOnceMore(c.sent, []);
    assert c.sent + [] == c.sent;
  }

  lemma {:induction false} RunEndsOnce<T>(p: Params<T>, c: Capture<T>, turns: seq<Turn>)
    requires p.Valid() && WithinLimit(p, c) && EndsOnce(c.sent, c.running)
    ensures EndsOnce(Run(p, c, turns).sent, Run(p, c, turns).running)
    decreases |turns|
  {
    if turns != [] && c.running {
      TurnEndsOnce(p, c, turns[0]);
      RunEndsOnce(p, OnTurn(p, c, turns[0]), turns[1..]);
    }
  }

  /** Over every run, commands to exit included: the end of the stream is sent once, as the last message, and not before
      capturing stops. */
  lemma {:induction false} EndIsSentOnceAndLast<T>(p: Params<T>, file: seq<T>, turns: seq<Turn>)
    requires p.Valid()
    ensures var c := Run(p, Start(p, file), turns); EndsOnce(c.sent, c.running)
  {
    RunEndsOnce(p, Start(p, file), turns);
  }

  /** A command to exit ends the capture at once: no byte is read any more, and nothing but the end is sent. */
  lemma {:induction false} ExitEndsAtOnce<T>(p: Params<T>, c: Capture<T>, turns: seq<Turn>, later: seq<Turn>)
    requires p.Valid() && WithinLimit(p, c) && Run(p, c, turns).running
    ensures Run(p, c, turns + [Exit] + later) ==
            Run(p, c, turns).(sent := Run(p, c, turns).sent + [EndOfStream], running := false)
    decreases |turns|
  {
    if turns == [] {
      assert (turns + [Exit] + later)[0] == Exit;
    } else {
      assert c.running;
      assert (turns + [Exit] + later)[1..] == turns[1..] + [Exit] + later;
      ExitEndsAtOnce(p, OnTurn(p, c, turns[0]), turns[1..], later);
    }
  }

  /** One round without a command: a read that gets nothing in time sends a pause; one that gets nothing because there
      is
      nothing left sends the rest of the silence and the end; any other sends one message, a pause if the chunk is one
      silent chunk too many, and otherwise the bytes, filled up to a chunk. A short read is made longer by extra
      silence,
      as far as there is room and silence. */
  lemma {:induction false} ReadSends<T>(p: Params<T>, c: Capture<T>, patience: Option<nat>, loud: bool)
    requires p.Valid() && WithinLimit(p, c)
    ensures var (requested, done) := LimitCapture(p, c.read);
            var r := ReadFile(c.file, requested, patience);
            var e := OnTurn(p, c, Read(patience, loud));
            e.file == c.file[|r.data|..] && e.read == c.read + |r.data| && e.extraLeft <= c.extraLeft &&
            if r.data == [] && r.Timeout? then e == c.(sent := c.sent + [Pause])
            else if r.data == [] then
              e.sent == c.sent + SilentChunks(p, Count(c.extraLeft, p.frame)) + [EndOfStream] && e.ended && !e.running
            else
              var filled := |r.data| + (c.extraLeft - e.extraLeft);
              filled <= p.ChunkBytes() && e.running == c.running && e.ended == c.ended &&
              (if r.Complete? && !done then filled == |r.data| else filled == p.ChunkBytes() || e.extraLeft == 0) &&
              e.sent == c.sent + [if p.silentLimit > 0 && !loud && c.silent >= p.silentLimit then Pause
                                  else Audio(r.data + Repeat(p.zero, p.ChunkBytes() - |r.data|),
                                             Count(filled, p.frame))]
  {
    FrameFitsChunk(p);
  }
}
