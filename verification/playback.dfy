/** Playback through a ring buffer: an outer thread feeds bytes and announces them, a real-time inner thread takes them
    out and writes them to a device that may take any part of a write, refuse it, or stall. */
module ThreadedPlayback {
  import opened Audio
  import opened Frames

  newtype Byte = b: int | 0 <= b < 256

  datatype Message = Data(bytes: nat) | Pause | SetPitch | EndOfStream

  datatype Producer = Feeding | Finished | Gone

  /** Where the inner loop is. */
  datatype Position =
    | Check
    | Drain
    | Prepare
    | Write(bytes: seq<Byte>)
    | Poll
    | Done(complete: bool)       // reported that playback is done, or that the channel broke

  /** What the device was given, in order. */
  datatype Written = Played(bytes: seq<Byte>) | Silent(count: nat) {
    function Size(): nat { if Played? then |bytes| else count }

    function Audio(): seq<Byte> { if Played? then bytes else [] }
  }

  datatype State = State(
    frame: nat,                  // bytes per frame
    silence: nat,                // bytes of one chunk of silence
    capacity: nat,               // of the ring buffer
    producer: Producer,
    pushed: seq<Byte>,           // everything that ever went into the ring buffer
    unannounced: nat,            // bytes pushed last, whose message is not sent yet
    ring: seq<Byte>,
    messages: seq<Message>,
    position: Position,
    queueBytes: nat,             // announced and not yet written
    remainder: seq<Byte>,        // taken out of the ring buffer and not yet written
    stalled: bool,
    endOfStream: bool,
    disconnected: bool,
    device: seq<Written>)

  /** What the device answers to a write. An error answer is not covered. */
  datatype Answer = Normal(frames: nat) | Stalled

  datatype Event =
    // the outer thread
    | Pushes(bytes: seq<Byte>) | Announces | SendsOther(m: Message) | Finishes | Vanishes
    // the inner thread; `primed` counts silent frames that are written to recover the device
    | Checks | Drains | Prepares | Writes(answer: Answer, primed: nat) | Polls(bufferLow: bool, primed: nat)

  // ---------------------------------------------------------------------------------------------
  // The outer thread
  // ---------------------------------------------------------------------------------------------

  /** A chunk is pushed as a whole, if there is room for all of it. */
  function PushStep(s: State, bytes: seq<Byte>): Option<State> {
    if !s.producer.Feeding? || s.unannounced > 0 || s.frame == 0 || !Whole(|bytes|, s.frame) ||
       |s.ring| + |bytes| > s.capacity
    then None
    else Some(s.(ring := s.ring + bytes, pushed := s.pushed + bytes, unannounced := |bytes|))
  }

  function AnnounceStep(s: State): Option<State> {
    if !s.producer.Feeding? || s.unannounced == 0 then None
    else Some(s.(messages := s.messages + [Data(s.unannounced)], unannounced := 0))
  }

  function SendOtherStep(s: State, m: Message): Option<State> {
    if !s.producer.Feeding? || s.unannounced > 0 || !(m.Pause? || m.SetPitch?) then None
    else Some(s.(messages := s.messages + [m]))
  }

  function FinishStep(s: State): Option<State> {
    if !s.producer.Feeding? || s.unannounced > 0 then None
    else Some(s.(messages := s.messages + [EndOfStream], producer := Finished))
  }

  /** The outer thread dies and drops its end of the channel. */
  function VanishStep(s: State): Option<State> { Some(s.(producer := Gone)) }

  // ---------------------------------------------------------------------------------------------
  // The inner thread
  // ---------------------------------------------------------------------------------------------

  function Available(s: State): nat { MinNat(s.queueBytes, |s.ring|) }

  function CheckStep(s: State): Option<State> {
    if !s.position.Check? then None
    else if Available(s) >= s.frame || s.remainder != [] then Some(s.(position := Drain))
    else if s.endOfStream || s.disconnected then Some(s.(position := Done(!s.disconnected)))
    else Some(s.(position := Poll))
  }

  /** Takes one message, or notices that there is none; then goes on to prepare. */
  function DrainStep(s: State): Option<State> {
    if !s.position.Drain? then None
    else if s.messages == [] then
      Some(s.(position := Prepare, disconnected := s.disconnected || s.producer.Gone?))
    else
      var rest := s.(messages := s.messages[1..]);
      match s.messages[0]
      case Data(n) => Some(rest.(queueBytes := s.queueBytes + n))
      case EndOfStream => Some(rest.(endOfStream := true, position := Prepare))
      case _ => Some(rest)
  }

  /** Bytes for the next write: what was left over, or else the whole frames at hand; None when there is no frame. */
  function PrepareBytes(remainder: seq<Byte>, ring: seq<Byte>, available: nat,
                        frame: nat): (r: Option<(seq<Byte>, seq<Byte>)>)
    requires frame > 0 && available <= |ring|
  {
    if remainder != [] then Some((remainder, ring))
    else
      var aligned := available - available % frame;
      if aligned == 0 then None else Some((ring[..aligned], ring[aligned..]))
  }

  function Zeros(n: nat): seq<Byte> { seq(n, _ => 0) }

  function PrepareStep(s: State): Option<State>
    requires s.frame > 0
  {
    if !s.position.Prepare? then None
    else
      match PrepareBytes(s.remainder, s.ring, Available(s), s.frame)
      case Some((bytes, rest)) => Some(s.(position := Write(bytes), ring := rest))
      case None => Some(s.(position := Write(Zeros(s.silence))))
  }

  /** What the device takes of the bytes it is offered: as many frames from the front as it answers, or all there are.
      It does so whatever the loop makes of the answer. */
  function TakenBytes(offered: seq<Byte>, answer: Answer, frame: nat): seq<Byte> {
    if answer.Stalled? then []
    else if answer.frames * frame < |offered| then offered[..answer.frames * frame]
    else offered
  }

  /** What the loop makes of the answer to a write of `bytes`. */
  function Applied(s: State, bytes: seq<Byte>, answer: Answer): State {
    match answer
    case Normal(frames) =>
      var written := MinNat(Times(frames, s.frame), |bytes|);
      s.(queueBytes := Sub(s.queueBytes, written),
         remainder := if written < |bytes| then bytes[written..] else [],
         stalled := false)
    case Stalled =>
      s.(remainder := if s.remainder == [] then bytes else s.remainder, stalled := true)
  }

  function WriteStep(s: State, answer: Answer, primed: nat): Option<State> {
    if !s.position.Write? then None
    else
      var taken := TakenBytes(s.position.bytes, answer, s.frame);
      var t := s.(device := s.device + [Silent(Times(primed, s.frame))] + [Played(taken)], position := Check);
      Some(Applied(t, s.position.bytes, answer))
  }

  /** Nothing to play: look for one message, and keep a device that runs low busy with silence. */
  function PollStep(s: State, bufferLow: bool, primed: nat): Option<State> {
    if !s.position.Poll? then None
    else if s.messages == [] then
      if s.producer.Gone? then Some(s.(position := Done(false)))
      else
        Some(s.(position := Check,
                device := if bufferLow then s.device + [Silent(Times(primed, s.frame))] else s.device))
    else
      var rest := s.(messages := s.messages[1..], position := Check);
      match s.messages[0]
      case Data(n) => Some(rest.(queueBytes := s.queueBytes + n))
      case EndOfStream => Some(rest.(position := Done(true)))
      case _ => Some(rest)
  }

  function Next(s: State, e: Event): Option<State>
    requires s.frame > 0
  {
    match e
    case Pushes(bytes) => PushStep(s, bytes)
    case Announces => AnnounceStep(s)
    case SendsOther(m) => SendOtherStep(s, m)
    case Finishes => FinishStep(s)
    case Vanishes => VanishStep(s)
    case Checks => CheckStep(s)
    case Drains => DrainStep(s)
    case Prepares => PrepareStep(s)
    case Writes(answer, primed) => WriteStep(s, answer, primed)
    case Polls(bufferLow, primed) => PollStep(s, bufferLow, primed)
  }

  function Initial(frame: nat, silence: nat, capacity: nat): State {
    State(frame, silence, capacity, Feeding, [], 0, [], [], Check, 0, [], false, false, false, [])
  }

  // ---------------------------------------------------------------------------------------------
  // What every step keeps
  // ---------------------------------------------------------------------------------------------

  /** Audio the device has taken, without the silence. */
  function Accepted(device: seq<Written>): seq<Byte> {
    if device == [] then []
    else
      var n := |device| - 1;
      Accepted(device[..n]) + device[n].Audio()
  }

  function Announced(messages: seq<Message>): nat {
    if messages == [] then 0 else (if messages[0].Data? then messages[0].bytes else 0) + Announced(messages[1..])
  }

  /** Taken out of the ring buffer and not yet with the device. */
  function InHand(s: State): seq<Byte> {
    if s.position.Write? then s.position.bytes else s.remainder
  }

  predicate WholeMessages(messages: seq<Message>, frame: nat)
    requires frame > 0
  {
    messages == [] ||
    ((messages[0].Data? ==> Whole(messages[0].bytes, frame)) && WholeMessages(messages[1..], frame))
  }

  predicate WholeWrites(device: seq<Written>, frame: nat)
    requires frame > 0
  {
    device == [] ||
    var n := |device| - 1;
    Whole(device[n].Size(), frame) && WholeWrites(device[..n], frame)
  }

  /** Silence and audio only ever change over at the boundary of a frame. */
  ghost predicate WholeFrames(s: State)
    requires s.frame > 0
  {
    && Whole(|s.ring|, s.frame) && Whole(|InHand(s)|, s.frame) && Whole(s.queueBytes, s.frame) &&
       Whole(s.unannounced, s.frame)
    && WholeMessages(s.messages, s.frame) && WholeWrites(s.device, s.frame)
  }

  predicate HasEnd(messages: seq<Message>) { messages != [] && messages[|messages| - 1].EndOfStream? }

  /** The end of the stream, if it is there at all, is the last message. */
  predicate EndIsLast(messages: seq<Message>) {
    messages == [] || ((messages[0].EndOfStream? ==> |messages| == 1) && EndIsLast(messages[1..]))
  }

  ghost predicate EndComesLast(s: State) {
    && EndIsLast(s.messages)
    && (s.producer.Feeding? ==> !HasEnd(s.messages) && !s.endOfStream)
    && (s.producer.Finished? ==> s.unannounced == 0)
    && (HasEnd(s.messages) ==> s.unannounced == 0 && !s.endOfStream)
    && (s.endOfStream ==> s.messages == [] && s.unannounced == 0)
  }

  /** Nothing is lost, doubled or reordered, and the counter is right. */
  ghost predicate Conserved(s: State) {
    && s.pushed == Accepted(s.device) + InHand(s) + s.ring
    && s.queueBytes + Announced(s.messages) + s.unannounced == |InHand(s)| + |s.ring|
    && |InHand(s)| <= s.queueBytes
  }

  ghost predicate PositionIsRight(s: State) {
    && (s.position.Write? ==> s.position.bytes != [] && (s.remainder == [] || s.remainder == s.position.bytes))
    && (s.position.Drain? || s.position.Prepare? ==> s.remainder != [] || Available(s) >= s.frame)
    && (s.position.Poll? ==> s.remainder == [] && s.queueBytes == 0 && !s.endOfStream)
    && (s.position == Done(true) ==> !s.producer.Feeding? && Accepted(s.device) == s.pushed)
  }

  ghost predicate Inv(s: State) {
    s.frame > 0 && Conserved(s) && WholeFrames(s) && EndComesLast(s) && PositionIsRight(s)
  }

  lemma InitialIsInv(frame: nat, silence: nat, capacity: nat)
    requires frame > 0
    ensures Inv(Initial(frame, silence, capacity))
  {
  }

  lemma {:induction false} WrittenMore(device: seq<Written>, w: Written, frame: nat)
    requires frame > 0
    ensures Accepted(device + [w]) == Accepted(device) + w.Audio()
    ensures WholeWrites(device + [w], frame) <==> WholeWrites(device, frame) && Whole(w.Size(), frame)
  {
    assert (device + [w])[..|device|] == device;
  }

  lemma {:induction false} SentMore(messages: seq<Message>, m: Message, frame: nat)
    requires frame > 0
    ensures Announced(messages + [m]) == Announced(messages) + if m.Data? then m.bytes else 0
    ensures WholeMessages(messages + [m], frame) <==>
      WholeMessages(messages, frame) && (m.Data? ==> Whole(m.bytes, frame))
    ensures EndIsLast(messages) && !HasEnd(messages) ==> EndIsLast(messages + [m])
  {
    if messages != [] {
      assert (messages + [m])[1..] == messages[1..] + [m];
      SentMore(messages[1..], m, frame);
    }
  }

  lemma OuterKeepsInv(s: State, e: Event)
    requires Inv(s) && (e.Pushes? || e.Announces? || e.SendsOther? || e.Finishes? || e.Vanishes?)
    requires Next(s, e).Some?
    ensures Inv(Next(s, e).value)
  {
    match e {
      case Pushes(bytes) => PushKeepsInv(s, bytes);
      case Announces => AnnounceKeepsInv(s);
      case SendsOther(m) => SendOtherKeepsInv(s, m);
      case Finishes => FinishKeepsInv(s);
      case Vanishes =>
    }
  }

  lemma PushKeepsInv(s: State, bytes: seq<Byte>)
    requires Inv(s) && PushStep(s, bytes).Some?
    ensures Inv(PushStep(s, bytes).value)
  {
    WholeSum(|s.ring|, |bytes|, s.frame);
    assert Accepted(s.device) + InHand(s) + (s.ring + bytes) == s.pushed + bytes;
  }

  lemma AnnounceKeepsInv(s: State)
    requires Inv(s) && AnnounceStep(s).Some?
    ensures Inv(AnnounceStep(s).value)
  {
    SentMore(s.messages, Data(s.unannounced), s.frame);
  }

  lemma SendOtherKeepsInv(s: State, m: Message)
    requires Inv(s) && SendOtherStep(s, m).Some?
    ensures Inv(SendOtherStep(s, m).value)
  {
    SentMore(s.messages, m, s.frame);
  }

  lemma FinishKeepsInv(s: State)
    requires Inv(s) && FinishStep(s).Some?
    ensures Inv(FinishStep(s).value)
  {
    SentMore(s.messages, EndOfStream, s.frame);
  }

  lemma CheckKeepsInv(s: State)
    requires Inv(s) && CheckStep(s).Some?
    ensures Inv(CheckStep(s).value)
  {
    if s.remainder == [] && Available(s) < s.frame {
      assert s.queueBytes == 0;
      assert s.endOfStream ==> s.ring == [];
      assert Accepted(s.device) + [] + [] == Accepted(s.device);
    }
  }

  /** What taking the first message away does to the queue. */
  lemma FirstMessage(s: State)
    requires Inv(s) && s.messages != []
    ensures WholeMessages(s.messages[1..], s.frame) && EndIsLast(s.messages[1..])
    ensures s.messages[0].Data? ==>
      Whole(s.messages[0].bytes, s.frame) && Whole(s.queueBytes + s.messages[0].bytes, s.frame)
    ensures if s.messages[0].EndOfStream? then HasEnd(s.messages) && s.messages[1..] == []
            else HasEnd(s.messages[1..]) == HasEnd(s.messages)
  {
    if s.messages[0].Data? { WholeSum(s.queueBytes, s.messages[0].bytes, s.frame); }
  }

  lemma DrainKeepsInv(s: State)
    requires Inv(s) && DrainStep(s).Some?
    ensures Inv(DrainStep(s).value)
  {
    if s.messages != [] {
      FirstMessage(s);
      DrainKeepsConserved(s);
      DrainKeepsOrder(s);
    }
  }

  lemma DrainKeepsConserved(s: State)
    requires Conserved(s) && DrainStep(s).Some? && s.messages != []
    ensures Conserved(DrainStep(s).value)
  {
    DrainMovesTheCount(s);
  }

  /** The bytes of a message go from the announced to the counted ones, and nothing else moves. */
  lemma DrainMovesTheCount(s: State)
    requires DrainStep(s).Some? && s.messages != []
    ensures var t := DrainStep(s).value;
            t.pushed == s.pushed && t.device == s.device && t.ring == s.ring && t.unannounced == s.unannounced &&
            InHand(t) == InHand(s) && t.queueBytes >= s.queueBytes &&
            t.queueBytes + Announced(t.messages) == s.queueBytes + Announced(s.messages)
  {
  }

  lemma DrainKeepsOrder(s: State)
    requires Inv(s) && DrainStep(s).Some? && s.messages != []
    ensures WholeFrames(DrainStep(s).value) && EndComesLast(DrainStep(s).value)
  {
    FirstMessage(s);
  }

  /** The branch that writes silence because there is no whole frame is never taken. */
  lemma PrepareFindsData(s: State)
    requires Inv(s) && s.position.Prepare?
    ensures PrepareBytes(s.remainder, s.ring, Available(s), s.frame).Some?
  {
    WholeAligned(Available(s), s.frame);
  }

  lemma PrepareKeepsInv(s: State)
    requires Inv(s) && PrepareStep(s).Some?
    ensures Inv(PrepareStep(s).value)
  {
    PrepareFindsData(s);
    if s.remainder == [] {
      var n := Available(s);
      var aligned := n - n % s.frame;
      WholeAligned(n, s.frame);
      WholeDifference(|s.ring|, aligned, s.frame);
      TakenFromRing(Accepted(s.device), s.ring, aligned);
    }
  }

  lemma TakenFromRing(accepted: seq<Byte>, ring: seq<Byte>, n: nat)
    requires n <= |ring|
    ensures accepted + [] + ring == accepted + ring[..n] + ring[n..]
    ensures |ring[..n]| + |ring[n..]| == |ring|
  {
    assert ring == ring[..n] + ring[n..];
  }

  lemma {:induction false} PrimeKeepsConserved(s: State, primed: nat)
    requires Inv(s)
    ensures var d := s.device + [Silent(Times(primed, s.frame))];
            Accepted(d) == Accepted(s.device) && WholeWrites(d, s.frame)
  {
    TimesIsWhole(primed, s.frame);
    WrittenMore(s.device, Silent(Times(primed, s.frame)), s.frame);
    assert Accepted(s.device) + [] == Accepted(s.device);
  }

  lemma WriteKeepsInv(s: State, answer: Answer, primed: nat)
    requires Inv(s) && WriteStep(s, answer, primed).Some?
    ensures Inv(WriteStep(s, answer, primed).value)
  {
    PrimeKeepsConserved(s, primed);
    if answer.Normal? {
      AnsweredWriteKeepsInv(s, answer.frames, primed);
    } else {
      StalledWriteKeepsInv(s, primed);
    }
  }

  lemma {:induction false} StalledWriteKeepsInv(s: State, primed: nat)
    requires Inv(s) && s.position.Write?
    requires var d := s.device + [Silent(Times(primed, s.frame))];
             Accepted(d) == Accepted(s.device) && WholeWrites(d, s.frame)
    ensures Inv(WriteStep(s, Stalled, primed).value)
  {
    var d := s.device + [Silent(Times(primed, s.frame))];
    WrittenMore(d, Played([]), s.frame);
    assert Accepted(d) + [] == Accepted(d);
  }

  lemma {:induction false} TakenIsFront(offered: seq<Byte>, frames: nat, frame: nat)
    ensures var n := MinNat(Times(frames, frame), |offered|);
            TakenBytes(offered, Normal(frames), frame) == offered[..n]
  {
    TimesIsProduct(frames, frame);
  }

  /** The first `n` bytes of a write were accepted by the device. */
  ghost predicate Wrote(s: State, t: State, device: seq<Written>, n: nat) {
    && s.position.Write? && n <= |s.position.bytes| && n <= s.queueBytes
    && t == s.(queueBytes := s.queueBytes - n, remainder := s.position.bytes[n..], stalled := false,
               device := device + [Played(s.position.bytes[..n])], position := Check)
  }

  lemma {:induction false} AnsweredWriteKeepsInv(s: State, frames: nat, primed: nat)
    requires Inv(s) && s.position.Write?
    requires var d := s.device + [Silent(Times(primed, s.frame))];
             Accepted(d) == Accepted(s.device) && WholeWrites(d, s.frame)
    ensures Inv(WriteStep(s, Normal(frames), primed).value)
  {
    var n := MinNat(Times(frames, s.frame), |s.position.bytes|);
    var device := s.device + [Silent(Times(primed, s.frame))];
    TimesIsWhole(frames, s.frame);
    TakenIsFront(s.position.bytes, frames, s.frame);
    if n == |s.position.bytes| { assert s.position.bytes[n..] == []; }
    WroteKeepsInv(s, WriteStep(s, Normal(frames), primed).value, device, n);
  }

  lemma {:induction false} WroteKeepsInv(s: State, t: State, device: seq<Written>, n: nat)
    requires Inv(s) && Wrote(s, t, device, n) && Whole(n, s.frame)
    requires Accepted(device) == Accepted(s.device) && WholeWrites(device, s.frame)
    ensures Inv(t)
  {
    var bytes := s.position.bytes;
    WrittenMore(device, Played(bytes[..n]), s.frame);
    PartlyAccepted(Accepted(s.device), bytes, s.ring, n);
    WroteKeepsFrames(s, t, device, n);
  }

  lemma {:induction false} WroteKeepsFrames(s: State, t: State, device: seq<Written>, n: nat)
    requires s.frame > 0 && WholeFrames(s) && Wrote(s, t, device, n) && Whole(n, s.frame) &&
      WholeWrites(device, s.frame)
    ensures WholeFrames(t)
  {
    var bytes := s.position.bytes;
    WholeDifference(|bytes|, n, s.frame);
    WholeDifference(s.queueBytes, n, s.frame);
    WrittenMore(device, Played(bytes[..n]), s.frame);
  }

  lemma PartlyAccepted(accepted: seq<Byte>, bytes: seq<Byte>, ring: seq<Byte>, n: nat)
    requires n <= |bytes|
    ensures accepted + bytes + ring == accepted + bytes[..n] + bytes[n..] + ring
  {
  }

  lemma PolledEndMeansAllTaken(s: State)
    requires Inv(s) && s.position.Poll? && s.messages != [] && s.messages[0].EndOfStream?
    ensures s.ring == [] && Accepted(s.device) == s.pushed && !s.producer.Feeding?
    ensures s.messages[1..] == []
  {
    FirstMessage(s);
    assert Announced(s.messages) == 0;
    assert Accepted(s.device) + [] + [] == Accepted(s.device);
  }

  lemma PolledMessageKeepsInv(s: State)
    requires Inv(s) && s.position.Poll? && s.messages != []
    ensures Inv(PollStep(s, false, 0).value)
  {
    FirstMessage(s);
    if s.messages[0].EndOfStream? { PolledEndMeansAllTaken(s); }
  }

  lemma PollKeepsInv(s: State, bufferLow: bool, primed: nat)
    requires Inv(s) && PollStep(s, bufferLow, primed).Some?
    ensures Inv(PollStep(s, bufferLow, primed).value)
  {
    if s.messages == [] {
      IdleKeepsInv(s, bufferLow, primed);
    } else {
      assert PollStep(s, bufferLow, primed) == PollStep(s, false, 0);
      PolledMessageKeepsInv(s);
    }
  }

  lemma IdleKeepsInv(s: State, bufferLow: bool, primed: nat)
    requires Inv(s) && s.position.Poll? && s.messages == []
    ensures Inv(PollStep(s, bufferLow, primed).value)
  {
    PrimeKeepsConserved(s, primed);
  }

  lemma StepKeepsInv(s: State, e: Event)
    requires Inv(s) && Next(s, e).Some?
    ensures Inv(Next(s, e).value)
  {
    match e
    case Checks => CheckKeepsInv(s);
    case Drains => DrainKeepsInv(s);
    case Prepares => PrepareKeepsInv(s);
    case Writes(answer, primed) => WriteKeepsInv(s, answer, primed);
    case Polls(bufferLow, primed) => PollKeepsInv(s, bufferLow, primed);
    case _ => OuterKeepsInv(s, e);
  }

  // ---------------------------------------------------------------------------------------------
  // Whole runs
  // ---------------------------------------------------------------------------------------------

  /** The state after a run in which both threads take turns in any way, if every step was possible. */
  function Run(s: State, events: seq<Event>): Option<State>
    requires s.frame > 0
    decreases |events|
  {
    if events == [] then Some(s)
    else
      match Next(s, events[0])
      case None => None
      case Some(t) => if t.frame == 0 then None else Run(t, events[1..])
  }

  lemma {:induction false} RunKeepsInv(s: State, events: seq<Event>)
    requires Inv(s) && Run(s, events).Some?
    ensures Inv(Run(s, events).value)
    decreases |events|
  {
    if events != [] {
      StepKeepsInv(s, events[0]);
      RunKeepsInv(Next(s, events[0]).value, events[1..]);
    }
  }

  // What goes in and out, read off the events: the bytes pushed, and of each write the bytes the device takes.

  function Fed(events: seq<Event>): seq<Byte> {
    if events == [] then [] else (if events[0].Pushes? then events[0].bytes else []) + Fed(events[1..])
  }

  function HeardNow(s: State, e: Event): seq<Byte> {
    if e.Writes? && s.position.Write? then TakenBytes(s.position.bytes, e.answer, s.frame) else []
  }

  function Heard(s: State, events: seq<Event>): seq<Byte>
    requires s.frame > 0
    decreases |events|
  {
    if events == [] then []
    else
      match Next(s, events[0])
      case None => []
      case Some(t) => HeardNow(s, events[0]) + if t.frame == 0 then [] else Heard(t, events[1..])
  }

  lemma {:induction false} StepHears(s: State, e: Event)
    requires s.frame > 0 && Next(s, e).Some?
    ensures Accepted(Next(s, e).value.device) == Accepted(s.device) + HeardNow(s, e)
    ensures Next(s, e).value.pushed == s.pushed + if e.Pushes? then e.bytes else []
  {
    if e.Writes? {
      WriteHears(s, e.answer, e.primed);
      NothingAdded(s.pushed);
    } else if e.Polls? {
      PollHears(s, e.bufferLow, e.primed);
      NothingAdded(s.pushed);
    } else {
      OtherStepsHearNothing(s, e);
    }
    NothingAdded(Accepted(s.device));
  }

  lemma {:induction false} PollWrites(s: State, bufferLow: bool, primed: nat)
    requires PollStep(s, bufferLow, primed).Some?
    ensures var t := PollStep(s, bufferLow, primed).value;
            t.pushed == s.pushed &&
            (t.device == s.device || t.device == s.device + [Silent(Times(primed, s.frame))])
  {
  }

  lemma PollHears(s: State, bufferLow: bool, primed: nat)
    requires PollStep(s, bufferLow, primed).Some?
    ensures Accepted(PollStep(s, bufferLow, primed).value.device) == Accepted(s.device)
    ensures PollStep(s, bufferLow, primed).value.pushed == s.pushed
  {
    PollWrites(s, bufferLow, primed);
    PerhapsSilence(s.device, PollStep(s, bufferLow, primed).value.device, Times(primed, s.frame));
  }

  lemma {:induction false} PerhapsSilence(device: seq<Written>, later: seq<Written>, count: nat)
    requires later == device || later == device + [Silent(count)]
    ensures Accepted(later) == Accepted(device)
  {
    SilenceIsNotHeard(device, count);
  }

  /** With nothing to play, a device that runs low gets silence in whole frames, and nothing else is done. */
  lemma IdleDeviceGetsSilence(s: State, bufferLow: bool, primed: nat)
    requires s.position.Poll? && s.messages == [] && !s.producer.Gone?
    ensures PollStep(s, bufferLow, primed).Some?
    ensures PollStep(s, bufferLow, primed).value ==
            s.(position := Check, device := s.device + if bufferLow then [Silent(primed * s.frame)] else [])
  {
    TimesIsProduct(primed, s.frame);
    assert s.device + [] == s.device;
  }

  lemma {:induction false} SilenceIsNotHeard(device: seq<Written>, count: nat)
    ensures Accepted(device + [Silent(count)]) == Accepted(device)
  {
    HearsMore(device, Silent(count));
    NothingAdded(Accepted(device));
  }

  lemma OtherStepsHearNothing(s: State, e: Event)
    requires s.frame > 0 && Next(s, e).Some? && !e.Writes? && !e.Polls?
    ensures Next(s, e).value.device == s.device
    ensures Next(s, e).value.pushed == s.pushed + if e.Pushes? then e.bytes else []
  {
    OtherStepsWriteNothing(s, e);
    OtherStepsPush(s, e);
  }

  lemma OtherStepsWriteNothing(s: State, e: Event)
    requires s.frame > 0 && Next(s, e).Some? && !e.Writes? && !e.Polls?
    ensures Next(s, e).value.device == s.device
  {
    match e
    case Drains =>
    case Prepares =>
    case Checks =>
    case _ =>
  }

  lemma OtherStepsPush(s: State, e: Event)
    requires s.frame > 0 && Next(s, e).Some? && !e.Writes? && !e.Polls?
    ensures Next(s, e).value.pushed == s.pushed + if e.Pushes? then e.bytes else []
  {
    NothingAdded(s.pushed);
    match e
    case Drains =>
    case Prepares =>
    case Checks =>
    case _ =>
  }

  lemma WriteHears(s: State, answer: Answer, primed: nat)
    requires WriteStep(s, answer, primed).Some?
    ensures Accepted(WriteStep(s, answer, primed).value.device) ==
            Accepted(s.device) + TakenBytes(s.position.bytes, answer, s.frame)
    ensures WriteStep(s, answer, primed).value.pushed == s.pushed
  {
    var silent := Silent(Times(primed, s.frame));
    HearsMore(s.device, silent);
    NothingAdded(Accepted(s.device));
    HearsMore(s.device + [silent], Played(TakenBytes(s.position.bytes, answer, s.frame)));
  }

  lemma NothingAdded(a: seq<Byte>)
    ensures a + [] == a && [] + a == a
  {
  }

  lemma JoinedInAnyOrder(a: seq<Byte>, b: seq<Byte>, c: seq<Byte>)
    ensures a + b + c == a + (b + c)
  {
  }

  lemma {:induction false} HearsMore(device: seq<Written>, w: Written)
    ensures Accepted(device + [w]) == Accepted(device) + w.Audio()
  {
    assert (device + [w])[..|device|] == device;
  }

  lemma {:induction false} RunHears(s: State, events: seq<Event>)
    requires s.frame > 0 && Run(s, events).Some?
    ensures Accepted(Run(s, events).value.device) == Accepted(s.device) + Heard(s, events)
    ensures Run(s, events).value.pushed == s.pushed + Fed(events)
    decreases |events|
  {
    NothingAdded(Accepted(s.device));
    NothingAdded(s.pushed);
    if events != [] {
      var e, t := events[0], Next(s, events[0]).value;
      StepHears(s, e);
      RunHears(t, events[1..]);
      JoinedInAnyOrder(Accepted(s.device), HeardNow(s, e), Heard(t, events[1..]));
      JoinedInAnyOrder(s.pushed, if e.Pushes? then e.bytes else [], Fed(events[1..]));
    }
  }

  /** For every device that does not fail with an error: the audio it takes from the writes is a prefix of what the
      outer
      thread pushed; it is interrupted by silence at frame boundaries only; the byte counter equals the announced bytes
      that are still in the ring buffer plus those in hand; and when playback is reported as done, everything has been
      taken. */
  lemma {:induction false} NothingIsLost(frame: nat, silence: nat, capacity: nat, events: seq<Event>)
    requires frame > 0 && Run(Initial(frame, silence, capacity), events).Some?
    ensures var s := Run(Initial(frame, silence, capacity), events).value;
            var heard := Heard(Initial(frame, silence, capacity), events);
            heard <= Fed(events) && Fed(events) == heard + InHand(s) + s.ring &&
            s.frame > 0 && WholeFrames(s) &&
            s.queueBytes == |InHand(s)| + (|s.ring| - Announced(s.messages) - s.unannounced) &&
            (s.position == Done(true) ==> heard == Fed(events))
  {
    InitialIsInv(frame, silence, capacity);
    RunKeepsInv(Initial(frame, silence, capacity), events);
    RunHears(Initial(frame, silence, capacity), events);
    var s := Run(Initial(frame, silence, capacity), events).value;
    NothingAdded(Heard(Initial(frame, silence, capacity), events));
    NothingAdded(Fed(events));
    JoinedInAnyOrder(Accepted(s.device), InHand(s), s.ring);
  }

  /** In no reachable state does the inner loop find less than a frame when it is about to write. */
  lemma {:induction false} NeverWritesSilenceForData(frame: nat, silence: nat, capacity: nat, events: seq<Event>)
    requires frame > 0 && Run(Initial(frame, silence, capacity), events).Some?
    requires Run(Initial(frame, silence, capacity), events).value.position.Prepare?
    ensures var s := Run(Initial(frame, silence, capacity), events).value;
            s.frame > 0 && PrepareBytes(s.remainder, s.ring, Available(s), s.frame).Some?
  {
    InitialIsInv(frame, silence, capacity);
    RunKeepsInv(Initial(frame, silence, capacity), events);
    PrepareFindsData(Run(Initial(frame, silence, capacity), events).value);
  }

  // ---------------------------------------------------------------------------------------------
  // Playback comes to its end
  // ---------------------------------------------------------------------------------------------

  /** Once the outer thread has finished, the end of the stream is on its way or has arrived, and only a thread that
      died
      leaves the inner loop without an end. */
  ghost predicate EndIsComing(s: State) {
    && (s.producer.Finished? ==> HasEnd(s.messages) || s.endOfStream || s.position.Done?)
    && (s.disconnected || s.position == Done(false) ==> s.producer.Gone?)
  }

  lemma StepKeepsEndComing(s: State, e: Event)
    requires Inv(s) && EndIsComing(s) && Next(s, e).Some?
    ensures EndIsComing(Next(s, e).value)
  {
    if (e.Drains? || e.Polls?) && s.messages != [] { FirstMessage(s); }
  }

  lemma {:induction false} RunKeepsEndComing(s: State, events: seq<Event>)
    requires Inv(s) && EndIsComing(s) && Run(s, events).Some?
    ensures EndIsComing(Run(s, events).value)
    decreases |events|
  {
    if events != [] {
      StepKeepsInv(s, events[0]);
      StepKeepsEndComing(s, events[0]);
      RunKeepsEndComing(Next(s, events[0]).value, events[1..]);
    }
  }

  /** A step of the inner loop, with a device that takes at least one frame of every write. */
  predicate IsInner(e: Event) {
    e.Checks? || e.Drains? || e.Prepares? || e.Polls? || (e.Writes? && e.answer.Normal? && e.answer.frames > 0)
  }

  function Turns(p: Position): nat {
    match p
    case Check => 4
    case Drain => 3
    case Poll => 3
    case Prepare => 2
    case Write(_) => 1
    case Done(_) => 0
  }

  /** What the inner loop still has to do once the outer thread has finished. */
  function LoopWork(s: State): nat { 4 * (|InHand(s)| + |s.ring|) + 2 * |s.messages| + Turns(s.position) }

  lemma InnerStepWorks(s: State, e: Event)
    requires Inv(s) && EndIsComing(s) && s.producer.Finished? && IsInner(e) && Next(s, e).Some?
    ensures Next(s, e).value.producer.Finished? && LoopWork(Next(s, e).value) < LoopWork(s)
  {
    match e {
      case Prepares => PrepareFindsData(s);
      case Writes(answer, primed) => WriteMakesProgress(s, answer, primed);
      case _ =>
    }
  }

  lemma {:induction false} WriteMakesProgress(s: State, answer: Answer, primed: nat)
    requires Inv(s) && s.position.Write? && answer.Normal? && answer.frames > 0
    ensures var t := WriteStep(s, answer, primed).value;
            |t.remainder| < |s.position.bytes| && t.ring == s.ring && t.messages == s.messages && t.position.Check?
  {
    assert Times(answer.frames, s.frame) >= s.frame;
  }

  lemma {:induction false} InnerRunWorks(s: State, more: seq<Event>)
    requires Inv(s) && EndIsComing(s) && s.producer.Finished? && Run(s, more).Some?
    requires forall i :: 0 <= i < |more| ==> IsInner(more[i])
    ensures |more| + LoopWork(Run(s, more).value) <= LoopWork(s) && Run(s, more).value.producer.Finished?
    decreases |more|
  {
    if more != [] {
      InnerStepWorks(s, more[0]);
      StepKeepsInv(s, more[0]);
      StepKeepsEndComing(s, more[0]);
      InnerRunWorks(Next(s, more[0]).value, more[1..]);
    }
  }

  lemma {:induction false} RunConcat(s: State, a: seq<Event>, b: seq<Event>)
    requires s.frame > 0 && Run(s, a).Some? && Run(s, a).value.frame > 0
    ensures Run(s, a + b) == Run(Run(s, a).value, b)
    decreases |a|
  {
    if a == [] {
      assert a + b == b;
    } else {
      assert (a + b)[1..] == a[1..] + b;
      RunConcat(Next(s, a[0]).value, a[1..], b);
    }
  }

  /** Once the outer thread has finished, and with a device that takes at least one frame of every write, the inner loop
      takes no more steps than there is work left; and when it cannot go on, playback is reported as done and the device
      has taken everything that was ever pushed. */
  lemma {:induction false} PlaybackCompletes(frame: nat, silence: nat, capacity: nat, events: seq<Event>,
                                more: seq<Event>)
    requires frame > 0 && Run(Initial(frame, silence, capacity), events).Some?
    requires Run(Initial(frame, silence, capacity), events).value.producer.Finished?
    requires Run(Initial(frame, silence, capacity), events).value.frame > 0
    requires forall i :: 0 <= i < |more| ==> IsInner(more[i])
    requires Run(Run(Initial(frame, silence, capacity), events).value, more).Some?
    ensures var s := Run(Initial(frame, silence, capacity), events).value;
            var t := Run(s, more).value;
            |more| <= LoopWork(s) && t.frame > 0 &&
            ((forall e :: IsInner(e) ==> Next(t, e).None?) ==>
               t.position == Done(true) &&
                 Heard(Initial(frame, silence, capacity), events + more) == Fed(events + more))
  {
    InitialIsInv(frame, silence, capacity);
    RunKeepsInv(Initial(frame, silence, capacity), events);
    RunKeepsEndComing(Initial(frame, silence, capacity), events);
    var s := Run(Initial(frame, silence, capacity), events).value;
    InnerRunWorks(s, more);
    RunKeepsInv(s, more);
    RunKeepsEndComing(s, more);
    RunConcat(Initial(frame, silence, capacity), events, more);
    NothingIsLost(frame, silence, capacity, events + more);
    var t := Run(s, more).value;
    if forall e :: IsInner(e) ==> Next(t, e).None? {
      SomeInnerStep(t);
    }
  }

  /** The inner loop can always go on until playback is reported as done. */
  lemma SomeInnerStep(s: State)
    requires Inv(s) && (forall e :: IsInner(e) ==> Next(s, e).None?)
    ensures s.position.Done?
  {
    assert IsInner(Checks) && IsInner(Drains) && IsInner(Prepares) && IsInner(Writes(Normal(1), 0)) &&
      IsInner(Polls(false, 0));
    assert Next(s, Checks).None? && Next(s, Drains).None? && Next(s, Prepares).None?;
    assert Next(s, Writes(Normal(1), 0)).None? && Next(s, Polls(false, 0)).None?;
  }

  // ---------------------------------------------------------------------------------------------
  // The code of the two helpers, on a buffer that is filled in place
  // ---------------------------------------------------------------------------------------------

  class Ring {
    var contents: seq<Byte>

    constructor ()
      ensures contents == []
    {
      contents := [];
    }

    /** Takes as many bytes as fit into dst[..n]. */
    method PopInto(dst: array<Byte>, n: nat)
      requires n <= |contents| && n <= dst.Length
      modifies this, dst
      ensures contents == old(contents)[n..] && dst[..n] == old(contents)[..n]
    {
      for i := 0 to n
        invariant contents == old(contents)
        invariant dst[..i] == contents[..i]
      {
        dst[i] := contents[i];
        assert dst[..i + 1] == dst[..i] + [dst[i]];
      }
      contents := contents[n..];
    }
  }

  class InnerLoop {
    const frame: nat
    var buffer: array<Byte>
    var queueBytes: nat
    var remainder: seq<Byte>
    var stalled: bool

    constructor (frame: nat, size: nat)
      requires frame > 0
      ensures this.frame == frame && queueBytes == 0 && remainder == [] && !stalled && fresh(buffer)
    {
      this.frame := frame;
      queueBytes, remainder, stalled := 0, [], false;
      buffer := new Byte[size](_ => 0);
    }

    method Grow(size: nat)
      modifies this`buffer
      ensures buffer.Length >= size && (buffer == old(buffer) || fresh(buffer))
    {
      if size > buffer.Length {
        buffer := new Byte[size](_ => 0);
      }
    }

    /** Copies bytes to the start of the buffer. */
    method Fill(bytes: seq<Byte>)
      requires |bytes| <= buffer.Length
      modifies buffer
      ensures buffer[..|bytes|] == bytes
    {
      for i := 0 to |bytes|
        invariant buffer[..i] == bytes[..i]
      {
        buffer[i] := bytes[i];
        assert buffer[..i + 1] == buffer[..i] + [buffer[i]];
      }
    }

    /** Fills the start of the buffer with the bytes to write next: those left over or, without any, all whole frames at
        hand. */
    method PreparePlaybackBytes(ring: Ring, available: nat) returns (bytesToPlay: Option<nat>)
      requires frame > 0 && available <= |ring.contents|
      modifies this`buffer, buffer, ring
      ensures buffer == old(buffer) || fresh(buffer)
      ensures bytesToPlay.Some? ==> 0 < bytesToPlay.value <= buffer.Length
      ensures remainder != [] ==>
        bytesToPlay == Some(|remainder|) && buffer[..|remainder|] == remainder && ring.contents == old(ring.contents)
      ensures remainder == [] && available < frame ==> bytesToPlay == None && ring.contents == old(ring.contents)
      ensures remainder == [] && available >= frame ==>
        bytesToPlay.Some? && bytesToPlay.value % frame == 0 &&
          bytesToPlay.value <= available < bytesToPlay.value + frame &&
        buffer[..bytesToPlay.value] + ring.contents == old(ring.contents)
    {
      if remainder == [] {
        var aligned := available - available % frame;
        WholeAligned(available, frame);
        WholeIsMultiple(aligned, frame);
        if aligned == 0 {
          return None;
        }
        Grow(aligned);
        ring.PopInto(buffer, aligned);
        return Some(aligned);
      } else {
        Grow(|remainder|);
        Fill(remainder);
        return Some(|remainder|);
      }
    }

    /** Keeps what the device has not taken for the next write. */
    method ApplyPlaybackWriteResult(answer: Answer, bytesToPlay: nat)
      requires bytesToPlay <= buffer.Length
      modifies this`queueBytes, this`remainder, this`stalled
      ensures var bytes := old(buffer[..bytesToPlay]);
              var n := |TakenBytes(bytes, answer, frame)|;
              if answer.Stalled? then
                stalled && queueBytes == old(queueBytes) &&
                remainder == if old(remainder) == [] then bytes else old(remainder)
              else
                !stalled && TakenBytes(bytes, answer, frame) + remainder == bytes &&
                queueBytes == if old(queueBytes) >= n then old(queueBytes) - n else 0
    {
      ghost var bytes := buffer[..bytesToPlay];
      if answer.Normal? { TakenIsFront(bytes, answer.frames, frame); }
      match answer {
        case Normal(frames) =>
          var written := MinNat(Times(frames, frame), bytesToPlay);
          queueBytes := if queueBytes >= written then queueBytes - written else 0;
          assert buffer[written..bytesToPlay] == bytes[written..];
          if written < bytesToPlay {
            remainder := buffer[written..bytesToPlay];
          } else {
            remainder := [];
          }
          stalled := false;
        case Stalled =>
          if remainder == [] {
            remainder := buffer[..bytesToPlay];
          }
          stalled := true;
      }
    }
  }
}
