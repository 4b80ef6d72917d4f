/** Audio data as it travels between the threads and through the pipeline. */
module Audio {

  datatype Option<+T> = None | Some(value: T) {
    function GetOr(default: T): T {
      match this
      case Some(v) => v
      case None => default
    }
  }

  datatype Result<+T, +E> = Ok(value: T) | Err(error: E)

  /** One channel of one chunk. An unused channel travels as the empty waveform. */
  type Waveform = seq<real>

  datatype Chunk = Chunk(frames: nat, waveforms: seq<Waveform>) {
    /** Every channel is either unused or exactly one chunk long. */
    ghost predicate Valid() {
      forall i :: 0 <= i < |waveforms| ==> waveforms[i] == [] || |waveforms[i]| == frames
    }
  }

  function Min(a: real, b: real): (r: real)
    ensures r <= a && r <= b && (r == a || r == b)
  {
    if a <= b then a else b
  }

  function Abs(a: real): (r: real)
    ensures r >= 0.0 && (r == a || r == -a)
  {
    if a < 0.0 then -a else a
  }

  function MinNat(a: nat, b: nat): (r: nat)
    ensures r <= a && r <= b && (r == a || r == b)
  {
    if a <= b then a else b
  }

  /** Subtraction that stops at zero. */
  function Sub(a: nat, b: nat): nat { if a >= b then a - b else 0 }

  function Silence(n: nat): (w: Waveform)
    ensures |w| == n && forall i :: 0 <= i < n ==> w[i] == 0.0
  {
    seq(n, _ => 0.0)
  }
}
