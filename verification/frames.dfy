/** Byte counts that are a whole number of frames. */
module Frames {

  /** A whole number of frames. */
  predicate Whole(n: nat, frame: nat)
    requires frame > 0
  {
    n == 0 || (n >= frame && Whole(n - frame, frame))
  }

  lemma {:induction false} WholeSum(a: nat, b: nat, frame: nat)
    requires frame > 0 && Whole(a, frame) && Whole(b, frame)
    ensures Whole(a + b, frame)
  {
    if a > 0 { WholeSum(a - frame, b, frame); }
  }

  lemma {:induction false} WholeDifference(a: nat, b: nat, frame: nat)
    requires frame > 0 && Whole(a, frame) && Whole(b, frame) && a >= b
    ensures Whole(a - b, frame)
  {
    if b > 0 { WholeDifference(a - frame, b - frame, frame); }
  }

  lemma {:induction false} WholeProduct(k: nat, frame: nat)
    requires frame > 0
    ensures Whole(k * frame, frame)
  {
    if k > 0 {
      WholeProduct(k - 1, frame);
      assert k * frame == (k - 1) * frame + frame;
    }
  }

  lemma {:induction false} WholeAligned(n: nat, frame: nat)
    requires frame > 0
    ensures n % frame <= n && Whole(n - n % frame, frame)
    ensures n >= frame ==> n - n % frame > 0
  {
    WholeProduct(n / frame, frame);
    assert n - n % frame == (n / frame) * frame;
  }

  /** A whole number of frames is a multiple of the frame size. */
  lemma {:induction false} WholeIsMultiple(n: nat, frame: nat)
    requires frame > 0
    ensures Whole(n, frame) <==> n % frame == 0
  {
    WholeAligned(n, frame);
    if Whole(n, frame) { WholeDifference(n, n - n % frame, frame); }
  }

  /** A whole number of frames apart is at the same place within a frame. */
  lemma {:induction false} SamePlaceInFrame(i: nat, j: nat, frame: nat)
    requires frame > 0 && j <= i && Whole(i - j, frame)
    ensures i % frame == j % frame
  {
    WholeAligned(i, frame);
    WholeAligned(j, frame);
    WholeSum(j - j % frame, i - j, frame);
    if i % frame <= j % frame {
      WholeDifference(i - i % frame, i - j % frame, frame);
    } else {
      WholeDifference(i - j % frame, i - i % frame, frame);
    }
  }

  /** n pieces of `size` bytes: a product that proofs can take apart one piece at a time. */
  function Times(n: nat, size: nat): nat { if n == 0 then 0 else Times(n - 1, size) + size }

  lemma {:induction false} TimesIsProduct(n: nat, size: nat)
    ensures Times(n, size) == n * size
  {
    if n > 0 { TimesIsProduct(n - 1, size); }
  }

  lemma {:induction false} TimesIsWhole(n: nat, size: nat)
    requires size > 0
    ensures Whole(Times(n, size), size)
  {
    if n > 0 { TimesIsWhole(n - 1, size); }
  }

  lemma {:induction false} TimesAdd(a: nat, b: nat, size: nat)
    ensures Times(a + b, size) == Times(a, size) + Times(b, size)
  {
    if b > 0 { TimesAdd(a, b - 1, size); }
  }

  /** How many whole frames n bytes are: a quotient that proofs can take apart. */
  function Count(n: nat, frame: nat): nat
    requires frame > 0
  {
    if n < frame then 0 else 1 + Count(n - frame, frame)
  }

  lemma {:induction false} CountIsQuotient(n: nat, frame: nat)
    requires frame > 0
    ensures Times(Count(n, frame), frame) <= n < Times(Count(n, frame), frame) + frame
  {
    if n >= frame { CountIsQuotient(n - frame, frame); }
  }

  /** Whole frames are counted without a remainder. */
  lemma {:induction false} CountIsExact(n: nat, frame: nat)
    requires frame > 0 && Whole(n, frame)
    ensures Times(Count(n, frame), frame) == n
  {
    if n > 0 { CountIsExact(n - frame, frame); }
  }
}
