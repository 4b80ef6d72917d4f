/** Data in which one value stands for silence; all others are sound, and can be labelled with where they came from. */
module Sounds {
  import opened Audio

  function Repeat<T>(x: T, n: nat): (r: seq<T>)
    ensures |r| == n && forall i :: 0 <= i < n ==> r[i] == x
  {
    seq(n, _ => x)
  }

  /** The elements that are not silence. */
  function Sound<T(==)>(s: seq<T>, zero: T): (r: seq<T>)
    ensures |r| <= |s|
  {
    if s == [] then []
    else Sound(s[..|s| - 1], zero) + if s[|s| - 1] == zero then [] else [s[|s| - 1]]
  }

  ghost predicate Loud<T>(s: seq<T>, zero: T) { forall i :: 0 <= i < |s| ==> s[i] != zero }

  lemma {:induction false} SoundConcat<T>(a: seq<T>, b: seq<T>, zero: T)
    ensures Sound(a + b, zero) == Sound(a, zero) + Sound(b, zero)
  {
    if b == [] {
      assert a + b == a;
    } else {
      var n := |b| - 1;
      assert (a + b)[..|a + b| - 1] == a + b[..n];
      SoundConcat(a, b[..n], zero);
    }
  }

  lemma {:induction false} SoundOfSilence<T>(zero: T, n: nat)
    ensures Sound(Repeat(zero, n), zero) == []
  {
    if n > 0 {
      assert Repeat(zero, n)[..n - 1] == Repeat(zero, n - 1);
      SoundOfSilence(zero, n - 1);
    }
  }

  lemma {:induction false} SoundOfLoud<T>(s: seq<T>, zero: T)
    requires Loud(s, zero)
    ensures Sound(s, zero) == s
  {
    if s != [] { SoundOfLoud(s[..|s| - 1], zero); }
  }

  // ---------------------------------------------------------------------------------------------
  // Labels for arbitrary data: what was there is marked, also where it looks like silence
  // ---------------------------------------------------------------------------------------------

  function Marked<T>(s: seq<T>): (r: seq<Option<T>>)
    ensures |r| == |s|
  {
    seq(|s|, i requires 0 <= i < |s| => Some(s[i]))
  }

  /** Without the marks. */
  function Plain<T>(s: seq<Option<T>>, zero: T): (r: seq<T>)
    ensures |r| == |s|
  {
    seq(|s|, i requires 0 <= i < |s| => s[i].GetOr(zero))
  }

  lemma MarkedIsLoud<T>(s: seq<T>)
    ensures Loud(Marked(s), None)
  {
  }

  lemma PlainOfMarked<T>(s: seq<T>, zero: T)
    ensures Plain(Marked(s), zero) == s
  {
  }

  lemma PlainOfSilence<T>(n: nat, zero: T)
    ensures Plain(Repeat(None, n), zero) == Repeat(zero, n)
  {
  }

  lemma PlainConcat<T>(a: seq<Option<T>>, b: seq<Option<T>>, zero: T)
    ensures Plain(a + b, zero) == Plain(a, zero) + Plain(b, zero)
  {
  }

  lemma PlainSlice<T>(s: seq<Option<T>>, from: nat, to: nat, zero: T)
    requires from <= to <= |s|
    ensures Plain(s[from..to], zero) == Plain(s, zero)[from..to]
  {
  }

  lemma MarkedSlice<T>(s: seq<T>, from: nat, to: nat)
    requires from <= to <= |s|
    ensures Marked(s[from..to]) == Marked(s)[from..to]
  {
  }

  /** Where each element comes from: the number of the marked element it is, or nowhere. */
  ghost function Origins<T>(s: seq<Option<T>>): (r: seq<Option<nat>>)
    ensures |r| == |s|
  {
    if s == [] then []
    else
      var rest := s[..|s| - 1];
      Origins(rest) + [if s[|s| - 1].None? then None else Some(|Sound(rest, None)|)]
  }

  /** Origins count up from zero. */
  ghost predicate CountsUp(origins: seq<Option<nat>>) {
    forall i :: 0 <= i < |origins| && origins[i].Some? ==> origins[i].value == |Sound(origins[..i], None)|
  }

  lemma {:induction false} OriginAt<T>(s: seq<Option<T>>, i: nat)
    requires i < |s|
    ensures Origins(s)[i] == if s[i].None? then None else Some(|Sound(s[..i], None)|)
    ensures Origins(s)[..i] == Origins(s[..i])
    decreases |s|
  {
    var rest := s[..|s| - 1];
    if i < |s| - 1 {
      OriginAt(rest, i);
      assert rest[..i] == s[..i];
      assert Origins(s)[..i] == Origins(rest)[..i];
    }
  }

  lemma {:induction false} AsManyOrigins<T>(s: seq<Option<T>>)
    ensures |Sound(Origins(s), None)| == |Sound(s, None)|
  {
    if s != [] {
      var n := |s| - 1;
      AsManyOrigins(s[..n]);
      assert Origins(s)[..n] == Origins(s[..n]);
    }
  }

  lemma {:induction false} OriginsCountUp<T>(s: seq<Option<T>>)
    ensures CountsUp(Origins(s))
  {
    forall i | 0 <= i < |s| && Origins(s)[i].Some? ensures Origins(s)[i].value == |Sound(Origins(s)[..i], None)| {
      OriginAt(s, i);
      AsManyOrigins(s[..i]);
    }
  }

  lemma Reassociate<T>(a: seq<T>, b: seq<T>, c: seq<T>)
    ensures a + b + c == a + (b + c)
  {
  }
}
