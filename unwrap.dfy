/**
 * Angle unwrapping, as `_unwrap_angle` and `_unwrap_hpb` do it
 * (src/COLMAP_Tracking_Importer_C4D_v1_3.py:159-187): each new angle is moved
 * by whole turns until it lies within half a turn of the previous angle.
 */
module Unwrap {
  import opened Wrappers
  import opened Geometry

  /** The value of the platform's pi, as an exact rational. */
  const PI: real := 3.141592653589793

  const TWO_PI: real := 2.0 * PI

  /** k whole turns. */
  function Turn(k: int): real
  {
    TWO_PI * k as real
  }

  /** Two angles that differ by a whole number of turns. */
  ghost predicate SameAngle(a: real, b: real)
  {
    exists k: int :: a - b == Turn(k)
  }

  /** The number of whole turns to take from d to bring it into (-PI, PI]. */
  function Turns(d: real): int
  {
    -((PI - d) / TWO_PI).Floor
  }

  /** The unwrapped angle in closed form: curr moved by whole turns. */
  function Unwrapped(prev: Option<real>, curr: real): real
  {
    match prev
    case None => curr
    case Some(p) => curr - TWO_PI * Turns(curr - p) as real
  }

  lemma TurnsInRange(d: real)
    ensures -PI < d - TWO_PI * Turns(d) as real <= PI
  {
    var f := ((PI - d) / TWO_PI).Floor;
    assert f as real <= (PI - d) / TWO_PI < f as real + 1.0;
  }

  /** Only one number of turns brings d into (-PI, PI]. */
  lemma TurnsUnique(d: real, k: int)
    requires -PI < d - TWO_PI * k as real <= PI
    ensures k == Turns(d)
  {
    TurnsInRange(d);
    var j := Turns(d);
    assert -TWO_PI < TWO_PI * (k - j) as real < TWO_PI;
  }

  /**
   * The source's two loops: subtract a turn while the step from prev is
   * above PI, then add a turn while it is at or below -PI.
   */
  method UnwrapAngle(prev: Option<real>, curr: real) returns (r: real)
    ensures prev.None? ==> r == curr
    ensures prev.Some? ==> -PI < r - prev.value <= PI
    ensures SameAngle(r, curr)
    ensures r == Unwrapped(prev, curr)
  {
    if prev.None? {
      assert curr - curr == Turn(0);
      return curr;
    }
    var p := prev.value;
    r := curr;
    var delta := curr - p;
    ghost var k: int := 0;
    while delta > PI
      invariant delta == r - p
      invariant r == curr - TWO_PI * k as real
      decreases (delta / TWO_PI).Floor
    {
      r := r - TWO_PI;
      delta := delta - TWO_PI;
      k := k + 1;
    }
    while delta <= -PI
      invariant delta == r - p && delta <= PI
      invariant r == curr - TWO_PI * k as real
      decreases (-delta / TWO_PI).Floor
    {
      r := r + TWO_PI;
      delta := delta + TWO_PI;
      k := k - 1;
    }
    assert r - curr == Turn(-k);
    TurnsUnique(curr - p, k);
  }

  /** The unwrapped angle lies within half a turn of the previous one. */
  lemma UnwrappedInRange(p: real, c: real)
    ensures -PI < Unwrapped(Some(p), c) - p <= PI
  {
    TurnsInRange(c - p);
  }

  /** The unwrapped angle is the same angle as the raw one. */
  lemma UnwrappedSameAngle(prev: Option<real>, c: real)
    ensures SameAngle(Unwrapped(prev, c), c)
  {
    if prev.Some? {
      var k := Turns(c - prev.value);
      assert Unwrapped(prev, c) - c == Turn(-k);
    } else {
      assert Unwrapped(prev, c) - c == Turn(0);
    }
  }

  /** An angle already within half a turn of prev is kept as it is. */
  lemma UnwrappedKeepsNearAngle(p: real, c: real)
    requires -PI < c - p <= PI
    ensures Unwrapped(Some(p), c) == c
  {
    assert c - p - TWO_PI * 0 as real == c - p;
    TurnsUnique(c - p, 0);
  }

  /** Any angle equal to c up to whole turns and within half a turn of p is the unwrapped one. */
  lemma UnwrappedUnique(p: real, c: real, r: real)
    requires SameAngle(r, c) && -PI < r - p <= PI
    ensures r == Unwrapped(Some(p), c)
  {
    var k: int :| r - c == Turn(k);
    assert (c - p) - TWO_PI * (-k) as real == r - p;
    TurnsUnique(c - p, -k);
  }

  /** Unwrapping against the same previous angle twice changes nothing more. */
  lemma UnwrappedIdempotent(p: real, c: real)
    ensures Unwrapped(Some(p), Unwrapped(Some(p), c)) == Unwrapped(Some(p), c)
  {
    UnwrappedInRange(p, c);
    UnwrappedKeepsNearAngle(p, Unwrapped(Some(p), c));
  }

  /**
   * Per channel unwrapping of a heading, pitch, bank triple against the
   * previous triple; the result is also the new previous triple.
   */
  function UnwrapHpb(prev: Option<Vec3>, curr: Vec3): (Vec3, Option<Vec3>)
  {
    match prev
    case None => (curr, Some(curr))
    case Some(p) =>
      var u := Vec3(Unwrapped(Some(p.x), curr.x), Unwrapped(Some(p.y), curr.y), Unwrapped(Some(p.z), curr.z));
      (u, Some(u))
  }

  /** Every channel of the unwrapped triple is near prev, equal as an angle, and passed on as prev. */
  lemma UnwrapHpbProperties(prev: Option<Vec3>, curr: Vec3)
    ensures UnwrapHpb(prev, curr).1 == Some(UnwrapHpb(prev, curr).0)
    ensures prev.None? ==> UnwrapHpb(prev, curr).0 == curr
    ensures prev.Some? ==> NearTriple(prev.value, UnwrapHpb(prev, curr).0)
    ensures SameTriple(UnwrapHpb(prev, curr).0, curr)
  {
    var u := UnwrapHpb(prev, curr).0;
    if prev.Some? {
      var p := prev.value;
      UnwrappedInRange(p.x, curr.x); UnwrappedInRange(p.y, curr.y); UnwrappedInRange(p.z, curr.z);
      UnwrappedSameAngle(Some(p.x), curr.x);
      UnwrappedSameAngle(Some(p.y), curr.y);
      UnwrappedSameAngle(Some(p.z), curr.z);
    } else {
      UnwrappedSameAngle(None, curr.x);
      UnwrappedSameAngle(None, curr.y);
      UnwrappedSameAngle(None, curr.z);
    }
  }

  /** Each channel of b lies within half a turn of the channel of a. */
  predicate NearTriple(a: Vec3, b: Vec3)
  {
    && -PI < b.x - a.x <= PI
    && -PI < b.y - a.y <= PI
    && -PI < b.z - a.z <= PI
  }

  /** Each channel of a equals the channel of b up to whole turns. */
  ghost predicate SameTriple(a: Vec3, b: Vec3)
  {
    SameAngle(a.x, b.x) && SameAngle(a.y, b.y) && SameAngle(a.z, b.z)
  }

  /**
   * The unwrapped track of a sequence of raw triples, threading the previous
   * unwrapped triple from one frame to the next.
   */
  function UnwrapTrack(prev: Option<Vec3>, raw: seq<Vec3>): (r: seq<Vec3>)
    ensures |r| == |raw|
    decreases |raw|
  {
    if raw == [] then []
    else
      var (u, next) := UnwrapHpb(prev, raw[0]);
      [u] + UnwrapTrack(next, raw[1..])
  }

  /** Frame i of a track is frame i of the raw input unwrapped against frame i - 1 of the track. */
  lemma {:induction false} UnwrapTrackStep(prev: Option<Vec3>, raw: seq<Vec3>, i: int)
    requires 0 < i < |raw|
    ensures UnwrapTrack(prev, raw)[i] == UnwrapHpb(Some(UnwrapTrack(prev, raw)[i - 1]), raw[i]).0
    decreases i
  {
    var (u, next) := UnwrapHpb(prev, raw[0]);
    UnwrapHpbProperties(prev, raw[0]);
    if i > 1 {
      UnwrapTrackStep(next, raw[1..], i - 1);
    }
  }

  /**
   * A track from no previous angles starts with the raw first triple; every
   * later frame is within half a turn of the frame before and equals its raw
   * triple up to whole turns.
   */
  lemma UnwrapTrackProperties(raw: seq<Vec3>)
    ensures |raw| > 0 ==> UnwrapTrack(None, raw)[0] == raw[0]
    ensures forall i :: 0 < i < |raw| ==> NearTriple(UnwrapTrack(None, raw)[i - 1], UnwrapTrack(None, raw)[i])
    ensures forall i :: 0 <= i < |raw| ==> SameTriple(UnwrapTrack(None, raw)[i], raw[i])
  {
    var t := UnwrapTrack(None, raw);
    forall i | 0 < i < |raw|
      ensures NearTriple(t[i - 1], t[i])
    {
      UnwrapTrackStep(None, raw, i);
      UnwrapHpbProperties(Some(t[i - 1]), raw[i]);
    }
    forall i | 0 <= i < |raw|
      ensures SameTriple(t[i], raw[i])
    {
      if i == 0 {
        UnwrapHpbProperties(None, raw[0]);
      } else {
        UnwrapTrackStep(None, raw, i);
        UnwrapHpbProperties(Some(t[i - 1]), raw[i]);
      }
    }
  }

  /** Appending raw frames leaves the earlier unwrapped frames as they were. */
  lemma {:induction false} UnwrapTrackPrefix(prev: Option<Vec3>, raw: seq<Vec3>, more: seq<Vec3>)
    ensures UnwrapTrack(prev, raw + more)[..|raw|] == UnwrapTrack(prev, raw)
    decreases |raw|
  {
    if raw != [] {
      var next := UnwrapHpb(prev, raw[0]).1;
      assert (raw + more)[1..] == raw[1..] + more;
      UnwrapTrackPrefix(next, raw[1..], more);
    }
  }
}
