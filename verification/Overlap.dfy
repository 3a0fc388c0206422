/**
 The combinatorics both stop filters rest on: the longest suffix of a text that
 could still grow into a stop sequence, and what growth of the text does to it.
 */
module Overlap {
  import opened Basics

  predicate EndsWith<T(==)>(s: seq<T>, t: seq<T>) {
    |t| <= |s| && s[|s| - |t|..] == t
  }

  predicate OccursAt<T(==)>(s: seq<T>, t: seq<T>, p: nat) {
    p + |t| <= |s| && s[p..p + |t|] == t
  }

  /** The largest `n' <= n` such that `s` ends with `stop[..n']`; 0 when there is none. */
  function OverlapUpTo<T(==)>(stop: seq<T>, s: seq<T>, n: nat): (r: nat)
    requires n <= |stop| && n <= |s|
    ensures r <= n
    ensures r > 0 ==> EndsWith(s, stop[..r])
    ensures forall h :: r < h <= n ==> !EndsWith(s, stop[..h])
  {
    if n == 0 then 0
    else if EndsWith(s, stop[..n]) then n
    else OverlapUpTo(stop, s, n - 1)
  }

  function StopOverlap<T(==)>(stop: seq<T>, s: seq<T>): nat {
    OverlapUpTo(stop, s, Min(|stop|, |s|))
  }

  /** How many trailing elements of `s` must be held back because of `stops`. */
  function HeldLen<T(==)>(stops: seq<seq<T>>, s: seq<T>): nat {
    if stops == [] then 0 else Max(StopOverlap(stops[0], s), HeldLen(stops[1..], s))
  }

  /** The last `h` elements of `s` begin some stop. */
  ghost predicate Overlaps<T>(stops: seq<seq<T>>, s: seq<T>, h: nat) {
    exists k :: 0 <= k < |stops| && 1 <= h <= |stops[k]| && EndsWith(s, stops[k][..h])
  }

  /** The longest ending of `s` that begins some stop has `h` elements. */
  ghost predicate IsHeld<T>(stops: seq<seq<T>>, s: seq<T>, h: int) {
    0 <= h && (h == 0 || Overlaps(stops, s, h)) && forall g: nat :: Overlaps(stops, s, g) ==> g <= h
  }

  lemma {:induction false} HeldLenIsLongest<T>(stops: seq<seq<T>>, s: seq<T>)
    ensures HeldLen(stops, s) <= |s|
    ensures HeldLen(stops, s) > 0 ==> Overlaps(stops, s, HeldLen(stops, s))
    ensures forall h: nat :: Overlaps(stops, s, h) ==> h <= HeldLen(stops, s)
  {
    if stops != [] {
      HeldLenIsLongest(stops[1..], s);
      forall h: nat | Overlaps(stops, s, h) ensures h <= HeldLen(stops, s) {
        var k :| 0 <= k < |stops| && 1 <= h <= |stops[k]| && EndsWith(s, stops[k][..h]);
        if k > 0 {
          assert stops[1..][k - 1] == stops[k];
          assert Overlaps(stops[1..], s, h);
        }
      }
      var r := HeldLen(stops, s);
      if r > 0 {
        if r == StopOverlap(stops[0], s) {
          assert EndsWith(s, stops[0][..r]);
        } else {
          var k :| 0 <= k < |stops[1..]| && 1 <= r <= |stops[1..][k]| && EndsWith(s, stops[1..][k][..r]);
          assert stops[k + 1] == stops[1..][k];
        }
      }
    }
  }

  /** If a stop that begins inside `s` reaches the end of `s` or beyond, the part inside is held back. */
  lemma CrossingStopIsHeld<T>(stops: seq<seq<T>>, s: seq<T>, t: seq<T>, k: nat, n: nat, p: nat)
    requires s <= t
    requires k < |stops| && n <= |stops[k]|
    requires OccursAt(t, stops[k][..n], p) && p + n >= |s|
    ensures HeldLen(stops, s) <= |s| && p >= |s| - HeldLen(stops, s)
  {
    HeldLenIsLongest(stops, s);
    if p < |s| {
      var h := |s| - p;
      assert s[p..] == t[p..|s|] == t[p..p + n][..h] == stops[k][..n][..h] == stops[k][..h];
      assert EndsWith(s, stops[k][..h]);
      assert Overlaps(stops, s, h);
    }
  }

  /** A whole stop completed beyond `s` begins no earlier than the part of `s` held back. */
  lemma CrossingWholeStopIsHeld<T>(stops: seq<seq<T>>, s: seq<T>, t: seq<T>, k: nat, p: nat)
    requires s <= t && k < |stops|
    requires OccursAt(t, stops[k], p) && p + |stops[k]| >= |s|
    ensures HeldLen(stops, s) <= |s| && p >= |s| - HeldLen(stops, s)
  {
    assert stops[k][..|stops[k]|] == stops[k];
    CrossingStopIsHeld(stops, s, t, k, |stops[k]|, p);
  }

  lemma HeldPrefix<T>(stops: seq<seq<T>>, t: seq<T>) returns (k: nat, h: nat)
    ensures h == HeldLen(stops, t) <= |t|
    ensures h > 0 ==> k < |stops| && h <= |stops[k]| && OccursAt(t, stops[k][..h], |t| - h)
  {
    HeldLenIsLongest(stops, t);
    h, k := HeldLen(stops, t), 0;
    if h > 0 {
      k :| 0 <= k < |stops| && 1 <= h <= |stops[k]| && EndsWith(t, stops[k][..h]);
      assert t[|t| - h..|t| - h + h] == t[|t| - h..];
    }
  }

  /** What may be shown never shrinks when the text grows. */
  lemma SafeEndNeverRetracts<T>(stops: seq<seq<T>>, s: seq<T>, t: seq<T>)
    requires s <= t
    ensures HeldLen(stops, s) <= |s| && HeldLen(stops, t) <= |t|
    ensures |s| - HeldLen(stops, s) <= |t| - HeldLen(stops, t)
  {
    hide HeldLen;
    var k, h := HeldPrefix(stops, t);
    var _, _ := HeldPrefix(stops, s);
    if h > 0 {
      CrossingStopIsHeld(stops, s, t, k, h, |t| - h);
    }
  }
}
