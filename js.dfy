/** The JavaScript built-ins the services lean on, stated as Dafny functions:
    Array.prototype.filter / map / slice, String.prototype.toLowerCase /
    startsWith, truthiness, and Number(x.toFixed(2)). */
module Js {

  datatype Option<+T> = None | Some(value: T)

  function Min(a: int, b: int): int { if a <= b then a else b }

  // ---------------------------------------------------------------------------
  // Array.prototype.filter

  /** `s.filter(keep)`: the elements of s that satisfy keep, in their order. */
  function Filter<T>(s: seq<T>, keep: T -> bool): (r: seq<T>)
    ensures |r| <= |s|
  {
    if s == [] then []
    else (if keep(s[0]) then [s[0]] else []) + Filter(s[1..], keep)
  }

  /** The filter keeps exactly the elements that satisfy keep. */
  lemma {:induction false} FilterMembers<T>(s: seq<T>, keep: T -> bool)
    ensures forall x :: x in Filter(s, keep) <==> x in s && keep(x)
  {
    if s != [] {
      FilterMembers(s[1..], keep);
      assert s == [s[0]] + s[1..];
    }
  }

  /** a can be obtained from b by deleting elements (order is kept). */
  ghost predicate IsSubsequence<T>(a: seq<T>, b: seq<T>)
    decreases |b|
  {
    if a == [] then true
    else if b == [] then false
    else if a[0] == b[0] then IsSubsequence(a[1..], b[1..])
    else IsSubsequence(a, b[1..])
  }

  lemma {:induction false} FilterIsSubsequence<T>(s: seq<T>, keep: T -> bool)
    ensures IsSubsequence(Filter(s, keep), s)
  {
    if s != [] {
      FilterIsSubsequence(s[1..], keep);
      var rest := Filter(s[1..], keep);
      if keep(s[0]) {
        assert Filter(s, keep) == [s[0]] + rest;
        assert ([s[0]] + rest)[1..] == rest;
      } else {
        assert Filter(s, keep) == rest;
        FilterMembers(s[1..], keep);
        if rest != [] {
          assert rest[0] in rest;
          assert rest[0] != s[0];
        }
      }
    }
  }

  /** Filtering with a predicate that keeps everything changes nothing. */
  lemma {:induction false} FilterKeepsAll<T>(s: seq<T>, keep: T -> bool)
    requires forall x :: x in s ==> keep(x)
    ensures Filter(s, keep) == s
  {
    if s != [] {
      assert s[0] in s;
      forall x | x in s[1..] ensures keep(x) { assert x in s; }
      FilterKeepsAll(s[1..], keep);
      assert [s[0]] + s[1..] == s;
    }
  }

  /** A weaker filter keeps a superset, in the same order. */
  lemma {:induction false} FilterWeaker<T>(s: seq<T>, strong: T -> bool, weak: T -> bool)
    requires forall x :: x in s && strong(x) ==> weak(x)
    ensures IsSubsequence(Filter(s, strong), Filter(s, weak))
  {
    if s != [] {
      forall x | x in s[1..] && strong(x) ensures weak(x) { assert x in s; }
      FilterWeaker(s[1..], strong, weak);
      var a, b := Filter(s[1..], strong), Filter(s[1..], weak);
      assert s[0] in s;
      if strong(s[0]) {
        assert Filter(s, strong) == [s[0]] + a && Filter(s, weak) == [s[0]] + b;
        assert ([s[0]] + a)[1..] == a && ([s[0]] + b)[1..] == b;
      } else if weak(s[0]) {
        assert Filter(s, strong) == a && Filter(s, weak) == [s[0]] + b;
        assert ([s[0]] + b)[1..] == b;
        FilterMembers(s[1..], strong);
        if a != [] {
          assert a[0] in a;
          assert a[0] != s[0];
        }
      } else {
        assert Filter(s, strong) == a && Filter(s, weak) == b;
      }
    }
  }

  lemma TailMember<T>(s: seq<T>, keep: T -> bool, x: T)
    requires |s| > 0 && x in Filter(s[1..], keep)
    ensures x in s[1..]
  {
    FilterMembers(s[1..], keep);
  }

  /** In a list whose keys strictly increase, the head's key is below every later key. */
  lemma HeadBelowTail<T>(s: seq<T>, key: T -> int, x: T)
    requires forall i, j :: 0 <= i < j < |s| ==> key(s[i]) < key(s[j])
    requires |s| > 0 && x in s[1..]
    ensures key(s[0]) < key(x)
  {
    var m :| 0 <= m < |s| - 1 && s[1..][m] == x;
    assert s[m + 1] == x;
  }

  /** Filtering a list whose keys strictly increase gives such a list again. */
  lemma {:induction false} FilterKeepsIncreasing<T>(s: seq<T>, key: T -> int, keep: T -> bool)
    requires forall i, j :: 0 <= i < j < |s| ==> key(s[i]) < key(s[j])
    ensures forall i, j :: 0 <= i < j < |Filter(s, keep)| ==> key(Filter(s, keep)[i]) < key(Filter(s, keep)[j])
  {
    if s != [] {
      var rest := Filter(s[1..], keep);
      FilterKeepsIncreasing(s[1..], key, keep);
      if keep(s[0]) {
        var r := [s[0]] + rest;
        assert Filter(s, keep) == r;
        forall j | 0 <= j < |rest| ensures key(s[0]) < key(rest[j]) {
          TailMember(s, keep, rest[j]);
          HeadBelowTail(s, key, rest[j]);
        }
        forall i, j | 0 <= i < j < |r| ensures key(r[i]) < key(r[j]) {
          if i == 0 {
            assert r[j] == rest[j - 1];
          } else {
            assert r[i] == rest[i - 1] && r[j] == rest[j - 1];
          }
        }
      }
    }
  }

  // ---------------------------------------------------------------------------
  // Array.prototype.map

  /** `s.map(f)`. */
  function Map<T, U>(s: seq<T>, f: T -> U): (r: seq<U>)
    ensures |r| == |s|
    ensures forall i :: 0 <= i < |s| ==> r[i] == f(s[i])
  {
    seq(|s|, i requires 0 <= i < |s| => f(s[i]))
  }

  // ---------------------------------------------------------------------------
  // Array.prototype.slice

  /** How slice resolves one bound: negative counts from the end, then clamp to [0, n]. */
  function SliceBound(i: int, n: nat): (r: nat)
    ensures r <= n
    ensures 0 <= i ==> r == Min(i, n)
    ensures i < 0 ==> r == if n + i < 0 then 0 else n + i
  {
    if i < 0 then (if n + i < 0 then 0 else n + i) else Min(i, n)
  }

  /** `s.slice(start, end)`. */
  function Slice<T>(s: seq<T>, start: int, end: int): seq<T>
  {
    var from, to := SliceBound(start, |s|), SliceBound(end, |s|);
    if from < to then s[from..to] else []
  }

  /** With bounds 0 <= start <= end, slice is the window [start, end) clipped to s. */
  lemma SliceWindow<T>(s: seq<T>, start: int, end: int)
    requires 0 <= start <= end
    ensures Slice(s, start, end) == if |s| <= start then [] else s[start..Min(end, |s|)]
  {
  }

  // ---------------------------------------------------------------------------
  // Strings

  function LowerChar(c: char): char
  {
    if 'A' <= c <= 'Z' then (c as int + 32) as char else c
  }

  /** `s.toLowerCase()` on ASCII letters; every other character is kept. */
  function Lower(s: string): (r: string)
    ensures |r| == |s|
    ensures forall i :: 0 <= i < |s| ==> !('A' <= r[i] <= 'Z')
    ensures forall i :: 0 <= i < |s| && !('A' <= s[i] <= 'Z') ==> r[i] == s[i]
    ensures forall i :: 0 <= i < |s| && 'A' <= s[i] <= 'Z' ==> r[i] as int == s[i] as int + 32
  {
    seq(|s|, i requires 0 <= i < |s| => LowerChar(s[i]))
  }

  /** `s.startsWith(prefix)`. */
  predicate StartsWith(s: string, prefix: string)
  {
    |prefix| <= |s| && s[..|prefix|] == prefix
  }

  /** JavaScript truthiness of a string. */
  predicate TruthyString(s: string) { s != "" }

  // ---------------------------------------------------------------------------
  // Number(x.toFixed(2))

  /** toFixed(2) of a non-negative value: the nearest hundredth, the larger on a tie. */
  function HalfUp(x: real): real
  {
    ((x * 100.0 + 0.5).Floor as real) / 100.0
  }

  /** `Number(x.toFixed(2))` on the exact value x: toFixed formats |x| and restores the sign. */
  function Round2(x: real): real
  {
    if x < 0.0 then -HalfUp(-x) else HalfUp(x)
  }

  lemma HalfUpBounds(x: real)
    requires 0.0 <= x
    ensures 0.0 <= HalfUp(x)
    ensures x - 0.005 <= HalfUp(x) <= x + 0.005
  {
    var n := (x * 100.0 + 0.5).Floor;
    assert n as real <= x * 100.0 + 0.5 < n as real + 1.0;
  }

  /** Rounding moves a value by at most half a hundredth. */
  lemma Round2Error(x: real)
    ensures x - 0.005 <= Round2(x) <= x + 0.005
  {
    if x < 0.0 { HalfUpBounds(-x); } else { HalfUpBounds(x); }
  }

  lemma HalfUpMonotone(x: real, y: real)
    requires 0.0 <= x <= y
    ensures HalfUp(x) <= HalfUp(y)
  {
    assert (x * 100.0 + 0.5).Floor <= (y * 100.0 + 0.5).Floor;
  }

  /** Rounding keeps the order of two values. */
  lemma Round2Monotone(x: real, y: real)
    requires x <= y
    ensures Round2(x) <= Round2(y)
  {
    if x < 0.0 && y < 0.0 {
      HalfUpMonotone(-y, -x);
    } else if x < 0.0 {
      HalfUpBounds(-x);
      HalfUpBounds(y);
    } else {
      HalfUpMonotone(x, y);
    }
  }

  /** Rounding never changes the sign of a value. */
  lemma Round2Sign(x: real)
    ensures x <= 0.0 ==> Round2(x) <= 0.0
    ensures 0.0 <= x ==> 0.0 <= Round2(x)
  {
    if x < 0.0 { HalfUpBounds(-x); } else { HalfUpBounds(x); }
  }
}
