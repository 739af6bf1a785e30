/**
 A bounded double-ended queue used as a rolling window, in the manner of a
 `deque` created with a maximum length: appending to a full window drops the
 oldest element. The window is an immutable sequence, oldest element first.
 */
module BoundedDeque {

  function Min(a: int, b: int): int {
    if a <= b then a else b
  }

  function Last<T>(s: seq<T>): T
    requires |s| > 0
  {
    s[|s| - 1]
  }

  /** Reference definition: the newest `n` elements of `s`, oldest first
      (all of `s` when it holds no more than `n`). */
  function Newest<T>(s: seq<T>, n: nat): seq<T> {
    if |s| <= n then s else s[|s| - n..]
  }

  /** `r` is what a window of capacity `cap` holding `s` holds after `x` is
      appended: one longer unless already full, `x` last, and in front of it
      the newest elements of `s` in their original order. */
  ghost predicate Appended<T>(s: seq<T>, r: seq<T>, x: T, cap: nat) {
    && |r| == Min(|s| + 1, cap)
    && 0 < |r| <= |s| + 1
    && r[|r| - 1] == x
    && r[..|r| - 1] == s[|s| + 1 - |r|..]
  }

  /** Appending to a window whose length never exceeds its capacity. */
  function Push<T>(s: seq<T>, x: T, cap: nat): (r: seq<T>)
    requires 0 < cap && |s| <= cap
    ensures Appended(s, r, x, cap)
    ensures |r| <= cap
    ensures |s| < cap ==> r[..|s|] == s
    ensures |s| == cap ==> r[..|r| - 1] == s[1..]
  {
    if |s| < cap then s + [x] else s[1..] + [x]
  }

  /** Element by element: every element but the last is the element of `s`
      that many places from the newest end. */
  lemma AppendedElements<T>(s: seq<T>, r: seq<T>, x: T, cap: nat)
    requires Appended(s, r, x, cap)
    ensures forall i :: 0 <= i < |r| - 1 ==> r[i] == s[i + |s| + 1 - |r|]
  {
    forall i | 0 <= i < |r| - 1
      ensures r[i] == s[i + |s| + 1 - |r|]
    {
      assert r[i] == r[..|r| - 1][i];
    }
  }

  /** The description `Appended` pins the window down completely. */
  lemma AppendedIsUnique<T>(s: seq<T>, r1: seq<T>, r2: seq<T>, x: T, cap: nat)
    requires Appended(s, r1, x, cap)
    requires Appended(s, r2, x, cap)
    ensures r1 == r2
  {
    assert r1 == r1[..|r1| - 1] + [x];
    assert r2 == r2[..|r2| - 1] + [x];
  }

  /** Pushing keeps exactly the newest `cap` elements of the history. */
  lemma PushIsNewest<T>(s: seq<T>, x: T, cap: nat)
    requires 0 < cap && |s| <= cap
    ensures Push(s, x, cap) == Newest(s + [x], cap)
  {
    if |s| == cap {
      assert (s + [x])[|s| + 1 - cap..] == s[1..] + [x];
    }
  }

  /** Trimming a history early and again later keeps what trimming once at
      the end would keep. */
  lemma NewestAbsorbs<T>(s: seq<T>, t: seq<T>, n: nat)
    ensures Newest(Newest(s, n) + t, n) == Newest(s + t, n)
  {
    if |s| > n {
      var u, k := s + t, |s| - n;
      assert Newest(s, n) == s[k..];
      assert s[k..] + t == u[k..];
      if |t| == 0 {
        assert u == s;
      } else {
        assert |u[k..]| > n;
        assert u[k..][|u[k..]| - n..] == u[|u| - n..];
      }
    }
  }

  /** Appending a whole history one element at a time. */
  function PushAll<T>(s: seq<T>, xs: seq<T>, cap: nat): (r: seq<T>)
    requires 0 < cap && |s| <= cap
    ensures |r| <= cap
    decreases |xs|
  {
    if |xs| == 0 then s else PushAll(Push(s, xs[0], cap), xs[1..], cap)
  }

  /** A window fed with `xs` holds the newest `cap` elements of everything it
      was ever given, in order. */
  lemma {:induction false} PushAllIsNewest<T>(s: seq<T>, xs: seq<T>, cap: nat)
    requires 0 < cap && |s| <= cap
    ensures PushAll(s, xs, cap) == Newest(s + xs, cap)
    decreases |xs|
  {
    if |xs| == 0 {
      assert s + xs == s;
    } else {
      var x, rest := xs[0], xs[1..];
      var s' := Push(s, x, cap);
      calc {
        PushAll(s, xs, cap);
        PushAll(s', rest, cap);
        { PushAllIsNewest(s', rest, cap); }
        Newest(s' + rest, cap);
        { PushIsNewest(s, x, cap); }
        Newest(Newest(s + [x], cap) + rest, cap);
        { NewestAbsorbs(s + [x], rest, cap); }
        Newest(s + [x] + rest, cap);
        { assert s + [x] + rest == s + xs; }
        Newest(s + xs, cap);
      }
    }
  }
}
