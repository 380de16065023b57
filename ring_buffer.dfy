/**
 * The interface of uthash's `utringbuffer` as src/game.c uses it: a buffer
 * of fixed capacity whose `push_back` evicts the oldest entry when full,
 * modelled by its contents, oldest first.
 */
module RingBuffer {
  import opened Basics

  /** The last `n` entries of `s` (all of them when there are fewer). */
  function LastN<T>(s: seq<T>, n: nat): (r: seq<T>)
    ensures |r| == Min(|s|, n)
    ensures r == s[|s| - |r|..]
  {
    if |s| <= n then s else s[|s| - n..]
  }

  /** The contents after `utringbuffer_push_back(buf, x)` at capacity `cap`. */
  function PushBack<T>(buf: seq<T>, x: T, cap: nat): (r: seq<T>)
    requires 0 < cap && |buf| <= cap
    ensures |r| <= cap
  {
    if |buf| < cap then buf + [x] else buf[1..] + [x]
  }

  /** A push keeps the most recent `cap` entries, the new one last. */
  lemma PushBackKeepsMostRecent<T>(buf: seq<T>, x: T, cap: nat)
    requires 0 < cap && |buf| <= cap
    ensures PushBack(buf, x, cap) == LastN(buf + [x], cap)
    ensures PushBack(buf, x, cap)[|PushBack(buf, x, cap)| - 1] == x
  {
  }

  /** The contents after pushing each of `xs` in turn. */
  function PushAll<T>(buf: seq<T>, xs: seq<T>, cap: nat): (r: seq<T>)
    requires 0 < cap && |buf| <= cap
    ensures |r| <= cap
    decreases |xs|
  {
    if xs == [] then buf else PushAll(PushBack(buf, xs[0], cap), xs[1..], cap)
  }

  lemma LastNOfAppend<T>(s: seq<T>, x: T, n: nat)
    requires 0 < n
    ensures LastN(LastN(s, n) + [x], n) == LastN(s + [x], n)
  {
    var l := LastN(s, n);
    var a, b := LastN(l + [x], n), LastN(s + [x], n);
    assert |a| == |b|;
    forall i | 0 <= i < |a| ensures a[i] == b[i] {
      if i == |a| - 1 {
      } else {
        assert a[i] == l[|l| + 1 - |a| + i];
      }
    }
  }

  /**
   * After any number of pushes the buffer holds the most recent `cap`
   * entries of everything pushed, in insertion order.
   */
  lemma {:induction false} PushAllKeepsMostRecent<T>(buf: seq<T>, xs: seq<T>, cap: nat)
    requires 0 < cap && |buf| <= cap
    ensures PushAll(buf, xs, cap) == LastN(buf + xs, cap)
    decreases |xs|
  {
    if xs == [] {
      assert buf + xs == buf;
    } else {
      var s1, rest := buf + [xs[0]], xs[1..];
      var b1 := PushBack(buf, xs[0], cap);
      PushBackKeepsMostRecent(buf, xs[0], cap);
      PushAllKeepsMostRecent(b1, rest, cap);
      LastNOfPrefix(s1, rest, cap);
      AppendSplitsHead(buf, xs);
      calc {
        PushAll(buf, xs, cap);
        PushAll(b1, rest, cap);
        LastN(b1 + rest, cap);
        LastN(s1 + rest, cap);
      }
    }
  }

  lemma AppendSplitsHead<T>(a: seq<T>, xs: seq<T>)
    requires xs != []
    ensures a + xs == (a + [xs[0]]) + xs[1..]
  {
    var l, r := a + xs, (a + [xs[0]]) + xs[1..];
    assert |l| == |r|;
    forall i | 0 <= i < |l| ensures l[i] == r[i] {
      if i < |a| {
      } else if i == |a| {
      } else {
        assert r[i] == xs[1..][i - |a| - 1];
      }
    }
  }

  /** Only the last `n` entries of a prefix matter for the last `n` of the whole. */
  lemma {:induction false} LastNOfPrefix<T>(s: seq<T>, t: seq<T>, n: nat)
    requires 0 < n
    ensures LastN(LastN(s, n) + t, n) == LastN(s + t, n)
    decreases |t|
  {
    if t == [] {
      assert LastN(s, n) + t == LastN(s, n);
      assert s + t == s;
    } else {
      var init, last := t[..|t| - 1], t[|t| - 1];
      LastNOfPrefix(s, init, n);
      assert LastN(s, n) + t == (LastN(s, n) + init) + [last];
      assert s + t == (s + init) + [last];
      LastNOfAppend(LastN(s, n) + init, last, n);
      LastNOfAppend(s + init, last, n);
    }
  }

  /** Pushing onto a full buffer drops exactly the oldest entry. */
  lemma PushFullEvictsOldest<T>(buf: seq<T>, x: T, cap: nat)
    requires 0 < cap && |buf| == cap
    ensures PushBack(buf, x, cap) == buf[1..] + [x]
  {
  }
}
