/** Sequence arithmetic shared by both programs: running sums and the reading of a
    fixed-size ring buffer whose write cursor wraps round. */
module Rings {

  /** Sum of `s`, accumulated from the first element to the last, as the loops do. */
  function Sum(s: seq<real>): real
  {
    if s == [] then 0.0 else Sum(s[..|s| - 1]) + s[|s| - 1]
  }

  lemma {:induction false} SumConcat(a: seq<real>, b: seq<real>)
    ensures Sum(a + b) == Sum(a) + Sum(b)
  {
    if b == [] {
      assert a + b == a;
    } else {
      assert (a + b)[..|a + b| - 1] == a + b[..|b| - 1];
      SumConcat(a, b[..|b| - 1]);
    }
  }

  function Zeros(n: nat): (z: seq<real>)
    ensures |z| == n
    ensures forall i :: 0 <= i < n ==> z[i] == 0.0
  {
    seq(n, _ => 0.0)
  }

  lemma {:induction false} SumZeros(n: nat)
    ensures Sum(Zeros(n)) == 0.0
  {
    if n > 0 {
      assert Zeros(n)[..n - 1] == Zeros(n - 1);
      SumZeros(n - 1);
    }
  }

  /** Replacing one entry changes the total by the difference. */
  lemma {:induction false} SumUpdate(s: seq<real>, i: nat, x: real)
    requires i < |s|
    ensures Sum(s[i := x]) == Sum(s) - s[i] + x
  {
    assert s == s[..i] + [s[i]] + s[i + 1..];
    assert s[i := x] == s[..i] + [x] + s[i + 1..];
    SumConcat(s[..i] + [s[i]], s[i + 1..]);
    SumConcat(s[..i] + [x], s[i + 1..]);
    SumConcat(s[..i], [s[i]]);
    SumConcat(s[..i], [x]);
    assert Sum([s[i]]) == s[i] by { assert [s[i]][..0] == []; }
    assert Sum([x]) == x by { assert [x][..0] == []; }
  }

  /** The `n` most recent entries of `history`, oldest first; while fewer than `n`
      have been recorded, the zeros a freshly cleared buffer holds stand in front. */
  ghost function Recent(history: seq<real>, n: nat): (w: seq<real>)
    ensures |w| == n
  {
    (Zeros(n) + history)[|history|..]
  }

  lemma RecentWhenPrimed(history: seq<real>, n: nat)
    requires |history| >= n
    ensures Recent(history, n) == history[|history| - n..]
  {
    assert (Zeros(n) + history)[|history|..] == history[|history| - n..];
  }

  lemma RecentWhenWarmingUp(history: seq<real>, n: nat)
    requires |history| < n
    ensures Recent(history, n) == Zeros(n - |history|) + history
  {
    assert (Zeros(n) + history)[|history|..] == Zeros(n - |history|) + history;
  }

  /** The contents of a ring read from `cursor` onward and wrapping round to it. */
  function Unrolled(ring: seq<real>, cursor: nat): (s: seq<real>)
    requires cursor <= |ring|
    ensures |s| == |ring|
  {
    ring[cursor..] + ring[..cursor]
  }

  /** Reading the ring in any rotation does not change its total. */
  lemma {:induction false} SumUnrolled(ring: seq<real>, cursor: nat)
    requires cursor <= |ring|
    ensures Sum(Unrolled(ring, cursor)) == Sum(ring)
  {
    SumConcat(ring[cursor..], ring[..cursor]);
    SumConcat(ring[..cursor], ring[cursor..]);
    assert ring[..cursor] + ring[cursor..] == ring;
  }

  /** Writing `x` at the cursor (the slot of the oldest entry) and moving the cursor on
      by one modulo the capacity keeps the ring holding the most recent entries. */
  lemma {:induction false} PushKeepsRecent(ring: seq<real>, cursor: nat, history: seq<real>, x: real)
    requires cursor < |ring|
    requires Unrolled(ring, cursor) == Recent(history, |ring|)
    ensures Unrolled(ring[cursor := x], (cursor + 1) % |ring|) == Recent(history + [x], |ring|)
  {
    RecentPush(history, |ring|, x);
    UnrolledPush(ring, cursor, x);
  }

  lemma {:induction false} RecentPush(history: seq<real>, n: nat, x: real)
    requires n > 0
    ensures Recent(history + [x], n) == Recent(history, n)[1..] + [x]
  {
    var padded := Zeros(n) + history;
    assert Zeros(n) + (history + [x]) == padded + [x];
    assert (padded + [x])[|history| + 1..] == padded[|history| + 1..] + [x];
  }

  lemma {:induction false} UnrolledPush(ring: seq<real>, cursor: nat, x: real)
    requires cursor < |ring|
    ensures Unrolled(ring[cursor := x], (cursor + 1) % |ring|) == Unrolled(ring, cursor)[1..] + [x]
  {
    var ring' := ring[cursor := x];
    if cursor + 1 < |ring| {
      assert (cursor + 1) % |ring| == cursor + 1;
      assert ring'[cursor + 1..] == ring[cursor + 1..];
      assert ring'[..cursor + 1] == ring[..cursor] + [x];
      assert Unrolled(ring, cursor)[1..] == ring[cursor + 1..] + ring[..cursor];
    } else {
      assert (cursor + 1) % |ring| == 0;
      assert ring' == ring[..cursor] + [x];
      assert Unrolled(ring, cursor)[1..] == ring[..cursor];
    }
  }
}
