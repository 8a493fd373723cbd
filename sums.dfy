/** Finite sums over `real`, concatenation of nested sequences, and the
    rearrangement facts the numerical modules rely on. */
module RealSums {

  /** The sum of all entries. */
  function Sum(s: seq<real>): real
  {
    if s == [] then 0.0 else s[0] + Sum(s[1..])
  }

  /** The sum of `h` applied to every entry. */
  function SumOf(xs: seq<real>, h: real -> real): real
  {
    if xs == [] then 0.0 else h(xs[0]) + SumOf(xs[1..], h)
  }

  /** The sum of a sequence of naturals (Python's `sum` over a list of lengths). */
  function SumNat(s: seq<nat>): nat
  {
    if s == [] then 0 else s[0] + SumNat(s[1..])
  }

  /** Inner product of two equally long vectors. */
  function Dot(a: seq<real>, b: seq<real>): real
    requires |a| == |b|
  {
    if a == [] then 0.0 else a[0] * b[0] + Dot(a[1..], b[1..])
  }

  /** Concatenation of a sequence of sequences (`np.hstack`, `np.concatenate`). */
  function Concat<T>(ss: seq<seq<T>>): seq<T>
  {
    if ss == [] then [] else ss[0] + Concat(ss[1..])
  }

  /** The per-block lengths of a nested sequence. */
  function Lengths<T>(ss: seq<seq<T>>): (ls: seq<nat>)
    ensures |ls| == |ss|
    ensures forall r :: 0 <= r < |ss| ==> ls[r] == |ss[r]|
  {
    seq(|ss|, r requires 0 <= r < |ss| => |ss[r]|)
  }

  /** The sum of every block's sum. */
  function BlockSums(ss: seq<seq<real>>): real
  {
    if ss == [] then 0.0 else Sum(ss[0]) + BlockSums(ss[1..])
  }

  lemma {:induction false} SumAppend(a: seq<real>, b: seq<real>)
    ensures Sum(a + b) == Sum(a) + Sum(b)
  {
    if a != [] {
      assert (a + b)[1..] == a[1..] + b;
      SumAppend(a[1..], b);
    } else {
      assert a + b == b;
    }
  }

  lemma {:induction false} SumOfAppend(a: seq<real>, b: seq<real>, h: real -> real)
    ensures SumOf(a + b, h) == SumOf(a, h) + SumOf(b, h)
  {
    if a != [] {
      assert (a + b)[1..] == a[1..] + b;
      SumOfAppend(a[1..], b, h);
    } else {
      assert a + b == b;
    }
  }

  /** Summing the concatenation is summing block by block: the block
      boundaries do not matter. */
  lemma {:induction false} SumConcat(ss: seq<seq<real>>)
    ensures Sum(Concat(ss)) == BlockSums(ss)
  {
    if ss != [] {
      SumAppend(ss[0], Concat(ss[1..]));
      SumConcat(ss[1..]);
    }
  }

  lemma {:induction false} ConcatLength<T>(ss: seq<seq<T>>)
    ensures |Concat(ss)| == SumNat(Lengths(ss))
  {
    if ss != [] {
      assert Lengths(ss)[1..] == Lengths(ss[1..]);
      ConcatLength(ss[1..]);
    }
  }

  /** Entry `j` of block `r` sits at position `r * m + j` of the concatenation
      when every block has exactly `m` entries. */
  lemma {:induction false} ConcatIndex<T>(ss: seq<seq<T>>, m: nat, r: nat, j: nat)
    requires forall q :: 0 <= q < |ss| ==> |ss[q]| == m
    requires r < |ss| && j < m
    ensures |Concat(ss)| == |ss| * m
    ensures r * m + j < |Concat(ss)|
    ensures Concat(ss)[r * m + j] == ss[r][j]
  {
    ConcatUniformLength(ss, m);
    if r > 0 {
      ConcatIndex(ss[1..], m, r - 1, j);
      assert r * m + j == m + ((r - 1) * m + j);
    }
  }

  lemma {:induction false} ConcatUniformLength<T>(ss: seq<seq<T>>, m: nat)
    requires forall q :: 0 <= q < |ss| ==> |ss[q]| == m
    ensures |Concat(ss)| == |ss| * m
  {
    if ss != [] {
      ConcatUniformLength(ss[1..], m);
    }
  }

  /** Removing the entry at index `k` takes exactly `h` of it out of the sum. */
  lemma {:induction false} SumOfRemove(b: seq<real>, k: nat, h: real -> real)
    requires k < |b|
    ensures SumOf(b, h) == h(b[k]) + SumOf(b[..k] + b[k + 1..], h)
  {
    assert b == b[..k] + [b[k]] + b[k + 1..];
    SumOfAppend(b[..k] + [b[k]], b[k + 1..], h);
    SumOfAppend(b[..k], [b[k]], h);
    SumOfAppend(b[..k], b[k + 1..], h);
    assert SumOf([b[k]], h) == h(b[k]) + SumOf([], h);
  }

  /** A sum does not depend on the order of its terms. */
  lemma {:induction false} SumOfPermutation(a: seq<real>, b: seq<real>, h: real -> real)
    requires multiset(a) == multiset(b)
    ensures SumOf(a, h) == SumOf(b, h)
    decreases |a|
  {
    if a == [] {
      assert |b| == |multiset(b)| == 0;
    } else {
      var k := Matching(a, b);
      var rest := b[..k] + b[k + 1..];
      SumOfPermutation(a[1..], rest, h);
      SumOfRemove(b, k, h);
    }
  }

  /** Where the first term of `a` sits in a permutation `b` of `a`; the
      rest of `a` is a permutation of `b` without it. */
  lemma {:induction false} Matching(a: seq<real>, b: seq<real>) returns (k: nat)
    requires a != [] && multiset(a) == multiset(b)
    ensures k < |b| && b[k] == a[0]
    ensures multiset(a[1..]) == multiset(b[..k] + b[k + 1..])
  {
    assert a[0] in multiset(b) by {
      assert a[0] in multiset(a);
    }
    k :| 0 <= k < |b| && b[k] == a[0];
    var m := multiset(a) - multiset{a[0]};
    assert multiset(a[1..]) == m by {
      RemoveOne(a, 0);
      assert a[..0] + a[1..] == a[1..];
    }
    assert multiset(b[..k] + b[k + 1..]) == m by {
      RemoveOne(b, k);
    }
  }

  /** Taking out the term at `k` takes one copy of it out of the multiset. */
  lemma {:induction false} RemoveOne(b: seq<real>, k: nat)
    requires k < |b|
    ensures multiset(b[..k] + b[k + 1..]) == multiset(b) - multiset{b[k]}
  {
    assert b == b[..k] + [b[k]] + b[k + 1..];
  }
}
