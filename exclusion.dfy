/** The vertex-exclusion bit logic of chaosgame.py: the cyclic rotation `lcyc`,
    the exclusion mask built from a list of offsets, and the list of vertices
    whose bit in a mask is clear. */
module Exclusion {
  import opened Bits

  /** `lcyc(N, n, k)`: rotate the N-bit word n left by k places.
      Python refuses a negative shift count, so k may not exceed N. */
  function Lcyc(N: nat, n: nat, k: nat): (r: nat)
    requires k <= N
    ensures r < Pow2(N)
  {
    And(Or(Shr(n, N - k), Shl(n, k)), Shl(1, N) - 1)
  }

  /** What `lcyc` does to each bit, for any n (also one wider than N bits). */
  lemma LcycBit(N: nat, n: nat, k: nat, j: nat)
    requires k <= N
    ensures Bit(Lcyc(N, n, k), j) <==> j < N && (Bit(n, j + (N - k)) || (k <= j && Bit(n, j - k)))
  {
    BitAnd(Or(Shr(n, N - k), Shl(n, k)), Shl(1, N) - 1, j);
    BitOr(Shr(n, N - k), Shl(n, k), j);
    BitShr(n, N - k, j);
    BitShl(n, k, j);
    BitLowMask(N, j);
  }

  /** x mod N for 0 <= x < 2N. */
  lemma ModOnce(x: nat, N: nat)
    requires 0 < N && x < 2 * N
    ensures x % N == if x < N then x else x - N
  {
    if x < N {
      assert x == 0 * N + x;
    } else {
      assert x == 1 * N + (x - N);
    }
  }

  /** On an N-bit word, `lcyc` is a rotation: the result is an N-bit word and
      bit i of n moves to bit (i + k) mod N. */
  lemma LcycRotates(N: nat, n: nat, k: nat)
    requires n < Pow2(N) && k < N
    ensures Lcyc(N, n, k) < Pow2(N)
    ensures forall i :: 0 <= i < N ==> (Bit(Lcyc(N, n, k), (i + k) % N) <==> Bit(n, i))
  {
    forall i | 0 <= i < N
      ensures Bit(Lcyc(N, n, k), (i + k) % N) <==> Bit(n, i)
    {
      ModOnce(i + k, N);
      var j := (i + k) % N;
      LcycBit(N, n, k, j);
      if i + k < N {
        HighBitsClear(n, N, j + (N - k));
      }
    }
  }

  /** Bit j of the single bit 0 rotated by v is set exactly at j = v. */
  lemma LcycOneBit(N: nat, v: nat, j: nat)
    requires v < N
    ensures Bit(Lcyc(N, 1, v), j) <==> j == v
  {
    LcycBit(N, 1, v, j);
    BitPow2(0, j + (N - v));
    if v <= j {
      BitPow2(0, j - v);
    }
  }

  /** Rotating the single bit 0 by v gives the single bit v: the mask of
      `excluded=[0]` forbids exactly the previous vertex. */
  lemma LcycOne(N: nat, v: nat)
    requires v < N
    ensures Lcyc(N, 1, v) == Pow2(v)
  {
    forall j: nat
      ensures Bit(Lcyc(N, 1, v), j) <==> Bit(Pow2(v), j)
    {
      LcycOneBit(N, v, j);
      BitPow2(v, j);
    }
    BitsEqual(Lcyc(N, 1, v), Pow2(v));
  }

  /** `ChaosGameHistExc`'s mask: `sum(2**i for i in excluded)`, an arithmetic
      sum, so an offset listed twice is counted twice; it is never below the
      set mask of the same list. */
  function ExclusionMask(offsets: seq<nat>): (m: nat)
    ensures SetMask(offsets) <= m
  {
    if offsets == [] then 0
    else ExclusionMask(offsets[..|offsets| - 1]) + Pow2(offsets[|offsets| - 1])
  }

  /** `ChaosGameHistExc2`'s mask: the same sum, guarded by a length test. */
  function ExclusionMask2(offsets: seq<nat>): (m: nat)
    ensures m == ExclusionMask(offsets)
    ensures offsets == [] ==> m == 0
  {
    if |offsets| > 0 then ExclusionMask(offsets) else 0
  }

  /** The set mask of a list of offsets: the bitwise OR of 2^i over the list. */
  function SetMask(offsets: seq<nat>): nat
  {
    if offsets == [] then 0
    else Or(SetMask(offsets[..|offsets| - 1]), Pow2(offsets[|offsets| - 1]))
  }

  predicate Distinct(offsets: seq<nat>)
  {
    forall p, q :: 0 <= p < q < |offsets| ==> offsets[p] != offsets[q]
  }

  /** The set mask has bit i set exactly when i is one of the offsets. */
  lemma {:induction false} SetMaskBits(offsets: seq<nat>, i: nat)
    ensures Bit(SetMask(offsets), i) <==> i in offsets
    decreases |offsets|
  {
    if offsets == [] {
      BitZero(i);
    } else {
      var init, last := offsets[..|offsets| - 1], offsets[|offsets| - 1];
      assert offsets == init + [last];
      BitOr(SetMask(init), Pow2(last), i);
      BitPow2(last, i);
      SetMaskBits(init, i);
    }
  }

  /** For a list without repeated offsets the sum is the set mask, so each
      listed offset is exactly one set bit. */
  lemma {:induction false} ExclusionMaskDistinct(offsets: seq<nat>)
    requires Distinct(offsets)
    ensures ExclusionMask(offsets) == SetMask(offsets)
    ensures forall i: nat :: Bit(ExclusionMask(offsets), i) <==> i in offsets
    decreases |offsets|
  {
    if offsets != [] {
      var init, last := offsets[..|offsets| - 1], offsets[|offsets| - 1];
      assert offsets == init + [last];
      ExclusionMaskDistinct(init);
      forall i: nat
        ensures !(Bit(SetMask(init), i) && Bit(Pow2(last), i))
      {
        SetMaskBits(init, i);
        BitPow2(last, i);
      }
      OrDisjoint(SetMask(init), Pow2(last));
    }
    forall i: nat
      ensures Bit(ExclusionMask(offsets), i) <==> i in offsets
    {
      SetMaskBits(offsets, i);
    }
  }

  /** Adding a bit that is already set changes nothing. */
  lemma OrAbsorb(a: nat, o: nat)
    requires Bit(a, o)
    ensures Or(a, Pow2(o)) == a
  {
    forall i: nat
      ensures Bit(Or(a, Pow2(o)), i) <==> Bit(a, i)
    {
      BitOr(a, Pow2(o), i);
      BitPow2(o, i);
    }
    BitsEqual(Or(a, Pow2(o)), a);
  }

  /** A repeated offset makes the sum exceed the set mask. */
  lemma {:induction false} ExclusionMaskRepeated(offsets: seq<nat>)
    requires !Distinct(offsets)
    ensures SetMask(offsets) < ExclusionMask(offsets)
    decreases |offsets|
  {
    var init, last := offsets[..|offsets| - 1], offsets[|offsets| - 1];
    assert offsets == init + [last];
    if last in init {
      SetMaskBits(init, last);
      OrAbsorb(SetMask(init), last);
    } else {
      var p, q :| 0 <= p < q < |offsets| && offsets[p] == offsets[q];
      assert forall i :: 0 <= i < |init| ==> init[i] == offsets[i];
      assert q < |offsets| - 1;
      assert init[p] == init[q];
      ExclusionMaskRepeated(init);
    }
  }

  /** The sum equals the set mask exactly when no offset is repeated. */
  lemma ExclusionMaskIsSetMask(offsets: seq<nat>)
    ensures ExclusionMask(offsets) == SetMask(offsets) <==> Distinct(offsets)
  {
    if Distinct(offsets) {
      ExclusionMaskDistinct(offsets);
    } else {
      ExclusionMaskRepeated(offsets);
    }
  }

  /** A list of distinct offsets below N gives an N-bit mask. */
  lemma ExclusionMaskWidth(offsets: seq<nat>, N: nat)
    requires Distinct(offsets)
    requires forall o :: o in offsets ==> o < N
    ensures ExclusionMask(offsets) < Pow2(N)
  {
    ExclusionMaskDistinct(offsets);
    BelowPow2(ExclusionMask(offsets), N);
  }

  /** The default `excluded=[0,0,0,0,0,0]` sums to 6 (bits 1 and 2), not to the
      set mask 1 (bit 0). */
  lemma DefaultMask()
    ensures ExclusionMask([0, 0, 0, 0, 0, 0]) == 6
    ensures SetMask([0, 0, 0, 0, 0, 0]) == 1
  {
    var zeros := [0, 0, 0, 0, 0, 0];
    assert zeros[..5] == [0, 0, 0, 0, 0] && zeros[..5][..4] == [0, 0, 0, 0];
    assert zeros[..5][..4][..3] == [0, 0, 0] && [0, 0, 0][..2] == [0, 0];
    assert [0, 0][..1] == [0] && [0][..0] == [];
    assert ExclusionMask([0]) == 1;
    assert ExclusionMask([0, 0]) == 2;
    assert ExclusionMask([0, 0, 0]) == 3;
    assert ExclusionMask([0, 0, 0, 0]) == 4;
    assert ExclusionMask([0, 0, 0, 0, 0]) == 5;
    forall i: nat
      ensures Bit(SetMask(zeros), i) <==> Bit(1, i)
    {
      SetMaskBits(zeros, i);
      BitPow2(0, i);
    }
    BitsEqual(SetMask(zeros), 1);
  }

  /** `[i for i in range(N) if not (exc & (1 << i))]`. */
  function Avail(N: nat, exc: nat): (r: seq<nat>)
    ensures forall i :: 0 <= i < |r| ==> r[i] < N
  {
    if N == 0 then []
    else Avail(N - 1, exc) + (if And(exc, Shl(1, N - 1)) == 0 then [N - 1] else [])
  }

  /** The available vertices are exactly the indices below N whose bit in the
      mask is clear, listed in ascending order. */
  lemma AvailSpec(N: nat, exc: nat)
    ensures forall i: nat :: i in Avail(N, exc) <==> i < N && !Bit(exc, i)
    ensures forall p, q :: 0 <= p < q < |Avail(N, exc)| ==> Avail(N, exc)[p] < Avail(N, exc)[q]
  {
    AvailMembers(N, exc);
    AvailAscending(N, exc);
  }

  lemma {:induction false} AvailMembers(N: nat, exc: nat)
    ensures forall i: nat :: i in Avail(N, exc) <==> i < N && !Bit(exc, i)
    decreases N
  {
    if N > 0 {
      AvailMembers(N - 1, exc);
      AndSingleBit(exc, N - 1);
    }
  }

  lemma {:induction false} AvailAscending(N: nat, exc: nat)
    ensures forall p, q :: 0 <= p < q < |Avail(N, exc)| ==> Avail(N, exc)[p] < Avail(N, exc)[q]
    decreases N
  {
    if N > 0 {
      AvailAscending(N - 1, exc);
    }
  }

  /** After vertex v, the vertex i places further on is available exactly
      when i is not a listed offset. */
  lemma AvailAfter(N: nat, offsets: seq<nat>, v: nat, i: nat)
    requires Distinct(offsets)
    requires forall o :: o in offsets ==> o < N
    requires v < N && i < N
    ensures (i + v) % N in Avail(N, Lcyc(N, ExclusionMask(offsets), v)) <==> i !in offsets
  {
    var m := ExclusionMask(offsets);
    ExclusionMaskWidth(offsets, N);
    ExclusionMaskDistinct(offsets);
    assert Bit(m, i) <==> i in offsets;
    LcycRotates(N, m, v);
    assert Bit(Lcyc(N, m, v), (i + v) % N) <==> Bit(m, i);
    AvailSpec(N, Lcyc(N, m, v));
  }

  /** After vertex v, no vertex a listed offset away from v is available. */
  lemma ExclusionExcludes(N: nat, offsets: seq<nat>, v: nat)
    requires Distinct(offsets)
    requires forall o :: o in offsets ==> o < N
    requires v < N
    ensures forall o :: o in offsets ==> (v + o) % N !in Avail(N, Lcyc(N, ExclusionMask(offsets), v))
  {
    forall o | o in offsets
      ensures (v + o) % N !in Avail(N, Lcyc(N, ExclusionMask(offsets), v))
    {
      AvailAfter(N, offsets, v, o);
      assert o + v == v + o;
    }
  }

  /** After vertex v, every vertex that is no listed offset away from v is
      available. */
  lemma ExclusionAdmits(N: nat, offsets: seq<nat>, v: nat)
    requires Distinct(offsets)
    requires forall o :: o in offsets ==> o < N
    requires v < N
    ensures forall w :: 0 <= w < N && (forall o :: o in offsets ==> (v + o) % N != w) ==>
                          w in Avail(N, Lcyc(N, ExclusionMask(offsets), v))
  {
    forall w | 0 <= w < N && (forall o :: o in offsets ==> (v + o) % N != w)
      ensures w in Avail(N, Lcyc(N, ExclusionMask(offsets), v))
    {
      var i := if v <= w then w - v else w + N - v;
      ModOnce(i + v, N);
      assert (v + i) % N == w;
      assert i !in offsets;
      AvailAfter(N, offsets, v, i);
    }
  }

  /** Of six vertices, the mask 4 (bit 2) leaves all but vertex 2. */
  lemma AvailBitTwo()
    ensures Avail(6, 4) == [0, 1, 3, 4, 5]
  {
    AndSingleBit(4, 0);
    AndSingleBit(4, 1);
    AndSingleBit(4, 2);
    AndSingleBit(4, 3);
    AndSingleBit(4, 4);
    AndSingleBit(4, 5);
    assert Avail(2, 4) == [0, 1];
    assert Avail(3, 4) == [0, 1];
    assert Avail(4, 4) == [0, 1, 3];
    assert Avail(5, 4) == [0, 1, 3, 4];
  }

  /** The scenario of six vertices, `excluded=[0]` and previous vertex 2:
      every vertex but 2 stays available. */
  lemma RepeatScenario()
    ensures Avail(6, Lcyc(6, ExclusionMask([0]), 2)) == [0, 1, 3, 4, 5]
  {
    assert [0][..0] == [];
    assert ExclusionMask([0]) == 1;
    LcycOne(6, 2);
    AvailBitTwo();
  }
}
