/** What one step of the game chooses: `choose_vertex` of the four game
    classes and `choose_transform` of the weighted and the per-vertex kind,
    as functions of the history and of the step's random draws. */
module Selection {
  import opened Wrappers
  import opened Bits
  import opened Exclusion
  import opened Geometry

  /** The four game classes; an exclusion variant holds its computed mask. */
  datatype Variant =
    | Basic                                 // ChaosGame
    | HistExc(histLen: int, excluded: nat)  // ChaosGameHistExc
    | HistExc2(excluded: nat)               // ChaosGameHistExc2
    | TargetTransform                       // ChaosGameTargetTransform

  /** `ChaosGameHistExc(hist_len, excluded)`: the game keeps `hist_len` and the
      sum mask of the offsets, which is the set mask exactly when no offset is
      repeated. */
  function HistExcOf(histLen: int, excluded: seq<nat>): (v: Variant)
    ensures v.HistExc? && v.histLen == histLen
    ensures v.excluded == SetMask(excluded) <==> Distinct(excluded)
  {
    ExclusionMaskIsSetMask(excluded);
    HistExc(histLen, ExclusionMask(excluded))
  }

  /** `ChaosGameHistExc2(excluded)`: the length-guarded sum mask. */
  function HistExc2Of(excluded: seq<nat>): (v: Variant)
    ensures v.HistExc2?
    ensures v.excluded == SetMask(excluded) <==> Distinct(excluded)
    ensures excluded == [] ==> v.excluded == 0
  {
    ExclusionMaskIsSetMask(excluded);
    HistExc2(ExclusionMask2(excluded))
  }

  /** The defaults `hist_len=1, excluded=[0,0,0,0,0,0]` and `excluded=[]`,
      and the script's `ChaosGameHistExc2(excluded=[1, 3, 5])`. */
  lemma DefaultVariants()
    ensures HistExcOf(1, [0, 0, 0, 0, 0, 0]) == HistExc(1, 6)
    ensures HistExc2Of([]) == HistExc2(0)
    ensures HistExc2Of([1, 3, 5]) == HistExc2(42)
  {
    DefaultMask();
    assert [1, 3, 5][..2] == [1, 3] && [1, 3][..1] == [1] && [1][..0] == [];
    assert ExclusionMask([1]) == 2;
    assert ExclusionMask([1, 3]) == 10;
  }

  /** `randint(0, m - 1)` for the draw u in [0, 1): the index floor(u m);
      None when the range is empty (where Python raises ValueError). */
  function RandInt(m: nat, u: real): (r: Option<nat>)
    requires 0.0 <= u < 1.0
    ensures r.None? <==> m == 0
    ensures r.Some? ==> r.value < m
  {
    if m == 0 then None
    else
      var f := (u * m as real).Floor;
      assert 0 <= f by {
        assert 0.0 <= u * m as real;
      }
      assert f < m by {
        assert u * m as real < m as real;
      }
      Some(f as nat)
  }

  /** The draw i / m of an index below m lies in [0, 1). */
  lemma DrawOf(m: nat, i: nat)
    requires i < m
    ensures 0.0 <= i as real / m as real < 1.0
  {
    var u := i as real / m as real;
    assert u * m as real == i as real;
    assert (1.0 - u) * m as real == m as real - i as real;
  }

  /** Every index of a non-empty range comes out of some draw. */
  lemma RandIntOnto(m: nat, i: nat)
    requires i < m
    ensures 0.0 <= i as real / m as real < 1.0
    ensures RandInt(m, i as real / m as real) == Some(i)
  {
    DrawOf(m, i);
    var u := i as real / m as real;
    assert u * m as real == i as real;
  }

  /** An entry of the history: the initial 0 or a vertex index. */
  predicate InRange(N: nat, v: nat)
  {
    v == 0 || v < N
  }

  /** A history window: three vertex indices, each the initial 0 or a vertex. */
  predicate HistoryOk(N: nat, verts: seq<nat>)
  {
    |verts| == 3 && InRange(N, verts[0]) && InRange(N, verts[1]) && InRange(N, verts[2])
  }

  /** Python's normalisation of `start` in the slice `s[start:]` of a sequence
      of length len: the index the slice starts at. */
  function SliceStart(len: nat, start: int): (s: nat)
    ensures s <= len
    ensures 0 <= start <= len ==> s == start
    ensures -(len as int) <= start < 0 ==> s == len + start
  {
    if start < 0 then (if start + len < 0 then 0 else start + len)
    else if start > len then len
    else start
  }

  /** The mask `ChaosGameHistExc.choose_vertex` accumulates: one rotation of the
      mask by the latest vertex, OR-ed once per entry of `verts[-hist_len:]`,
      which is that rotation whenever the slice is not empty. */
  function HistExcMask(N: nat, histLen: int, excluded: nat, verts: seq<nat>): (r: nat)
    requires HistoryOk(N, verts)
    ensures r < Pow2(N)
  {
    if SliceStart(3, -histLen) < 3 then Lcyc(N, excluded, verts[2]) else 0
  }

  /** `hist_len` has no effect on the mask beyond emptying the slice: every
      value above -3 gives the rotation by the latest vertex, the others none. */
  lemma HistLenNoEffect(N: nat, histLen: int, excluded: nat, verts: seq<nat>)
    requires HistoryOk(N, verts)
    ensures -3 < histLen ==> HistExcMask(N, histLen, excluded, verts) == Lcyc(N, excluded, verts[2])
    ensures histLen <= -3 ==> HistExcMask(N, histLen, excluded, verts) == 0
  {
  }

  /** `verts_avail[randint(0, len(verts_avail) - 1)]`. */
  function PickFrom(avail: seq<nat>, u: real): (r: Option<nat>)
    requires 0.0 <= u < 1.0
    ensures r.None? <==> avail == []
    ensures r.Some? ==> r.value in avail
  {
    match RandInt(|avail|, u)
    case None => None
    case Some(i) => Some(avail[i])
  }

  /** `choose_vertex` of each game class, for the history `verts` and the draw u. */
  function SelectVertex(variant: Variant, N: nat, verts: seq<nat>, u: real): (r: Option<nat>)
    requires HistoryOk(N, verts) && 0.0 <= u < 1.0
    ensures r.Some? ==> r.value < N
  {
    match variant
    case HistExc(h, m) => PickFrom(Avail(N, HistExcMask(N, h, m, verts)), u)
    case HistExc2(m) =>
      if verts[2] == verts[1] then PickFrom(Avail(N, Lcyc(N, m, verts[2])), u)
      else RandInt(N, u)
    case _ => RandInt(N, u)
  }

  /** The mask that is in force for the next choice: none for the plain
      classes, the rotated mask for `ChaosGameHistExc`, and for
      `ChaosGameHistExc2` the rotated mask only after a repeated vertex. */
  function ActiveMask(variant: Variant, N: nat, verts: seq<nat>): nat
    requires HistoryOk(N, verts)
  {
    match variant
    case HistExc(h, m) => HistExcMask(N, h, m, verts)
    case HistExc2(m) => if verts[2] == verts[1] then Lcyc(N, m, verts[2]) else 0
    case _ => 0
  }

  /** The choice is never a masked vertex, and it fails exactly when every
      vertex is masked. */
  lemma SelectVertexExcludes(variant: Variant, N: nat, verts: seq<nat>, u: real)
    requires HistoryOk(N, verts) && 0.0 <= u < 1.0
    ensures var r := SelectVertex(variant, N, verts, u);
      r.Some? ==> r.value < N && !Bit(ActiveMask(variant, N, verts), r.value)
    ensures SelectVertex(variant, N, verts, u).None? <==>
              forall i: nat :: i < N ==> Bit(ActiveMask(variant, N, verts), i)
  {
    var mask := ActiveMask(variant, N, verts);
    AvailSpec(N, mask);
    forall i: nat
      ensures !Bit(0, i)
    {
      BitZero(i);
    }
    if SelectVertex(variant, N, verts, u).None? {
      if variant.Basic? || variant.TargetTransform? || (variant.HistExc2? && verts[2] != verts[1]) {
        assert N == 0;
      } else {
        assert Avail(N, mask) == [];
      }
    } else {
      if variant.HistExc? || (variant.HistExc2? && verts[2] == verts[1]) {
        forall i: nat | i < N
          ensures !Bit(mask, i) ==> i in Avail(N, mask)
        {
        }
      }
    }
  }

  /** Every vertex outside the active mask is chosen by some draw, so the
      possible choices are exactly the unmasked vertices. */
  lemma SelectVertexReachable(variant: Variant, N: nat, verts: seq<nat>, w: nat)
    requires HistoryOk(N, verts)
    requires w < N && !Bit(ActiveMask(variant, N, verts), w)
    ensures exists u: real :: 0.0 <= u < 1.0 && SelectVertex(variant, N, verts, u) == Some(w)
  {
    var mask := ActiveMask(variant, N, verts);
    if variant.HistExc? || (variant.HistExc2? && verts[2] == verts[1]) {
      var avail := Avail(N, mask);
      AvailSpec(N, mask);
      assert w in avail;
      var idx :| 0 <= idx < |avail| && avail[idx] == w;
      RandIntOnto(|avail|, idx);
      var u := idx as real / |avail| as real;
      assert SelectVertex(variant, N, verts, u) == Some(w);
    } else {
      RandIntOnto(N, w);
      var u := w as real / N as real;
      assert SelectVertex(variant, N, verts, u) == Some(w);
    }
  }

  /** `prob[0] + ... + prob[k-1]`. */
  function PrefixSum(ts: seq<Transformation>, k: nat): real
    requires k <= |ts|
  {
    if k == 0 then 0.0 else PrefixSum(ts, k - 1) + ts[k - 1].prob
  }

  /** The first of the first k transformations whose prefix sum exceeds p. */
  function FirstCovering(ts: seq<Transformation>, p: real, k: nat): (r: Option<nat>)
    requires k <= |ts|
    ensures r.Some? ==> r.value < k && p < PrefixSum(ts, r.value + 1)
    ensures forall j :: 1 <= j <= k && (r.None? || j <= r.value) ==> PrefixSum(ts, j) <= p
  {
    if k == 0 then None
    else
      var r := FirstCovering(ts, p, k - 1);
      if r.Some? then r
      else if p < PrefixSum(ts, k) then Some(k - 1)
      else None
  }

  /** Once found, the first covering transformation stays the answer when
      more transformations are considered. */
  lemma {:induction false} FirstCoveringStable(ts: seq<Transformation>, p: real, k: nat, k': nat)
    requires k <= k' <= |ts|
    requires FirstCovering(ts, p, k).Some?
    ensures FirstCovering(ts, p, k') == FirstCovering(ts, p, k)
    decreases k'
  {
    if k < k' {
      FirstCoveringStable(ts, p, k, k' - 1);
    }
  }

  predicate NonNegative(ts: seq<Transformation>)
  {
    forall i :: 0 <= i < |ts| ==> 0.0 <= ts[i].prob
  }

  lemma {:induction false} PrefixSumMonotone(ts: seq<Transformation>, j: nat, k: nat)
    requires NonNegative(ts) && j <= k <= |ts|
    ensures PrefixSum(ts, j) <= PrefixSum(ts, k)
    decreases k
  {
    if j < k {
      PrefixSumMonotone(ts, j, k - 1);
    }
  }

  /** With non-negative weights and a draw p >= 0 the weighted walk finds
      nothing exactly when p is at or above the total weight. */
  lemma WeightedChoiceNone(ts: seq<Transformation>, p: real)
    requires NonNegative(ts) && 0.0 <= p
    ensures FirstCovering(ts, p, |ts|).None? <==> PrefixSum(ts, |ts|) <= p
  {
    if PrefixSum(ts, |ts|) <= p {
      var r := FirstCovering(ts, p, |ts|);
      if r.Some? {
        PrefixSumMonotone(ts, r.value + 1, |ts|);
      }
    }
  }

  /** Weights that are non-negative and sum to 1 always give a transformation
      for a draw in [0, 1). */
  lemma WeightedChoiceTotal(ts: seq<Transformation>, p: real)
    requires NonNegative(ts) && PrefixSum(ts, |ts|) == 1.0 && 0.0 <= p < 1.0
    ensures FirstCovering(ts, p, |ts|).Some?
  {
    WeightedChoiceNone(ts, p);
  }

  /** `choose_transform`: the weighted walk, or for `ChaosGameTargetTransform`
      the transformation of the chosen vertex v (None past the end of the list,
      where Python raises IndexError). */
  function SelectTransform(variant: Variant, ts: seq<Transformation>, p: real, v: nat): (r: Option<nat>)
    ensures r.Some? ==> r.value < |ts|
    ensures variant.TargetTransform? ==> (r.Some? <==> v < |ts|) && (r.Some? ==> r.value == v)
  {
    if variant.TargetTransform? then (if v < |ts| then Some(v) else None)
    else FirstCovering(ts, p, |ts|)
  }

  /** The vertex chosen `back` steps ago in a batch, 0 before the batch began. */
  function Recent(chosen: seq<nat>, back: nat): nat
  {
    if 0 < back <= |chosen| then chosen[|chosen| - back] else 0
  }

  /** The history after the given choices: the last three chosen vertices,
      padded with the initial zeros. */
  function Window(chosen: seq<nat>): (w: seq<nat>)
    ensures |w| == 3
    ensures |chosen| > 0 ==> w[2] == chosen[|chosen| - 1]
  {
    [Recent(chosen, 3), Recent(chosen, 2), Recent(chosen, 1)]
  }

  /** The history is the tail of `[0, 0, 0] + chosen`: Python's
      `verts = verts[1:] + [vert]` after each choice, from `[0, 0, 0]`. */
  lemma WindowIsTail(chosen: seq<nat>)
    ensures Window(chosen) == ([0, 0, 0] + chosen)[|chosen|..]
  {
  }

  /** After the choices `chosen` of a batch, the draw u makes the vertex
      selector answer r. */
  predicate ChoiceAfter(variant: Variant, N: nat, chosen: seq<nat>, u: real, r: Option<nat>)
  {
    HistoryOk(N, Window(chosen)) && 0.0 <= u < 1.0 && SelectVertex(variant, N, Window(chosen), u) == r
  }

  /** Choosing v slides the window: drop its first entry, append v. */
  lemma WindowSlide(chosen: seq<nat>, v: nat)
    ensures Window(chosen + [v]) == [Window(chosen)[1], Window(chosen)[2], v]
  {
  }

  /** The history restarts at `[0, 0, 0]` in every batch, so the first choice
      of a `ChaosGameHistExc2` batch always treats vertex 0 as repeated. */
  lemma FirstChoiceOfBatch(excluded: nat, N: nat, u: real)
    requires 0.0 <= u < 1.0
    ensures HistoryOk(N, Window([]))
    ensures SelectVertex(HistExc2(excluded), N, Window([]), u) == PickFrom(Avail(N, Lcyc(N, excluded, 0)), u)
  {
  }
}
