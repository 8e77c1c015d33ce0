/** MILAN's attention masking (pretrain/mmpretrain/models/selfsup/milan.py),
    reduced to its index bookkeeping.

    A batch holds N samples of L patch tokens, each token a feature vector of
    D values. For every sample the sampler draws an order of the L patch
    indices (sampling L of L without replacement, weighted by importance);
    the first len_keep indices of that order are kept, the rest dumped, the
    kept tokens are gathered, and the encoder puts the class token in front
    of them. Token values are opaque (type parameter T), and so are the
    importance weights (type parameter W): only positions are reasoned about. */
module Milan {
  import opened Wrappers

  /** N x L x D: samples, patch tokens, features. */
  type Batch<T> = seq<seq<seq<T>>>

  predicate Shaped<T>(x: Batch<T>, n: nat, l: nat, d: nat) {
    |x| == n && forall b :: 0 <= b < n ==> |x[b]| == l && forall i :: 0 <= i < l ==> |x[b][i]| == d
  }

  // ---------------------------------------------------------------------------
  // Permutations of 0..n-1
  // ---------------------------------------------------------------------------

  predicate InRange(p: seq<nat>, n: nat) {
    forall i :: 0 <= i < |p| ==> p[i] < n
  }

  predicate Distinct(p: seq<nat>) {
    forall i, j :: 0 <= i < |p| && 0 <= j < |p| && i != j ==> p[i] != p[j]
  }

  /** What drawing n of n indices without replacement yields: n distinct
      indices below n. */
  predicate IsPermutation(p: seq<nat>, n: nat) {
    |p| == n && InRange(p, n) && Distinct(p)
  }

  function Elems(p: seq<nat>): set<nat> {
    set i | 0 <= i < |p| :: p[i]
  }

  /** The index values 0..n-1. */
  function Below(n: nat): (r: set<nat>)
    ensures forall v: nat :: v in r <==> v < n
    ensures |r| == n
  {
    if n == 0 then {} else Below(n - 1) + {n - 1}
  }

  lemma {:induction false} DistinctElems(p: seq<nat>)
    requires Distinct(p)
    ensures |Elems(p)| == |p|
  {
    if p != [] {
      var t := p[1..];
      assert Distinct(t) by {
        forall i, j | 0 <= i < |t| && 0 <= j < |t| && i != j ensures t[i] != t[j] {
          assert t[i] == p[i + 1] && t[j] == p[j + 1];
        }
      }
      DistinctElems(t);
      assert Elems(p) == {p[0]} + Elems(t) by {
        forall v | v in Elems(p) ensures v in {p[0]} + Elems(t) {
          var i :| 0 <= i < |p| && p[i] == v;
          if i > 0 { assert t[i - 1] == v; }
        }
        forall v | v in Elems(t) ensures v in Elems(p) {
          var i :| 0 <= i < |t| && t[i] == v;
          assert p[i + 1] == v;
        }
      }
      assert p[0] !in Elems(t) by {
        forall i | 0 <= i < |t| ensures t[i] != p[0] {
          assert t[i] == p[i + 1] && i + 1 != 0;
        }
      }
    }
  }


  /** Pigeonhole: n distinct indices below n take every value below n, so
      sampling L of L without replacement yields a true permutation. */
  lemma PermutationCovers(p: seq<nat>, n: nat)
    requires IsPermutation(p, n)
    ensures forall v: nat :: v < n ==> v in p
  {
    var a, b := Elems(p), Below(n);
    DistinctElems(p);
    assert a <= b;
    assert a * b == a && a + b == b;
    assert a - b == {};
    assert |b - a| == 0;
    forall v: nat | v < n ensures v in p {
      assert v in b;
      assert v in a;
    }
  }

  /** The position of v in p (its first occurrence). */
  function IndexOf(p: seq<nat>, v: nat): (i: nat)
    requires v in p
    ensures i < |p| && p[i] == v
    ensures forall j :: 0 <= j < i ==> p[j] != v
  {
    if p[0] == v then 0 else 1 + IndexOf(p[1..], v)
  }

  /** `torch.argsort(ids_shuffle)`, i.e. ids_restore. For a permutation the
      ascending order of values is 0, 1, ..., n-1, so entry i is the position
      at which i stands in p. ArgsortIsTheSortingOrder shows that this is the
      argsort. */
  function Argsort(p: seq<nat>): (r: seq<nat>)
    requires IsPermutation(p, |p|)
    ensures |r| == |p|
    ensures forall i :: 0 <= i < |p| ==> r[i] < |p| && p[r[i]] == i
  {
    PermutationCovers(p, |p|);
    seq(|p|, i requires 0 <= i < |p| => IndexOf(p, i))
  }

  /** ids_restore undoes ids_shuffle in both directions, and is itself a
      permutation. */
  lemma RestoreInvertsShuffle(p: seq<nat>)
    requires IsPermutation(p, |p|)
    ensures IsPermutation(Argsort(p), |p|)
    ensures forall i :: 0 <= i < |p| ==> p[Argsort(p)[i]] == i
    ensures forall j :: 0 <= j < |p| ==> Argsort(p)[p[j]] == j
  {
    var r := Argsort(p);
    forall j | 0 <= j < |p| ensures r[p[j]] == j {
      assert p[r[p[j]]] == p[j];
    }
    forall i, k | 0 <= i < |p| && 0 <= k < |p| && i != k ensures r[i] != r[k] {
      assert p[r[i]] == i && p[r[k]] == k;
    }
  }

  lemma {:induction false} IncreasingAtLeastIndex(s: seq<nat>, i: nat)
    requires i < |s|
    requires forall a, b :: 0 <= a < b < |s| ==> s[a] < s[b]
    ensures i <= s[i]
  {
    if i > 0 {
      IncreasingAtLeastIndex(s, i - 1);
      assert s[i - 1] < s[i];
    }
  }

  lemma {:induction false} IncreasingAtMostIndex(s: seq<nat>, i: nat)
    requires i < |s|
    requires InRange(s, |s|)
    requires forall a, b :: 0 <= a < b < |s| ==> s[a] < s[b]
    ensures s[i] <= i
    decreases |s| - i
  {
    if i + 1 < |s| {
      IncreasingAtMostIndex(s, i + 1);
      assert s[i] < s[i + 1];
    }
  }

  /** ids_restore is exactly what `torch.argsort` returns: the one
      permutation of positions that lists the values of ids_shuffle in
      ascending order. */
  lemma ArgsortIsTheSortingOrder(p: seq<nat>, q: seq<nat>)
    requires IsPermutation(p, |p|)
    requires IsPermutation(q, |p|)
    ensures (forall i, j :: 0 <= i < j < |p| ==> p[q[i]] < p[q[j]]) <==> q == Argsort(p)
  {
    var r := Argsort(p);
    if forall i, j :: 0 <= i < j < |p| ==> p[q[i]] < p[q[j]] {
      var s := seq(|p|, i requires 0 <= i < |p| => p[q[i]]);
      forall i | 0 <= i < |p| ensures q[i] == r[i] {
        IncreasingAtLeastIndex(s, i);
        IncreasingAtMostIndex(s, i);
        assert p[q[i]] == i == p[r[i]];
      }
    }
  }

  // ---------------------------------------------------------------------------
  // Gathering along the token axis
  // ---------------------------------------------------------------------------

  /** `torch.gather` along dim 1 of one sample's 1-D row: entry i is s[index[i]]. */
  function Gather<T>(s: seq<T>, index: seq<nat>): seq<T>
    requires InRange(index, |s|)
  {
    seq(|index|, i requires 0 <= i < |index| => s[index[i]])
  }

  /** `torch.gather(x, dim=1, index)` on one sample's L x D slice: entry
      (j, d) is x[index[j][d]][d]. */
  function GatherTokens<T>(x: seq<seq<T>>, index: seq<seq<nat>>): seq<seq<T>>
    requires forall j, d :: 0 <= j < |index| && 0 <= d < |index[j]| ==> index[j][d] < |x| && d < |x[index[j][d]]|
  {
    seq(|index|, j requires 0 <= j < |index| =>
      seq(|index[j]|, d requires 0 <= d < |index[j]| => x[index[j][d]][d]))
  }

  /** `ids.unsqueeze(-1).repeat(1, 1, D)`: each id repeated across the D features. */
  function RepeatIds(ids: seq<nat>, d: nat): seq<seq<nat>> {
    seq(|ids|, j requires 0 <= j < |ids| => seq(d, _ => ids[j]))
  }

  /** Gathering with ids repeated across the features copies whole tokens:
      row j of the result is input token ids[j], feature dimension unchanged. */
  lemma GatherRepeatedIdsCopiesTokens<T>(x: seq<seq<T>>, d: nat, ids: seq<nat>)
    requires forall i :: 0 <= i < |x| ==> |x[i]| == d
    requires InRange(ids, |x|)
    ensures GatherTokens(x, RepeatIds(ids, d)) == Gather(x, ids)
    ensures forall j :: 0 <= j < |ids| ==> |Gather(x, ids)[j]| == d
  {
    var g := GatherTokens(x, RepeatIds(ids, d));
    forall j | 0 <= j < |ids| ensures g[j] == x[ids[j]] {
      assert |g[j]| == d == |x[ids[j]]|;
      forall e | 0 <= e < d ensures g[j][e] == x[ids[j]][e] {
      }
    }
  }

  /** Gathering a row by a permutation of its positions reorders it and
      loses nothing. */
  lemma {:induction false} GatherPermutes<T>(s: seq<T>, p: seq<nat>)
    requires IsPermutation(p, |s|)
    ensures multiset(Gather(s, p)) == multiset(s)
    decreases |s|
  {
    if |s| > 0 {
      var n := |s| - 1;
      PermutationCovers(p, |s|);
      var j := IndexOf(p, n);
      var q := p[..j] + p[j + 1..];
      DropLargestIndex(p, n, j);
      GatherAroundLargest(s, p, j);
      GatherPermutes(s[..n], q);
      MultisetSplice(Gather(s[..n], q), j, s[n]);
      assert s == s[..n] + [s[n]];
    }
  }

  lemma MultisetSplice<T>(h: seq<T>, j: nat, x: T)
    requires j <= |h|
    ensures multiset(h[..j] + [x] + h[j..]) == multiset(h) + multiset{x}
  {
    assert h == h[..j] + h[j..];
  }

  /** Taking the largest index n out of a permutation of 0..n leaves a
      permutation of 0..n-1. */
  lemma DropLargestIndex(p: seq<nat>, n: nat, j: nat)
    requires IsPermutation(p, n + 1) && j < |p| && p[j] == n
    ensures IsPermutation(p[..j] + p[j + 1..], n)
  {
    var q := p[..j] + p[j + 1..];
    forall i | 0 <= i < |q| ensures q[i] < n && q[i] == p[if i < j then i else i + 1] {
    }
    forall i, i' | 0 <= i < |q| && 0 <= i' < |q| && i != i' ensures q[i] != q[i'] {
      var k := if i < j then i else i + 1;
      var k' := if i' < j then i' else i' + 1;
      assert q[i] == p[k] && q[i'] == p[k'] && k != k';
    }
  }

  lemma GatherAroundLargest<T>(s: seq<T>, p: seq<nat>, j: nat)
    requires |s| > 0 && IsPermutation(p, |s|) && j < |p| && p[j] == |s| - 1
    requires IsPermutation(p[..j] + p[j + 1..], |s| - 1)
    ensures var h := Gather(s[..|s| - 1], p[..j] + p[j + 1..]);
      Gather(s, p) == h[..j] + [s[|s| - 1]] + h[j..]
  {
    var n := |s| - 1;
    var q := p[..j] + p[j + 1..];
    var h := Gather(s[..n], q);
    var g := Gather(s, p);
    forall i | 0 <= i < |g| ensures g[i] == (h[..j] + [s[n]] + h[j..])[i] {
      if i < j {
        assert q[i] == p[i];
      } else if i > j {
        assert q[i - 1] == p[i];
      }
    }
  }

  // ---------------------------------------------------------------------------
  // len_keep
  // ---------------------------------------------------------------------------

  /** mask_ratio as an exact fraction num / den. */
  datatype Ratio = Ratio(num: nat, den: nat)

  predicate ValidRatio(r: Ratio) {
    0 < r.den && r.num <= r.den
  }

  /** `int(L * (1 - mask_ratio))`: the number of patches kept, the floor of
      L * (1 - mask_ratio). */
  function LenKeep(l: nat, ratio: Ratio): (k: nat)
    requires ValidRatio(ratio)
    ensures k <= l
    ensures k * ratio.den <= l * (ratio.den - ratio.num) < (k + 1) * ratio.den
  {
    var kept := ratio.den - ratio.num;
    var k := l * kept / ratio.den;
    LenKeepBounds(l, kept, ratio.den, k);
    k
  }

  lemma LenKeepBounds(l: nat, kept: nat, den: nat, k: int)
    requires 0 < den && kept <= den && k == l * kept / den
    ensures 0 <= k <= l
    ensures k * den <= l * kept < (k + 1) * den
  {
    FloorBounds(l * kept, den);
    ScaleBelow(l, kept, den);
    CancelFactor(k, l, den);
  }

  lemma FloorBounds(a: nat, den: nat)
    requires 0 < den
    ensures (a / den) * den <= a < (a / den + 1) * den
  {
    assert a == (a / den) * den + a % den;
    assert (a / den + 1) * den == (a / den) * den + den;
  }

  lemma ScaleBelow(l: nat, kept: nat, den: nat)
    requires kept <= den
    ensures l * kept <= l * den
  {
    assert l * den - l * kept == l * (den - kept);
  }

  lemma CancelFactor(q: nat, l: nat, den: nat)
    requires 0 < den && q * den <= l * den
    ensures q <= l
  {
    assert (q - l) * den == q * den - l * den;
  }

  // ---------------------------------------------------------------------------
  // One sample: keep / dump split and gather (lines 85-98, 106)
  // ---------------------------------------------------------------------------

  datatype SampleMasking<T> = SampleMasking(
    xMasked: seq<seq<T>>,
    idsRestore: seq<nat>,
    idsKeep: seq<nat>,
    idsDump: seq<nat>)

  /** attention_masking for one sample, given the order the sampler drew. */
  function MaskSample<T>(x: seq<seq<T>>, d: nat, lenKeep: nat, shuffle: seq<nat>): SampleMasking<T>
    requires forall i :: 0 <= i < |x| ==> |x[i]| == d
    requires IsPermutation(shuffle, |x|) && lenKeep <= |x|
  {
    var idsKeep := shuffle[..lenKeep];
    SampleMasking(GatherTokens(x, RepeatIds(idsKeep, d)), Argsort(shuffle), idsKeep, shuffle[lenKeep..])
  }

  /** ids_keep and ids_dump split ids_shuffle at len_keep: they concatenate
      back to it, have len_keep and L - len_keep entries, and every patch
      index lies in exactly one of them. */
  lemma KeepDumpPartition(shuffle: seq<nat>, lenKeep: nat)
    requires IsPermutation(shuffle, |shuffle|) && lenKeep <= |shuffle|
    ensures shuffle[..lenKeep] + shuffle[lenKeep..] == shuffle
    ensures |shuffle[..lenKeep]| == lenKeep && |shuffle[lenKeep..]| == |shuffle| - lenKeep
    ensures forall v: nat :: v < |shuffle| ==> (v in shuffle[..lenKeep] <==> v !in shuffle[lenKeep..])
    ensures forall v: nat :: v in shuffle[..lenKeep] || v in shuffle[lenKeep..] ==> v < |shuffle|
  {
    PermutationCovers(shuffle, |shuffle|);
    var keep, dump := shuffle[..lenKeep], shuffle[lenKeep..];
    forall v: nat | v in keep ensures v !in dump {
      var i :| 0 <= i < |keep| && keep[i] == v;
      forall k | 0 <= k < |dump| ensures dump[k] != v {
        assert dump[k] == shuffle[lenKeep + k] && keep[i] == shuffle[i];
      }
    }
    assert forall k :: lenKeep <= k < |shuffle| ==> shuffle[k] == dump[k - lenKeep];
    forall v: nat | v < |shuffle| && v !in dump ensures v in keep {
      var i := IndexOf(shuffle, v);
      assert i < lenKeep;
      assert keep[i] == v;
    }
    assert shuffle == keep + dump;
  }

  /** x_masked holds len_keep tokens; token j is input token ids_keep[j],
      with its D features. */
  lemma MaskedTokens<T>(x: seq<seq<T>>, d: nat, lenKeep: nat, shuffle: seq<nat>)
    requires forall i :: 0 <= i < |x| ==> |x[i]| == d
    requires IsPermutation(shuffle, |x|) && lenKeep <= |x|
    ensures var m := MaskSample(x, d, lenKeep, shuffle);
      && |m.xMasked| == lenKeep
      && (forall j :: 0 <= j < lenKeep ==> m.xMasked[j] == x[m.idsKeep[j]] && |m.xMasked[j]| == d)
  {
    GatherRepeatedIdsCopiesTokens(x, d, shuffle[..lenKeep]);
  }

  /** The kept tokens followed by the dumped ones are the input tokens
      reordered: masking loses or duplicates no token. */
  lemma KeptAndDumpedTokensPermuteInput<T>(x: seq<seq<T>>, d: nat, lenKeep: nat, shuffle: seq<nat>)
    requires forall i :: 0 <= i < |x| ==> |x[i]| == d
    requires IsPermutation(shuffle, |x|) && lenKeep <= |x|
    ensures var m := MaskSample(x, d, lenKeep, shuffle);
      multiset(m.xMasked + Gather(x, m.idsDump)) == multiset(x)
  {
    var m := MaskSample(x, d, lenKeep, shuffle);
    GatherRepeatedIdsCopiesTokens(x, d, shuffle[..lenKeep]);
    assert m.xMasked + Gather(x, m.idsDump) == Gather(x, shuffle);
    GatherPermutes(x, shuffle);
  }

  // ---------------------------------------------------------------------------
  // The binary mask (lines 100-104)
  // ---------------------------------------------------------------------------

  /** The mask attention_masking builds (0 keeps a patch, 1 removes it): a
      tensor of ones, its first len_keep columns zeroed in place, then
      unshuffled with ids_restore. The source computes it and then drops it:
      it is not among attention_masking's results. */
  method BinaryMask(n: nat, l: nat, lenKeep: nat, idsRestore: seq<seq<nat>>) returns (mask: seq<seq<int>>)
    requires lenKeep <= l
    requires |idsRestore| == n
    requires forall b :: 0 <= b < n ==> |idsRestore[b]| == l && InRange(idsRestore[b], l)
    ensures |mask| == n
    ensures forall b :: 0 <= b < n ==>
      |mask[b]| == l && forall i :: 0 <= i < l ==> mask[b][i] == if idsRestore[b][i] < lenKeep then 0 else 1
  {
    var m := new int[n, l]((_, _) => 1);
    var b := 0;
    while b < n
      invariant 0 <= b <= n
      invariant forall b', j :: 0 <= b' < n && 0 <= j < l ==> m[b', j] == if b' < b && j < lenKeep then 0 else 1
    {
      var j := 0;
      while j < lenKeep
        invariant 0 <= j <= lenKeep
        invariant forall b', j' :: 0 <= b' < n && 0 <= j' < l ==>
          m[b', j'] == if (b' < b && j' < lenKeep) || (b' == b && j' < j) then 0 else 1
      {
        m[b, j] := 0;
        j := j + 1;
      }
      b := b + 1;
    }
    mask := seq(n, b requires 0 <= b < n reads m =>
      seq(l, i requires 0 <= i < l reads m => m[b, idsRestore[b][i]]));
  }

  /** The mask before unshuffling: len_keep zeros, then ones. */
  function ShuffledMask(l: nat, lenKeep: nat): seq<int> {
    seq(l, j requires 0 <= j < l => if j < lenKeep then 0 else 1)
  }

  lemma {:induction false} ShuffledMaskCounts(l: nat, lenKeep: nat)
    requires lenKeep <= l
    ensures multiset(ShuffledMask(l, lenKeep))[0] == lenKeep
    ensures multiset(ShuffledMask(l, lenKeep))[1] == l - lenKeep
  {
    if l > 0 {
      var k := if lenKeep == l then l - 1 else lenKeep;
      ShuffledMaskCounts(l - 1, k);
      assert ShuffledMask(l, lenKeep) == ShuffledMask(l - 1, k) + [if lenKeep == l then 0 else 1];
    }
  }

  /** After unshuffling, a mask row is 0 exactly at the kept patch indices
      and 1 exactly at the dumped ones, so it has len_keep zeros and
      L - len_keep ones. */
  lemma MaskMarksKeptPatches(shuffle: seq<nat>, lenKeep: nat, row: seq<int>)
    requires IsPermutation(shuffle, |shuffle|) && lenKeep <= |shuffle|
    requires |row| == |shuffle|
    requires forall i :: 0 <= i < |row| ==> row[i] == if Argsort(shuffle)[i] < lenKeep then 0 else 1
    ensures forall i: nat :: i < |row| ==> (row[i] == 0 <==> i in shuffle[..lenKeep])
    ensures forall i: nat :: i < |row| ==> (row[i] == 1 <==> i in shuffle[lenKeep..])
    ensures multiset(row)[0] == lenKeep && multiset(row)[1] == |row| - lenKeep
  {
    var r := Argsort(shuffle);
    RestoreInvertsShuffle(shuffle);
    KeepDumpPartition(shuffle, lenKeep);
    forall i: nat | i < |row| ensures row[i] == 0 <==> i in shuffle[..lenKeep] {
      if r[i] < lenKeep {
        assert shuffle[..lenKeep][r[i]] == i;
      }
      if i in shuffle[..lenKeep] {
        var j :| 0 <= j < lenKeep && shuffle[..lenKeep][j] == i;
        assert r[shuffle[j]] == j;
      }
    }
    assert row == Gather(ShuffledMask(|row|, lenKeep), r);
    GatherPermutes(ShuffledMask(|row|, lenKeep), r);
    ShuffledMaskCounts(|row|, lenKeep);
  }

  // ---------------------------------------------------------------------------
  // The batch (lines 85-106)
  // ---------------------------------------------------------------------------

  datatype Masked<T> = Masked(
    xMasked: Batch<T>,
    idsRestore: seq<seq<nat>>,
    idsKeep: seq<seq<nat>>,
    idsDump: seq<seq<nat>>)

  /** The only property of `torch.multinomial(noise, L, replacement=False)`
      the masking relies on: for each sample, the drawn order is a
      permutation of that sample's L patch indices. */
  predicate Drawn<W>(importance: seq<seq<W>>, draws: seq<seq<nat>>) {
    |draws| == |importance| && forall b :: 0 <= b < |draws| ==> IsPermutation(draws[b], |importance[b]|)
  }

  predicate ImportanceFits<W, T>(importance: seq<seq<W>>, x: Batch<T>, l: nat) {
    |importance| == |x| && forall b :: 0 <= b < |importance| ==> |importance[b]| == l
  }

  /** MILANViT.attention_masking on a batch. `draws` is what the sampler
      drew from `importance`. Each sample is handled by MaskSample. */
  function AttentionMasking<T, W>(x: Batch<T>, l: nat, d: nat, ratio: Ratio,
                                  importance: seq<seq<W>>, draws: seq<seq<nat>>): Masked<T>
    requires Shaped(x, |x|, l, d) && ValidRatio(ratio)
    requires ImportanceFits(importance, x, l) && Drawn(importance, draws)
  {
    var lenKeep := LenKeep(l, ratio);
    var s := seq(|x|, b requires 0 <= b < |x| => MaskSample(x[b], d, lenKeep, draws[b]));
    Masked(seq(|x|, b requires 0 <= b < |x| => s[b].xMasked),
           seq(|x|, b requires 0 <= b < |x| => s[b].idsRestore),
           seq(|x|, b requires 0 <= b < |x| => s[b].idsKeep),
           seq(|x|, b requires 0 <= b < |x| => s[b].idsDump))
  }

  /** What attention_masking returns, sample by sample: x_masked is
      N x len_keep x D with token j the input token ids_keep[j]; ids_restore
      inverts ids_shuffle; ids_keep and ids_dump split ids_shuffle at
      len_keep. */
  lemma AttentionMaskingResult<T, W>(x: Batch<T>, l: nat, d: nat, ratio: Ratio,
                                     importance: seq<seq<W>>, draws: seq<seq<nat>>)
    requires Shaped(x, |x|, l, d) && ValidRatio(ratio)
    requires ImportanceFits(importance, x, l) && Drawn(importance, draws)
    ensures var m := AttentionMasking(x, l, d, ratio, importance, draws);
      var k := LenKeep(l, ratio);
      && Shaped(m.xMasked, |x|, k, d)
      && |m.idsRestore| == |m.idsKeep| == |m.idsDump| == |x|
      && forall b :: 0 <= b < |x| ==>
        && (forall j :: 0 <= j < k ==> m.xMasked[b][j] == x[b][m.idsKeep[b][j]])
        && m.idsKeep[b] + m.idsDump[b] == draws[b]
        && |m.idsKeep[b]| == k
        && IsPermutation(m.idsRestore[b], l)
        && (forall i :: 0 <= i < l ==> draws[b][m.idsRestore[b][i]] == i)
        && (forall j :: 0 <= j < l ==> m.idsRestore[b][draws[b][j]] == j)
  {
    var m := AttentionMasking(x, l, d, ratio, importance, draws);
    var k := LenKeep(l, ratio);
    forall b | 0 <= b < |x|
      ensures |m.xMasked[b]| == k
      ensures forall j :: 0 <= j < k ==> m.xMasked[b][j] == x[b][m.idsKeep[b][j]] && |m.xMasked[b][j]| == d
      ensures m.idsKeep[b] + m.idsDump[b] == draws[b] && |m.idsKeep[b]| == k
      ensures IsPermutation(m.idsRestore[b], l)
      ensures forall i :: 0 <= i < l ==> draws[b][m.idsRestore[b][i]] == i
      ensures forall j :: 0 <= j < l ==> m.idsRestore[b][draws[b][j]] == j
    {
      MaskedTokens(x[b], d, k, draws[b]);
      KeepDumpPartition(draws[b], k);
      RestoreInvertsShuffle(draws[b]);
    }
  }

  /** Every operation works along the token axis only: a sample's outputs
      depend on nothing but that sample's tokens and drawn order. */
  lemma MaskingIsPerSample<T, W>(x: Batch<T>, x': Batch<T>, l: nat, d: nat, ratio: Ratio,
                                 importance: seq<seq<W>>, importance': seq<seq<W>>,
                                 draws: seq<seq<nat>>, draws': seq<seq<nat>>, b: nat)
    requires Shaped(x, |x|, l, d) && Shaped(x', |x'|, l, d) && ValidRatio(ratio)
    requires ImportanceFits(importance, x, l) && Drawn(importance, draws)
    requires ImportanceFits(importance', x', l) && Drawn(importance', draws')
    requires b < |x| && b < |x'| && x[b] == x'[b] && draws[b] == draws'[b]
    ensures var m, m' := AttentionMasking(x, l, d, ratio, importance, draws),
                         AttentionMasking(x', l, d, ratio, importance', draws');
      && m.xMasked[b] == m'.xMasked[b]
      && m.idsRestore[b] == m'.idsRestore[b]
      && m.idsKeep[b] == m'.idsKeep[b]
      && m.idsDump[b] == m'.idsDump[b]
  {
  }

  // ---------------------------------------------------------------------------
  // MILANViT.forward (lines 142-158) and the importance slice of MILAN.loss
  // ---------------------------------------------------------------------------

  datatype EncoderOutput<T> =
    | Delegated
      // importance is None: the plain vision-transformer forward runs
    | Encoded(tokens: Batch<T>, idsRestore: seq<seq<nat>>, idsKeep: seq<seq<nat>>, idsDump: seq<seq<nat>>)
      // the encoder's input sequence on the masked path, with the ids

  /** MILANViT.forward up to the transformer layers. `x` is the batch of
      patch embeddings with positional embedding already added, `cls` the
      class token plus its positional embedding (D values). */
  function Forward<T, W>(x: Batch<T>, l: nat, d: nat, ratio: Ratio, cls: seq<T>,
                         importance: Option<seq<seq<W>>>, draws: seq<seq<nat>>): (r: EncoderOutput<T>)
    requires Shaped(x, |x|, l, d) && ValidRatio(ratio) && |cls| == d
    requires importance.Some? ==> ImportanceFits(importance.value, x, l) && Drawn(importance.value, draws)
    ensures r.Delegated? <==> importance.None?
  {
    match importance
    case None => Delegated
    case Some(w) =>
      var m := AttentionMasking(x, l, d, ratio, w, draws);
      Encoded(seq(|x|, b requires 0 <= b < |x| => [cls] + m.xMasked[b]), m.idsRestore, m.idsKeep, m.idsDump)
  }

  /** On the masked path every sample's encoder sequence is the class token
      followed by the kept tokens in ids_keep order: len_keep + 1 tokens of
      D features (not L * mask_ratio, as the docstring says). ids_keep is
      the first len_keep patches of the drawn order, ids_dump the rest, and
      ids_restore its argsort. */
  lemma MaskedForwardSequence<T, W>(x: Batch<T>, l: nat, d: nat, ratio: Ratio, cls: seq<T>,
                                    importance: seq<seq<W>>, draws: seq<seq<nat>>)
    requires Shaped(x, |x|, l, d) && ValidRatio(ratio) && |cls| == d
    requires ImportanceFits(importance, x, l) && Drawn(importance, draws)
    ensures var r := Forward(x, l, d, ratio, cls, Some(importance), draws);
      var k := LenKeep(l, ratio);
      && r.Encoded?
      && Shaped(r.tokens, |x|, k + 1, d)
      && forall b :: 0 <= b < |x| ==>
        && r.tokens[b][0] == cls
        && r.idsKeep[b] == draws[b][..k]
        && r.idsDump[b] == draws[b][k..]
        && r.idsRestore[b] == Argsort(draws[b])
        && forall j :: 0 <= j < k ==> r.tokens[b][j + 1] == x[b][r.idsKeep[b][j]]
  {
    AttentionMaskingResult(x, l, d, ratio, importance, draws);
  }

  /** `importance[:, 0, 1:]`: the class token's attention row with its own
      column dropped. */
  function ClsImportance<W>(attn: seq<seq<seq<W>>>): seq<seq<W>>
    requires forall b :: 0 <= b < |attn| ==> |attn[b]| > 0
  {
    seq(|attn|, b requires 0 <= b < |attn| => if |attn[b][0]| == 0 then [] else attn[b][0][1..])
  }

  /** From an N x (L+1) x (L+1) attention map the loss passes on N rows of L
      weights: weight i of sample b is the class token's attention to patch i. */
  lemma ClsImportanceShape<W>(attn: seq<seq<seq<W>>>, l: nat)
    requires Shaped(attn, |attn|, l + 1, l + 1)
    ensures var w := ClsImportance(attn);
      && |w| == |attn|
      && forall b :: 0 <= b < |attn| ==> |w[b]| == l && forall i :: 0 <= i < l ==> w[b][i] == attn[b][0][i + 1]
  {
  }

  /** The backbone call in MILAN.loss: with the sliced class-token attention
      as importance, the masked branch is always taken and each sample's
      sequence has len_keep + 1 tokens. */
  lemma LossTakesMaskedPath<T, W>(x: Batch<T>, l: nat, d: nat, ratio: Ratio, cls: seq<T>,
                                  attn: seq<seq<seq<W>>>, draws: seq<seq<nat>>)
    requires Shaped(x, |x|, l, d) && ValidRatio(ratio) && |cls| == d
    requires Shaped(attn, |x|, l + 1, l + 1)
    requires Drawn(ClsImportance(attn), draws)
    ensures ImportanceFits(ClsImportance(attn), x, l)
    ensures var r := Forward(x, l, d, ratio, cls, Some(ClsImportance(attn)), draws);
      r.Encoded? && Shaped(r.tokens, |x|, LenKeep(l, ratio) + 1, d)
  {
    ClsImportanceShape(attn, l);
    MaskedForwardSequence(x, l, d, ratio, cls, ClsImportance(attn), draws);
  }
}
