/** Merkle trees of RFC 6962: the tree hash of section 2.1, the consistency proof of section
    2.1.2 and its verification, for an arbitrary hash. Soundness names its own exception: the one
    pair of node inputs, computed from the proof and the leaves, that would have to collide. */
module Merkle {
  import opened Common

  type Digest = Bytes
  type Leaf = Bytes

  datatype Hasher = Hasher(empty: Digest, leaf: Leaf -> Digest, node: (Digest, Digest) -> Digest)

  /** The largest power of two smaller than n. */
  function Split(n: nat): (k: nat)
    requires n >= 2
    ensures 1 <= k < n <= 2 * k
  {
    if n == 2 then 1 else 2 * Split((n + 1) / 2)
  }

  predicate PowerOfTwo(k: nat) {
    k == 1 || (k > 1 && k % 2 == 0 && PowerOfTwo(k / 2))
  }

  lemma {:induction false} SplitIsPower(n: nat)
    requires n >= 2
    ensures PowerOfTwo(Split(n))
  {
    if n > 2 {
      SplitIsPower((n + 1) / 2);
    }
  }

  lemma {:induction false} PowersAreSpread(j: nat, k: nat)
    requires PowerOfTwo(j) && PowerOfTwo(k) && j < k
    ensures 2 * j <= k
  {
    if j > 1 {
      PowersAreSpread(j / 2, k / 2);
    }
  }

  /** Only one power of two lies below n and at or above n / 2. */
  lemma SplitIsUnique(n: nat, k: nat)
    requires n >= 2 && PowerOfTwo(k) && k < n <= 2 * k
    ensures Split(n) == k
  {
    SplitIsPower(n);
    if Split(n) < k {
      PowersAreSpread(Split(n), k);
    } else if k < Split(n) {
      PowersAreSpread(k, Split(n));
    }
  }

  /** A prefix that reaches past the split of the whole list splits at the same place. */
  lemma SplitOfPrefix(m: nat, n: nat)
    requires m >= 2 && Split(m) < n <= m
    ensures n >= 2 && Split(n) == Split(m)
  {
    SplitIsPower(m);
    SplitIsUnique(n, Split(m));
  }

  /** MTH of section 2.1 of RFC 6962. */
  function TreeHash(h: Hasher, d: seq<Leaf>): Digest {
    if |d| == 0 then h.empty
    else if |d| == 1 then h.leaf(d[0])
    else
      var k := Split(|d|);
      h.node(TreeHash(h, d[..k]), TreeHash(h, d[k..]))
  }

  /** The old and new roots that a proof folds to; the flag `whole` is the b of SUBPROOF in
      section 2.1.2: the subtree under consideration still is a prefix of the whole old tree. */
  function FoldProof(h: Hasher, proof: seq<Digest>, size: nat, n: nat, oldHash: Digest, whole: bool)
    : Option<(Digest, Digest)>
    requires 1 <= n <= size
    decreases size
  {
    if n == size then
      if whole then if proof == [] then Some((oldHash, oldHash)) else None
      else if |proof| == 1 then Some((proof[0], proof[0])) else None
    else if proof == [] then None
    else
      var k := Split(size);
      var last := proof[|proof| - 1];
      if n <= k then
        match FoldProof(h, proof[..|proof| - 1], k, n, oldHash, whole)
        case None => None
        case Some((oldRoot, newRoot)) => Some((oldRoot, h.node(newRoot, last)))
      else
        match FoldProof(h, proof[..|proof| - 1], size - k, n - k, oldHash, false)
        case None => None
        case Some((oldRoot, newRoot)) => Some((h.node(last, oldRoot), h.node(last, newRoot)))
  }

  /** tlog.CheckTree: does `proof` show that the tree (n, oldHash) is a prefix of (size, root)? */
  predicate CheckTree(h: Hasher, proof: seq<Digest>, size: nat, root: Digest, n: nat, oldHash: Digest) {
    && 1 <= n <= size
    && FoldProof(h, proof, size, n, oldHash, true) == Some((oldHash, root))
  }

  /** The root of a prefix that reaches past the split. */
  lemma PrefixHash(h: Hasher, d: seq<Leaf>, n: nat)
    requires |d| >= 2 && Split(|d|) < n <= |d|
    ensures TreeHash(h, d[..n]) == h.node(TreeHash(h, d[..Split(|d|)]), TreeHash(h, d[Split(|d|)..][..n - Split(|d|)]))
  {
    var k := Split(|d|);
    SplitOfPrefix(|d|, n);
    assert d[..n][..k] == d[..k] && d[..n][k..] == d[k..][..n - k];
  }

  /** Where a proof and a tree part: the children of one node, as folded and as they are. */
  datatype Parting = Parting(folded: (Digest, Digest), actual: (Digest, Digest))

  /** Walking down the proof from the root of d, the first node whose folded children are not its
      children in the tree. */
  function PartingOf(h: Hasher, proof: seq<Digest>, d: seq<Leaf>, n: nat, oldHash: Digest, whole: bool): Option<Parting>
    requires 1 <= n <= |d| && FoldProof(h, proof, |d|, n, oldHash, whole).Some?
    decreases |d|
  {
    if n == |d| then None
    else
      var k := Split(|d|);
      var last, rest := proof[|proof| - 1], proof[..|proof| - 1];
      var actual := (TreeHash(h, d[..k]), TreeHash(h, d[k..]));
      if n <= k then
        var folded := (FoldProof(h, rest, k, n, oldHash, whole).value.1, last);
        if folded == actual then PartingOf(h, rest, d[..k], n, oldHash, whole) else Some(Parting(folded, actual))
      else
        var folded := (last, FoldProof(h, rest, |d| - k, n - k, oldHash, false).value.1);
        if folded == actual then PartingOf(h, rest, d[k..], n - k, oldHash, false) else Some(Parting(folded, actual))
  }

  /** Two different inputs of the node hash with one output. */
  predicate Collides(h: Hasher, p: Parting) {
    p.folded != p.actual && h.node(p.folded.0, p.folded.1) == h.node(p.actual.0, p.actual.1)
  }

  /** The proof folds, and where it parts from the tree over d the node hash collides. */
  predicate Clashes(h: Hasher, proof: seq<Digest>, d: seq<Leaf>, n: nat, oldHash: Digest) {
    && 1 <= n <= |d| && FoldProof(h, proof, |d|, n, oldHash, true).Some?
    && PartingOf(h, proof, d, n, oldHash, true).Some?
    && Collides(h, PartingOf(h, proof, d, n, oldHash, true).value)
  }

  /** What folding to the root of d shows, below each node: the old root is right, or they part. */
  ghost predicate Sound(h: Hasher, proof: seq<Digest>, d: seq<Leaf>, n: nat, oldHash: Digest, whole: bool)
    requires 1 <= n <= |d| && FoldProof(h, proof, |d|, n, oldHash, whole).Some?
  {
    var parting := PartingOf(h, proof, d, n, oldHash, whole);
    if parting.Some? then Collides(h, parting.value)
    else FoldProof(h, proof, |d|, n, oldHash, whole).value.0 == TreeHash(h, d[..n])
  }

  lemma SoundWhole(h: Hasher, proof: seq<Digest>, d: seq<Leaf>, oldHash: Digest, whole: bool)
    requires 1 <= |d| && FoldProof(h, proof, |d|, |d|, oldHash, whole).Some?
    requires FoldProof(h, proof, |d|, |d|, oldHash, whole).value.1 == TreeHash(h, d)
    ensures Sound(h, proof, d, |d|, oldHash, whole)
  {
    hide TreeHash;
    assert d[..|d|] == d;
  }

  lemma FoldUnfolds(h: Hasher, proof: seq<Digest>, size: nat, n: nat, oldHash: Digest, whole: bool)
    requires 1 <= n < size && FoldProof(h, proof, size, n, oldHash, whole).Some?
    ensures proof != []
    ensures var k, last, rest := Split(size), proof[|proof| - 1], proof[..|proof| - 1];
            var (oldRoot, newRoot) := FoldProof(h, proof, size, n, oldHash, whole).value;
            if n <= k then
              var part := FoldProof(h, rest, k, n, oldHash, whole);
              part.Some? && oldRoot == part.value.0 && newRoot == h.node(part.value.1, last)
            else
              var part := FoldProof(h, rest, size - k, n - k, oldHash, false);
              part.Some? && oldRoot == h.node(last, part.value.0) && newRoot == h.node(last, part.value.1)
  {
  }

  lemma SoundLeft(h: Hasher, proof: seq<Digest>, d: seq<Leaf>, n: nat, oldHash: Digest, whole: bool)
    requires |d| >= 2 && 1 <= n <= Split(|d|) && FoldProof(h, proof, |d|, n, oldHash, whole).Some?
    requires FoldProof(h, proof, |d|, n, oldHash, whole).value.1 == TreeHash(h, d)
    requires var k, rest := Split(|d|), proof[..|proof| - 1];
             && FoldProof(h, rest, k, n, oldHash, whole).Some?
             && (FoldProof(h, rest, k, n, oldHash, whole).value.1 == TreeHash(h, d[..k]) ==>
                   Sound(h, rest, d[..k], n, oldHash, whole))
    ensures Sound(h, proof, d, n, oldHash, whole)
  {
    var k := Split(|d|);
    assert d[..k][..n] == d[..n];
  }

  lemma SoundRight(h: Hasher, proof: seq<Digest>, d: seq<Leaf>, n: nat, oldHash: Digest, whole: bool)
    requires |d| >= 2 && Split(|d|) < n < |d| && FoldProof(h, proof, |d|, n, oldHash, whole).Some?
    requires FoldProof(h, proof, |d|, n, oldHash, whole).value.1 == TreeHash(h, d)
    requires var k, rest := Split(|d|), proof[..|proof| - 1];
             && FoldProof(h, rest, |d| - k, n - k, oldHash, false).Some?
             && (FoldProof(h, rest, |d| - k, n - k, oldHash, false).value.1 == TreeHash(h, d[k..]) ==>
                   Sound(h, rest, d[k..], n - k, oldHash, false))
    ensures Sound(h, proof, d, n, oldHash, whole)
  {
    hide FoldProof, Split;
    FoldUnfolds(h, proof, |d|, n, oldHash, whole);
    PrefixHash(h, d, n);
  }

  lemma {:induction false} FoldSound(h: Hasher, proof: seq<Digest>, d: seq<Leaf>, n: nat, oldHash: Digest, whole: bool)
    requires 1 <= n <= |d|
    requires FoldProof(h, proof, |d|, n, oldHash, whole).Some?
    requires FoldProof(h, proof, |d|, n, oldHash, whole).value.1 == TreeHash(h, d)
    ensures Sound(h, proof, d, n, oldHash, whole)
    decreases |d|
  {
    hide TreeHash, Sound, FoldProof, PartingOf;
    if n == |d| {
      SoundWhole(h, proof, d, oldHash, whole);
      return;
    }
    FoldUnfolds(h, proof, |d|, n, oldHash, whole);
    var k, rest := Split(|d|), proof[..|proof| - 1];
    if n <= k {
      if FoldProof(h, rest, k, n, oldHash, whole).value.1 == TreeHash(h, d[..k]) {
        FoldSound(h, rest, d[..k], n, oldHash, whole);
      }
      SoundLeft(h, proof, d, n, oldHash, whole);
    } else {
      if FoldProof(h, rest, |d| - k, n - k, oldHash, false).value.1 == TreeHash(h, d[k..]) {
        FoldSound(h, rest, d[k..], n - k, oldHash, false);
      }
      SoundRight(h, proof, d, n, oldHash, whole);
    }
  }

  /** Soundness: a checked step back from the root of d lands on the root of a prefix of d, unless
      the node hash collides exactly where the proof parts from the tree. */
  lemma CheckTreeSound(h: Hasher, proof: seq<Digest>, d: seq<Leaf>, n: nat, oldHash: Digest)
    requires CheckTree(h, proof, |d|, TreeHash(h, d), n, oldHash)
    ensures oldHash == TreeHash(h, d[..n]) || Clashes(h, proof, d, n, oldHash)
  {
    FoldSound(h, proof, d, n, oldHash, true);
  }

  /** SUBPROOF of section 2.1.2: the proof an honest log hands out. */
  function Prove(h: Hasher, d: seq<Leaf>, n: nat, whole: bool): (proof: seq<Digest>)
    requires 1 <= n <= |d|
    decreases |d|
  {
    if n == |d| then if whole then [] else [TreeHash(h, d)]
    else
      var k := Split(|d|);
      if n <= k then Prove(h, d[..k], n, whole) + [TreeHash(h, d[k..])]
      else Prove(h, d[k..], n - k, false) + [TreeHash(h, d[..k])]
  }

  lemma FoldLeft(h: Hasher, rest: seq<Digest>, last: Digest, size: nat, n: nat, oldHash: Digest, whole: bool)
    requires size >= 2 && 1 <= n <= Split(size)
    requires FoldProof(h, rest, Split(size), n, oldHash, whole).Some?
    ensures var (o, r) := FoldProof(h, rest, Split(size), n, oldHash, whole).value;
            FoldProof(h, rest + [last], size, n, oldHash, whole) == Some((o, h.node(r, last)))
  {
    assert (rest + [last])[..|rest|] == rest;
  }

  lemma FoldRight(h: Hasher, rest: seq<Digest>, last: Digest, size: nat, n: nat, oldHash: Digest, whole: bool)
    requires size >= 2 && Split(size) < n < size
    requires FoldProof(h, rest, size - Split(size), n - Split(size), oldHash, false).Some?
    ensures var (o, r) := FoldProof(h, rest, size - Split(size), n - Split(size), oldHash, false).value;
            FoldProof(h, rest + [last], size, n, oldHash, whole) == Some((h.node(last, o), h.node(last, r)))
  {
    assert (rest + [last])[..|rest|] == rest;
  }

  lemma {:induction false} ProveFolds(h: Hasher, d: seq<Leaf>, n: nat, whole: bool)
    requires 1 <= n <= |d|
    ensures FoldProof(h, Prove(h, d, n, whole), |d|, n, TreeHash(h, d[..n]), whole)
         == Some((TreeHash(h, d[..n]), TreeHash(h, d)))
    decreases |d|
  {
    if n == |d| {
      assert d[..n] == d;
      return;
    }
    hide FoldProof, Split;
    var k := Split(|d|);
    if n <= k {
      ProveFolds(h, d[..k], n, whole);
      assert d[..k][..n] == d[..n];
      FoldLeft(h, Prove(h, d[..k], n, whole), TreeHash(h, d[k..]), |d|, n, TreeHash(h, d[..n]), whole);
    } else {
      ProveFoldsRight(h, d, n, whole);
    }
  }

  lemma {:induction false} ProveFoldsRight(h: Hasher, d: seq<Leaf>, n: nat, whole: bool)
    requires 2 <= |d| && Split(|d|) < n < |d|
    ensures FoldProof(h, Prove(h, d, n, whole), |d|, n, TreeHash(h, d[..n]), whole)
         == Some((TreeHash(h, d[..n]), TreeHash(h, d)))
    decreases |d|, 0
  {
    hide FoldProof, Split, TreeHash;
    var k := Split(|d|);
    var rest := Prove(h, d[k..], n - k, false);
    ProveFolds(h, d[k..], n - k, false);
    FoldIgnoresOld(h, rest, |d| - k, n - k, TreeHash(h, d[k..][..n - k]), TreeHash(h, d[..n]));
    FoldRight(h, rest, TreeHash(h, d[..k]), |d|, n, TreeHash(h, d[..n]), whole);
    PrefixHash(h, d, n);
    PrefixHash(h, d, |d|);
    assert d[..|d|] == d && d[k..][..|d| - k] == d[k..];
  }

  /** Off the left spine the claimed old root plays no part. */
  lemma {:induction false} FoldIgnoresOld(h: Hasher, proof: seq<Digest>, size: nat, n: nat, oldHash: Digest, other: Digest)
    requires 1 <= n <= size
    ensures FoldProof(h, proof, size, n, oldHash, false) == FoldProof(h, proof, size, n, other, false)
    decreases size
  {
    if n < size && proof != [] {
      var k := Split(size);
      if n <= k {
        FoldIgnoresOld(h, proof[..|proof| - 1], k, n, oldHash, other);
      } else {
        FoldIgnoresOld(h, proof[..|proof| - 1], size - k, n - k, oldHash, other);
      }
    }
  }

  /** Completeness: the honest proof passes the check. */
  lemma HonestProofPasses(h: Hasher, d: seq<Leaf>, n: nat)
    requires 1 <= n <= |d|
    ensures CheckTree(h, Prove(h, d, n, true), |d|, TreeHash(h, d), n, TreeHash(h, d[..n]))
  {
    ProveFolds(h, d, n, true);
  }

  /** The exception is not for free: whatever the hash, an honest proof never parts from its tree. */
  lemma {:induction false} HonestProofNeverParts(h: Hasher, d: seq<Leaf>, n: nat, oldHash: Digest, whole: bool)
    requires 1 <= n <= |d| && (whole ==> oldHash == TreeHash(h, d[..n]))
    ensures FoldProof(h, Prove(h, d, n, whole), |d|, n, oldHash, whole).Some?
    ensures FoldProof(h, Prove(h, d, n, whole), |d|, n, oldHash, whole).value.1 == TreeHash(h, d)
    ensures PartingOf(h, Prove(h, d, n, whole), d, n, oldHash, whole) == None
    decreases |d|
  {
    if n == |d| {
      assert d[..n] == d;
      return;
    }
    var k := Split(|d|);
    var proof := Prove(h, d, n, whole);
    if n <= k {
      assert d[..k][..n] == d[..n];
      HonestProofNeverParts(h, d[..k], n, oldHash, whole);
      assert proof[..|proof| - 1] == Prove(h, d[..k], n, whole);
    } else {
      HonestProofNeverParts(h, d[k..], n - k, oldHash, false);
      assert proof[..|proof| - 1] == Prove(h, d[k..], n - k, false);
    }
  }

  // ----- how long an honest proof is -----

  function Pow2(e: nat): (p: nat)
    ensures p >= 1
  {
    if e == 0 then 1 else 2 * Pow2(e - 1)
  }

  lemma {:induction false} PowerOfExponent(e: nat)
    ensures PowerOfTwo(Pow2(e))
  {
    if e > 0 {
      PowerOfExponent(e - 1);
    }
  }

  lemma {:induction false} SplitHalves(n: nat, e: nat)
    requires 2 <= n <= Pow2(e)
    ensures e >= 1 && Split(n) <= Pow2(e - 1) && n - Split(n) <= Pow2(e - 1)
  {
    SplitIsPower(n);
    PowerOfExponent(e - 1);
    if Split(n) > Pow2(e - 1) {
      PowersAreSpread(Pow2(e - 1), Split(n));
    }
  }

  /** A tree of at most 2^e leaves never needs more than e + 1 hashes. */
  lemma {:induction false} ProofLengthBound(h: Hasher, d: seq<Leaf>, n: nat, whole: bool, e: nat)
    requires 1 <= n <= |d| <= Pow2(e)
    ensures |Prove(h, d, n, whole)| <= e + 1
    decreases |d|
  {
    if n < |d| {
      var k := Split(|d|);
      SplitHalves(|d|, e);
      if n <= k {
        ProofLengthBound(h, d[..k], n, whole, e - 1);
      } else {
        ProofLengthBound(h, d[k..], n - k, false, e - 1);
      }
    }
  }

  /** Every leaf but one of a full tree, off the left spine: e + 1 hashes. */
  lemma {:induction false} FullTreeProofLength(h: Hasher, d: seq<Leaf>, whole: bool, e: nat)
    requires e >= 1 && |d| == Pow2(e)
    ensures |Prove(h, d, |d| - 1, whole)| == if whole && e == 1 then 1 else e + 1
    decreases e
  {
    var k := Pow2(e - 1);
    PowerOfExponent(e - 1);
    SplitIsUnique(|d|, k);
    if e > 1 {
      FullTreeProofLength(h, d[k..], false, e - 1);
    }
  }

  /** The bound is tight for every larger log: the prefix one leaf short of the split needs at
      least e + 2 hashes. */
  lemma LongProofExists(h: Hasher, d: seq<Leaf>, e: nat)
    requires e >= 2 && |d| > Pow2(e)
    ensures |d| >= 2 && 1 <= Split(|d|) - 1 && |Prove(h, d, Split(|d|) - 1, true)| >= e + 2
  {
    var k := Split(|d|);
    SplitIsPower(|d|);
    PowerOfExponent(e);
    if k < Pow2(e) {
      PowersAreSpread(k, Pow2(e));
    }
    var f := ExponentOf(k);
    Pow2Orders(e, f);
    FullTreeProofLength(h, d[..k], true, f);
  }

  lemma {:induction false} ExponentOf(k: nat) returns (e: nat)
    requires PowerOfTwo(k)
    ensures Pow2(e) == k
  {
    if k == 1 {
      e := 0;
    } else {
      e := ExponentOf(k / 2);
      e := e + 1;
    }
  }

  lemma {:induction false} Pow2Orders(e: nat, f: nat)
    requires Pow2(e) <= Pow2(f)
    ensures e <= f
  {
    if e > 0 && f > 0 {
      Pow2Orders(e - 1, f - 1);
    }
  }
}
