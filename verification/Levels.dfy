/** The Merkle tree built bottom-up, one level at a time: an independent reading of the tree hash
    of section 2.1 of RFC 6962, and the one that tiled logs compute. */
module Levels {
  import opened Common
  import opened Merkle

  /** The next level: neighbours are hashed together, left child first, and an odd last node moves
      up unchanged. */
  function NextLevel(h: Hasher, level: seq<Digest>): (up: seq<Digest>)
    ensures |up| == (|level| + 1) / 2
  {
    seq((|level| + 1) / 2, i requires 0 <= i < (|level| + 1) / 2 =>
      if 2 * i + 1 < |level| then h.node(level[2 * i], level[2 * i + 1]) else level[2 * i])
  }

  function RootOfLevel(h: Hasher, level: seq<Digest>): Digest
    requires level != []
    decreases |level|
  {
    if |level| == 1 then level[0] else RootOfLevel(h, NextLevel(h, level))
  }

  function LeafHashes(h: Hasher, d: seq<Leaf>): (level: seq<Digest>)
    ensures |level| == |d|
  {
    seq(|d|, i requires 0 <= i < |d| => h.leaf(d[i]))
  }

  /** A level splits above an even position. */
  lemma LevelSplits(h: Hasher, level: seq<Digest>, k: nat)
    requires k % 2 == 0 && k <= |level|
    ensures NextLevel(h, level)[..k / 2] == NextLevel(h, level[..k])
    ensures NextLevel(h, level)[k / 2..] == NextLevel(h, level[k..])
  {
    var up, right := NextLevel(h, level)[k / 2..], NextLevel(h, level[k..]);
    forall i | 0 <= i < |right| ensures up[i] == right[i] {
      assert up[i] == NextLevel(h, level)[k / 2 + i];
      assert 2 * (k / 2 + i) == k + 2 * i;
    }
  }

  lemma HalfSplit(n: nat)
    requires n > 2
    ensures Split(n) % 2 == 0 && Split((n + 1) / 2) == Split(n) / 2
  {
    SplitIsPower(n);
    SplitIsUnique((n + 1) / 2, Split(n) / 2);
  }

  lemma OneUp(h: Hasher, level: seq<Digest>)
    requires level != []
    ensures RootOfLevel(h, NextLevel(h, level)) == RootOfLevel(h, level)
  {
    if |level| == 1 {
      assert NextLevel(h, level) == level;
    }
  }

  lemma RootOfOne(h: Hasher, level: seq<Digest>)
    requires |level| == 1
    ensures RootOfLevel(h, level) == level[0]
  {
  }

  lemma RootOfTwo(h: Hasher, level: seq<Digest>)
    requires |level| == 2
    ensures RootOfLevel(h, level) == h.node(RootOfLevel(h, level[..1]), RootOfLevel(h, level[1..]))
  {
    assert NextLevel(h, level) == [h.node(level[0], level[1])];
    RootOfOne(h, level[..1]);
    RootOfOne(h, level[1..]);
  }

  /** The root of a level is the node over the roots of its two parts. */
  lemma {:induction false} RootSplits(h: Hasher, level: seq<Digest>)
    requires |level| >= 2
    ensures var k := Split(|level|);
            RootOfLevel(h, level) == h.node(RootOfLevel(h, level[..k]), RootOfLevel(h, level[k..]))
    decreases |level|
  {
    hide RootOfLevel, NextLevel, Split;
    var n, k := |level|, Split(|level|);
    var up := NextLevel(h, level);
    if n == 2 {
      RootOfTwo(h, level);
    } else {
      HalfSplit(n);
      LevelSplits(h, level, k);
      RootSplits(h, up);
      OneUp(h, level);
      OneUp(h, level[..k]);
      OneUp(h, level[k..]);
    }
  }

  lemma LeavesSplit(h: Hasher, d: seq<Leaf>, k: nat)
    requires k <= |d|
    ensures LeafHashes(h, d[..k]) == LeafHashes(h, d)[..k] && LeafHashes(h, d[k..]) == LeafHashes(h, d)[k..]
  {
  }

  /** Recursive and level-wise hashing agree on every non-empty log. */
  lemma {:induction false} TreeHashByLevels(h: Hasher, d: seq<Leaf>)
    requires d != []
    ensures TreeHash(h, d) == RootOfLevel(h, LeafHashes(h, d))
    decreases |d|
  {
    if |d| == 1 {
      RootOfOne(h, LeafHashes(h, d));
    } else {
      hide RootOfLevel, LeafHashes;
      var k := Split(|d|);
      var level := LeafHashes(h, d);
      TreeHashByLevels(h, d[..k]);
      TreeHashByLevels(h, d[k..]);
      LeavesSplit(h, d, k);
      RootSplits(h, level);
    }
  }
}
