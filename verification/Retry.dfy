/** The feeder's retry: a log that follows the protocol is never locked out, up to the proof
    length that the wire format allows. */
module Retry {
  import opened Common
  import opened Merkle
  import opened Notes
  import opened StoreModel
  import opened Sequencer
  import Wire

  /** The proof the feeder attaches for a witness that knows the first m leaves. */
  function FeedProof(h: Hasher, d: seq<Leaf>, m: nat): seq<Digest>
    requires m <= |d|
  {
    if 0 < m < |d| then Prove(h, d, m, true) else []
  }

  /** The hash produces 32-byte digests. */
  ghost predicate Sized(h: Hasher) {
    && |h.empty| == Wire.HASH_SIZE
    && (forall x :: |h.leaf(x)| == Wire.HASH_SIZE)
    && (forall a, b :: |h.node(a, b)| == Wire.HASH_SIZE)
  }

  lemma TreeHashSized(h: Hasher, d: seq<Leaf>)
    requires Sized(h)
    ensures |TreeHash(h, d)| == Wire.HASH_SIZE
  {
  }

  lemma {:induction false} ProofSized(h: Hasher, d: seq<Leaf>, m: nat, whole: bool)
    requires Sized(h) && 1 <= m <= |d|
    ensures Wire.HashesFit(Prove(h, d, m, whole))
    decreases |d|
  {
    hide Sized;
    if m == |d| {
      TreeHashSized(h, d);
    } else {
      var k := Split(|d|);
      TreeHashSized(h, d[..k]);
      TreeHashSized(h, d[k..]);
      if m <= k {
        ProofSized(h, d[..k], m, whole);
      } else {
        ProofSized(h, d[k..], m - k, false);
      }
    }
  }

  /** The committed view of the origin is the first m leaves of the log (or the origin is new). */
  ghost predicate Knows(h: Hasher, mem: Mem, o: Bytes, d: seq<Leaf>, m: nat) {
    && m <= |d|
    && Latest(MemView(mem, o)) == m
    && (o in mem ==> mem[o].hash == TreeHash(h, d[..m]))
  }

  ghost predicate RoomFor(u: Running, o: Bytes) {
    PoolsResolve(u) && o !in u.current && o !in u.sequencing && |u.current| < MAX_POOL
  }

  /** First attempt, with old size 0: admitted if the witness knows nothing, otherwise a conflict
      whose body is the size the witness knows. */
  lemma FirstAttempt(h: Hasher, u: Running, c: Candidate, d: seq<Leaf>, m: nat)
    requires RoomFor(u, c.cp.origin) && Knows(h, u.ram.mem, c.cp.origin, d, m)
    requires c.cp.n == |d| && c.cp.hash == TreeHash(h, d)
    ensures Decision(h, u, 0, [], c)
         == if m == 0 then Admit else Refuse(Result(CONFLICT, Decimal(m) + [NEWLINE]))
    ensures m <= Wire.MAX_INT64 ==> Wire.ParseSize(Decimal(m)) == Some(m)
  {
    hide CheckTree;
    DecimalRoundTrip(m);
    if m == 0 && c.cp.n == 0 {
      assert d == [];
    }
  }

  /** Second attempt, with the size from the conflict and the honest proof: always admitted. */
  lemma RetryIsAdmitted(h: Hasher, u: Running, c: Candidate, d: seq<Leaf>, m: nat)
    requires RoomFor(u, c.cp.origin) && Knows(h, u.ram.mem, c.cp.origin, d, m)
    requires c.cp.n == |d| && c.cp.hash == TreeHash(h, d)
    ensures Decision(h, u, m, FeedProof(h, d, m), c) == Admit
  {
    hide CheckTree, TreeHash, Prove;
    if m == |d| {
      assert d[..m] == d;
    } else if m > 0 {
      HonestProofPasses(h, d, m);
    }
    if |d| == 0 {
      EmptyTree(h, d);
    }
  }

  lemma EmptyTree(h: Hasher, d: seq<Leaf>)
    requires |d| == 0
    ensures TreeHash(h, d) == h.empty
  {
  }

  lemma {:induction false} Pow2Adds(a: nat, b: nat)
    ensures Pow2(a + b) == Pow2(a) * Pow2(b)
  {
    if a > 0 {
      Pow2Adds(a - 1, b);
    }
  }

  lemma SmallPowers()
    ensures Pow2(1) == 2 && Pow2(2) == 4
  {
  }

  lemma LargestTree()
    ensures Pow2(62) == 0x4000_0000_0000_0000
  {
    hide Pow2;
    SmallPowers();
    Pow2Adds(2, 2);
    Pow2Adds(4, 4);
    Pow2Adds(8, 8);
    Pow2Adds(16, 16);
    Pow2Adds(32, 16);
    Pow2Adds(48, 8);
    Pow2Adds(56, 4);
    Pow2Adds(60, 2);
  }

  /** For logs of up to 2^62 leaves the retry also fits the wire: the body parses back to the very
      request, so the whole AddCheckpoint path prepares and admits it. */
  lemma RetryFitsTheWire(E: Env, note: Bytes, text: Bytes, cp: Checkpoint, d: seq<Leaf>, m: nat)
    requires Sized(E.hasher) && m <= |d| == cp.n && |d| <= Pow2(62)
    requires CutText(note) == Some(text) && E.parse(text) == Some(cp)
    ensures var proof := FeedProof(E.hasher, d, m);
            && |proof| <= Wire.MAX_PROOF_LINES
            && Prepare(E, Wire.RequestText(Wire.Request(m, proof, note))) == Some(Prepared(m, proof, cp, text))
  {
    hide Sized, Wire.RequestText, Prove, CutText, Wire.ParseBody;
    LargestTree();
    var proof := FeedProof(E.hasher, d, m);
    if 0 < m < |d| {
      ProofLengthBound(E.hasher, d, m, true, 62);
      ProofSized(E.hasher, d, m, true);
    }
    NoteNotEmpty(note, text);
    Wire.RequestRoundTrip(Wire.Request(m, proof, note));
  }

  lemma NoteNotEmpty(note: Bytes, text: Bytes)
    requires CutText(note) == Some(text)
    ensures note != []
  {
  }

  /** Beyond that the claim fails for every log: a witness one leaf short of the split needs at
      least 64 hashes, and the body is refused as malformed. */
  lemma RetryFailsBeyond(h: Hasher, d: seq<Leaf>, note: Bytes)
    requires Sized(h) && |d| > Pow2(62)
    ensures |d| >= 2 && 0 < Split(|d|) - 1
    ensures var m := Split(|d|) - 1;
            var proof := FeedProof(h, d, m);
            |proof| >= 64 && Wire.ParseBody(Wire.RequestText(Wire.Request(m, proof, note))) == None
  {
    hide Sized, Prove, Wire.ParseBody, Wire.RequestText, Pow2;
    LongProofExists(h, d, 62);
    var m := Split(|d|) - 1;
    ProofSized(h, d, m, true);
    Wire.LongBodyRefused(Wire.Request(m, FeedProof(h, d, m), note));
  }

  /** The retry of a witness that knows m leaves reaches addToPool as it was meant. */
  predicate RetryFits(E: Env, note: Bytes, text: Bytes, cp: Checkpoint, d: seq<Leaf>, m: nat)
    requires m <= |d|
  {
    var proof := FeedProof(E.hasher, d, m);
    Prepare(E, Wire.RequestText(Wire.Request(m, proof, note))) == Some(Prepared(m, proof, cp, text))
  }

  /** Every retry fits the wire if and only if the log has at most 2^62 leaves. */
  lemma RetryFitsExactly(E: Env, note: Bytes, text: Bytes, cp: Checkpoint, d: seq<Leaf>)
    requires Sized(E.hasher) && |d| == cp.n
    requires CutText(note) == Some(text) && E.parse(text) == Some(cp)
    ensures (forall m: nat :: m <= |d| ==> RetryFits(E, note, text, cp, d, m)) <==> |d| <= Pow2(62)
  {
    hide Sized, Wire.RequestText, Prove, CutText, Wire.ParseBody, Pow2;
    if |d| <= Pow2(62) {
      forall m: nat | m <= |d| ensures RetryFits(E, note, text, cp, d, m) {
        RetryFitsTheWire(E, note, text, cp, d, m);
      }
    } else {
      RetryFailsBeyond(E.hasher, d, note);
      assert !RetryFits(E, note, text, cp, d, Split(|d|) - 1);
    }
  }
}
