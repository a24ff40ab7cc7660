/** What every step of the machine keeps. */
module Invariants {
  import opened Common
  import opened Merkle
  import opened Notes
  import opened StoreModel
  import opened Sequencer
  import opened System

  // ----- durable state -----

  /** The anchor names the last commit; generations are positions; each commit extends the last. */
  ghost predicate CommitsOk(E: Env, d: Durable) {
    && |d.commits| == d.anchor.gen <= MAX_GEN
    && d.anchor.bound == (d.anchor.gen > 0)
    && (d.anchor.gen > 0 ==> d.anchor.hash == d.commits[d.anchor.gen - 1].hash)
    && (forall i :: 0 <= i < |d.commits| ==> d.commits[i] in d.sealed && d.commits[i].gen == i + 1)
    && Lineage(E, d.commits)
  }

  /** No sealed blob is more than one generation ahead of the anchor, every blob one ahead extends
      the committed state, every payload re-admits, and digests tell blobs apart. */
  ghost predicate SealedOk(E: Env, d: Durable) {
    && (forall b :: b in d.sealed ==> 1 <= b.gen <= |d.commits| + 1 && b.gen <= MAX_GEN && Admissible(E, b.states))
    && (forall b :: b in d.sealed && b.gen == |d.commits| + 1 ==>
          Extends(E, StatesAt(d.commits, |d.commits|), b.states))
    && (forall b, c :: b in d.sealed && c in d.sealed && b.hash == c.hash ==> b == c)
  }

  ghost predicate SlotsOk(d: Durable) {
    && (d.slot0.Some? ==> d.slot0.value in d.sealed)
    && (d.slot1.Some? ==> d.slot1.value in d.sealed)
  }

  ghost predicate DurableInv(E: Env, d: Durable) {
    CommitsOk(E, d) && SealedOk(E, d) && SlotsOk(d)
  }

  // ----- the running witness -----

  /** RAM, anchor and disk agree while the store is not halted. */
  ghost predicate StoreInv(E: Env, sealed: set<Blob>, commits: seq<Blob>, ram: Ram, p: Phase) {
    && MemRestores(E, ram.mem)
    && ram.gen <= MAX_GEN
    && (ram.halted ==> !StoreMutexHeld(p))
    && (!ram.halted && !p.Publishing? ==>
          ram.gen == |commits| && NotesOf(ram.mem) == StatesAt(commits, ram.gen))
    && (p.Anchoring? ==>
          p.blob in sealed && p.blob.gen == ram.gen + 1 && p.blob.states == NextStates(ram.mem, p.updates))
    && (p.Publishing? ==>
          |commits| == ram.gen + 1 && commits[ram.gen] == p.blob && p.blob.states == NextStates(ram.mem, p.updates))
  }

  function CandView(c: Candidate): View {
    View(c.cp.n, c.cp.hash)
  }

  /** A pool holds live entries under their own origins, and every pending candidate may still
      follow the view the store now holds. */
  ghost predicate PoolOk(E: Env, mem: Mem, entries: Entries, p: Pool) {
    forall o :: o in p ==>
      && p[o] in entries
      && entries[p[o]].cand.cp.origin == o
      && Follows(E, MemView(mem, o), CandView(entries[p[o]].cand))
  }

  ghost predicate PoolsApart(current: Pool, sequencing: Pool) {
    && current.Keys !! sequencing.Keys
    && |current| <= MAX_POOL
    && |sequencing| <= MAX_POOL
  }

  ghost predicate PoolInv(E: Env, mem: Mem, entries: Entries, current: Pool, sequencing: Pool) {
    PoolOk(E, mem, entries, current) && PoolOk(E, mem, entries, sequencing) && PoolsApart(current, sequencing)
  }

  predicate Pending(entries: Entries, current: Pool, sequencing: Pool, e: nat)
    requires e in entries
  {
    InPool(current, entries, e) || InPool(sequencing, entries, e)
  }

  ghost predicate TextOk(E: Env, cp: Checkpoint, text: Bytes) {
    IsText(text) && E.parse(text) == Some(cp)
  }

  predicate FinalCode(code: nat) {
    code == OK || code == SERVER_ERROR || code == UNAVAILABLE
  }

  ghost predicate EntryOk(E: Env, x: Entry, epoch: nat) {
    && TextOk(E, x.cand.cp, x.cand.text)
    && x.cand.epoch <= x.admitted <= epoch
    && (x.result.Some? ==> FinalCode(x.result.value.code))
  }

  ghost predicate EntryInv(E: Env, entries: Entries, epoch: nat) {
    forall e :: e in entries ==> EntryOk(E, entries[e], epoch)
  }

  /** A channel is open while its entry is pending, and closed exactly once, with a result,
      afterwards. */
  ghost predicate ChannelInv(entries: Entries, current: Pool, sequencing: Pool) {
    forall e :: e in entries ==>
      if Pending(entries, current, sequencing, e) then entries[e].closed == 0
      else entries[e].closed == 1 && entries[e].result.Some?
  }

  function Updates(p: Phase): Mem {
    match p
    case Signing(_, _, _, updates, _) => updates
    case Writing(updates) => updates
    case Anchoring(updates, _) => updates
    case Publishing(updates, _) => updates
    case _ => map[]
  }

  predicate Granted(x: Entry) {
    x.result.Some? && x.result.value.code == OK
  }

  function GrantedNote(x: Entry): Bytes
    requires Granted(x)
  {
    SignedNote(x.cand.text, x.result.value.resp)
  }

  function GrantedState(x: Entry): LogState
    requires Granted(x)
  {
    LogState(x.cand.cp.n, x.cand.cp.hash, GrantedNote(x))
  }

  ghost predicate Fresh(entries: Entries, p: Pool) {
    forall o :: o in p && p[o] in entries ==> entries[p[o]].result.None?
  }

  /** In the batch under way an entry has a result once the signing loop has visited it, the updates
      hold exactly the granted entries, each as the note its waiters are answered from, and unless a
      signature failed the others are turned away. */
  ghost predicate BatchEntryOk(p: Phase, o: Bytes, x: Entry) {
    && (p.Signing? ==> (x.result.None? <==> o in p.todo))
    && (p.Writing? || p.Anchoring? || p.Publishing? || p.Finished? ==> x.result.Some?)
    && (SignerMutexHeld(p) ==> (Granted(x) <==> o in Updates(p)))
    && (SignerMutexHeld(p) && Granted(x) ==> Updates(p)[o] == GrantedState(x))
    && (SignerMutexHeld(p) && !(p.Signing? && p.failed) && x.result.Some? && !Granted(x) ==>
          x.result == Some(Result(UNAVAILABLE, [])))
  }

  ghost predicate BatchInv(entries: Entries, sequencing: Pool, p: Phase) {
    && (p.Idle? ==> sequencing == map[])
    && (p.Rotated? ==> Fresh(entries, sequencing))
    && (p.Signing? ==> p.todo <= sequencing.Keys)
    && (SignerMutexHeld(p) ==> Updates(p).Keys <= sequencing.Keys)
    && (forall o :: o in sequencing && sequencing[o] in entries ==>
          BatchEntryOk(p, o, entries[sequencing[o]]))
  }

  /** Some blob among the first k anchored holds this note for this origin. */
  ghost predicate InHistory(commits: seq<Blob>, k: nat, o: Bytes, note: Bytes) {
    exists i :: 0 <= i < k && i < |commits| && o in commits[i].states && commits[i].states[o] == note
  }

  ghost predicate Signed(signatures: seq<Signature>, c: Candidate, sig: Bytes) {
    exists i :: 0 <= i < |signatures| && signatures[i].signer == c.signer && signatures[i].text == c.text
      && signatures[i].sig == sig
  }

  /** Every 200 rests on a signature by the candidate's signer over the candidate's text. */
  ghost predicate SignedInv(signatures: seq<Signature>, entries: Entries) {
    forall e :: e in entries && Granted(entries[e]) ==>
      Signed(signatures, entries[e].cand, entries[e].result.value.resp)
  }

  /** A 200 that a waiter can see, now or as soon as the batch is retired, is anchored, and in a
      generation that RAM has reached. */
  ghost predicate GrantInv(commits: seq<Blob>, gen: nat, entries: Entries, current: Pool, sequencing: Pool, finished: bool) {
    forall e :: e in entries && Granted(entries[e]) && (finished || !Pending(entries, current, sequencing, e)) ==>
      InHistory(commits, gen, entries[e].cand.cp.origin, GrantedNote(entries[e]))
  }

  ghost predicate ThreadOk(E: Env, entries: Entries, epoch: nat, t: Thread) {
    match t
    case Loaded(_, prep) => TextOk(E, prep.cp, prep.text) && prep.size <= prep.cp.n && prep.proof in E.proofs
    case Stamped(prep, c) =>
      && TextOk(E, c.cp, c.text) && c.cp == prep.cp && prep.size <= c.cp.n && prep.proof in E.proofs
      && c.epoch <= epoch
    case Waiting(e, c, _) => e in entries && entries[e].cand == c
  }

  ghost predicate ThreadInv(E: Env, entries: Entries, epoch: nat, threads: map<nat, Thread>) {
    forall tid :: tid in threads ==> ThreadOk(E, entries, epoch, threads[tid])
  }

  /** The installed key is alive, the key about to be destroyed is not installed, and the signer
      does not change while a batch is signed. */
  ghost predicate KeyInv(signer: Option<Signer>, epoch: nat, keys: Keys, p: Phase) {
    && (signer.Some? ==> signer.value !in keys.zeroed)
    && (keys.stage.Swapping? ==> signer == keys.stage.next && (signer.Some? ==> signer != keys.priv))
    && (p.Signing? ==> signer == Some(p.signer) && epoch == p.epoch)
    && (keys.bumping ==> !SignerMutexHeld(p))
  }

  /** Every pool sequenced is counted once, and the generation counts the commits. */
  ghost predicate CountInv(gen: nat, u: Running) {
    && gen == u.bootGen + u.committed
    && u.passes == u.committed + u.failed + (if SignerMutexHeld(u.phase) then 1 else 0)
  }

  ghost predicate RunInv(E: Env, sealed: set<Blob>, commits: seq<Blob>, signatures: seq<Signature>, u: Running) {
    && StoreInv(E, sealed, commits, u.ram, u.phase)
    && PoolInv(E, u.ram.mem, u.entries, u.current, u.sequencing)
    && EntryInv(E, u.entries, u.epoch)
    && ChannelInv(u.entries, u.current, u.sequencing)
    && Fresh(u.entries, u.current)
    && BatchInv(u.entries, u.sequencing, u.phase)
    && SignedInv(signatures, u.entries)
    && GrantInv(commits, u.ram.gen, u.entries, u.current, u.sequencing, u.phase.Finished?)
    && ThreadInv(E, u.entries, u.epoch, u.threads)
    && KeyInv(u.signer, u.epoch, u.keys, u.phase)
    && CountInv(u.ram.gen, u)
  }

  // ----- history -----

  /** A signature is made with the installed, living key, in the epoch its entry was admitted. */
  ghost predicate SignatureOk(x: Signature) {
    x.installed == Some(x.signer) && x.signer !in x.zeroed && x.admitted == x.epoch
  }

  ghost predicate ReleaseOk(E: Env, commits: seq<Blob>, signatures: seq<Signature>, r: Release) {
    && TextOk(E, r.cp, r.text)
    && InHistory(commits, r.gen, r.cp.origin, SignedNote(r.text, r.resp))
    && (exists i :: 0 <= i < |signatures| && signatures[i].text == r.text && signatures[i].sig == r.resp)
  }

  ghost predicate HistoryInv(E: Env, commits: seq<Blob>, signatures: seq<Signature>, releases: seq<Release>) {
    && (forall i :: 0 <= i < |signatures| ==> SignatureOk(signatures[i]))
    && (forall i :: 0 <= i < |releases| ==> ReleaseOk(E, commits, signatures, releases[i]))
  }

  ghost predicate BootInv(s: State) {
    s.v.Opening? ==> s.v.anchored == s.d.anchor && (s.v.first.Some? ==> s.v.first.value in s.d.sealed)
  }

  ghost predicate Inv(E: Env, s: State) {
    && DurableInv(E, s.d)
    && HistoryInv(E, s.d.commits, s.signatures, s.releases)
    && BootInv(s)
    && (s.v.Up? ==> RunInv(E, s.d.sealed, s.d.commits, s.signatures, s.v.run))
  }
}
