/** Every event keeps the invariant: storage and boot, then the serving steps, then whole runs. */
module Preservation {
  import opened Common
  import opened Merkle
  import opened Notes
  import opened StoreModel
  import opened Sequencer
  import opened System
  import opened Invariants
  import opened PreservationServing

  // ----- durable state -----

  /** Anchoring a one-ahead blob makes it the new head of the lineage. */
  lemma RecordKeeps(E: Env, d: Durable, b: Blob, outcome: AnchorOutcome)
    requires DurableInv(E, d) && b in d.sealed && b.gen == |d.commits| + 1
    ensures var (e, ok) := WriteRecord(d, b, outcome);
            && DurableInv(E, e) && e.sealed == d.sealed
            && (ok ==> outcome.Acked?)
            && (if outcome.ErrorLost? then e == d else e.commits == d.commits + [b])
            && (ok <==> outcome.Acked?)
  {
    hide Lineage, Extends, Admissible;
    if !outcome.ErrorLost? {
      LineageGrows(E, d.commits, b);
    }
  }

  lemma LineageGrows(E: Env, commits: seq<Blob>, b: Blob)
    requires Lineage(E, commits) && Extends(E, StatesAt(commits, |commits|), b.states)
    ensures Lineage(E, commits + [b])
  {
    hide Extends;
    var more := commits + [b];
    forall i | 0 <= i < |more| ensures Extends(E, StatesAt(more, i), more[i].states) {
      assert StatesAt(more, i) == StatesAt(commits, i);
    }
  }

  /** Sealing a new blob on top of the committed state keeps the lineage. */
  lemma SealKeeps(E: Env, d: Durable, b: Blob, content: Option<Blob>)
    requires DurableInv(E, d)
    requires b.gen == |d.commits| + 1 <= MAX_GEN && Admissible(E, b.states)
    requires Extends(E, StatesAt(d.commits, |d.commits|), b.states)
    requires forall c :: c in d.sealed ==> c.hash != b.hash
    requires content.Some? ==> content.value in d.sealed + {b}
    ensures DurableInv(E, WithSlot(d.(sealed := d.sealed + {b}), b.gen, content))
  {
    hide Extends, Admissible;
  }

  lemma TamperKeeps(E: Env, s: State, i: nat, content: Option<Blob>)
    requires Inv(E, s)
    ensures Inv(E, DoTamper(s, i, content))
  {
    hide RunInv, HistoryInv, Extends, Admissible;
  }

  lemma OpenStartKeeps(E: Env, s: State, a: bool, r: bool)
    requires Inv(E, s)
    ensures Inv(E, DoOpenStart(s, a, r))
  {
    hide RunInv, HistoryInv, CommitsOk, SealedOk;
  }

  lemma BootedIsFine(E: Env, d: Durable, signatures: seq<Signature>, ram: Ram)
    requires DurableInv(E, d) && MemRestores(E, ram.mem) && ram.gen <= MAX_GEN
    requires !ram.halted ==> ram.gen == |d.commits| && NotesOf(ram.mem) == StatesAt(d.commits, ram.gen)
    ensures RunInv(E, d.sealed, d.commits, signatures, Booted(ram))
  {
  }

  lemma AdmittedRestores(E: Env, states: States)
    requires Admissible(E, states)
    ensures MemRestores(E, Admitted(E, states))
  {
  }

  /** What a decision may serve: only the anchored state, or a sealed blob one ahead of it. */
  lemma DecisionIsSafe(E: Env, d: Durable, newest: Option<Blob>)
    requires DurableInv(E, d) && (newest.Some? ==> newest.value in d.sealed)
    ensures match Decide(E, d.anchor, newest)
            case Done(ram) =>
              && MemRestores(E, ram.mem) && ram.gen <= MAX_GEN
              && (!ram.halted ==> ram.gen == |d.commits| && NotesOf(ram.mem) == StatesAt(d.commits, ram.gen))
            case Reanchor(ram, b) =>
              && MemRestores(E, ram.mem) && !ram.halted && ram.gen <= MAX_GEN
              && b in d.sealed && ram.gen == b.gen == |d.commits| + 1 && NotesOf(ram.mem) == b.states
  {
    hide Extends, Restore;
    if newest.Some? && Admissible(E, newest.value.states) {
      AdmittedRestores(E, newest.value.states);
    }
  }

  /** Whatever the card holds, Open serves only the anchored state or a one-ahead extension of it
      that it has just anchored; every other observation halts. */
  lemma OpenFinishKeeps(E: Env, s: State, r: bool, w: AnchorOutcome)
    requires Inv(E, s)
    ensures Inv(E, DoOpenFinish(E, s, r, w))
  {
    hide RunInv, HistoryInv, Decide, MemRestores, WriteRecord, CommitsOk, SealedOk;
    if !s.v.Opening? {
      return;
    }
    var newest := Newest(s.v.first, if r then s.d.slot1 else None);
    DecisionIsSafe(E, s.d, newest);
    match Decide(E, s.v.anchored, newest) {
      case Done(ram) =>
        BootedIsFine(E, s.d, s.signatures, ram);
      case Reanchor(ram, b) =>
        RecordKeeps(E, s.d, b, w);
        var (d, ok) := WriteRecord(s.d, b, w);
        HistoryGrows(E, s.d.commits, d.commits, s.signatures, s.releases);
        BootedIsFine(E, d, s.signatures, if ok then ram else ram.(halted := true));
    }
  }

  /** Released checkpoints stay in a history that only grows. */
  lemma HistoryGrows(E: Env, before: seq<Blob>, after: seq<Blob>, signatures: seq<Signature>, releases: seq<Release>)
    requires HistoryInv(E, before, signatures, releases) && before <= after
    ensures HistoryInv(E, after, signatures, releases)
  {
    forall i | 0 <= i < |releases| ensures ReleaseOk(E, after, signatures, releases[i]) {
      var r := releases[i];
      assert ReleaseOk(E, before, signatures, r);
      HistoryExtends(before, after, r.gen, r.cp.origin, SignedNote(r.text, r.resp));
    }
  }

  lemma HistoryExtends(before: seq<Blob>, after: seq<Blob>, k: nat, o: Bytes, note: Bytes)
    requires InHistory(before, k, o, note) && before <= after
    ensures forall j :: k <= j ==> InHistory(after, j, o, note)
  {
    var i :| 0 <= i < k && i < |before| && o in before[i].states && before[i].states[o] == note;
    assert after[i] == before[i];
  }

  // ----- commit -----

  lemma SealStep(E: Env, d: Durable, u: Running, signatures: seq<Signature>, hash: Digest)
    requires DurableInv(E, d) && RunInv(E, d.sealed, d.commits, signatures, u)
    requires u.phase.Writing? && !u.ram.halted && u.ram.gen < MAX_GEN
    ensures var b := NextBlob(u.ram, u.phase.updates, hash);
            && b.gen == |d.commits| + 1 <= MAX_GEN && Admissible(E, b.states)
            && Extends(E, StatesAt(d.commits, |d.commits|), b.states)
  {
    hide Follows, Restore, ThreadInv, GrantInv, SignedInv, ChannelInv, SealedOk, CommitsOk;
    BatchIsLegal(E, u);
    NextStatesExtend(E, u.ram.mem, u.phase.updates);
    MemViewsAreNoteViews(E, u.ram.mem + u.phase.updates, []);
  }

  /** More sealed blobs do not disturb the running witness. */
  lemma SealedGrows(E: Env, sealed: set<Blob>, more: set<Blob>, commits: seq<Blob>, signatures: seq<Signature>, u: Running)
    requires RunInv(E, sealed, commits, signatures, u) && sealed <= more
    ensures RunInv(E, more, commits, signatures, u)
  {
    hide PoolInv, EntryInv, ChannelInv, Fresh, BatchInv, SignedInv, GrantInv, ThreadInv, KeyInv, CountInv,
         MemRestores, StatesAt, NextStates;
  }

  lemma SlotWrittenKeeps(E: Env, sealed: set<Blob>, commits: seq<Blob>, signatures: seq<Signature>, u: Running, hash: Digest)
    requires RunInv(E, sealed, commits, signatures, u) && u.phase.Writing? && !u.ram.halted
    requires NextBlob(u.ram, u.phase.updates, hash) in sealed
    ensures RunInv(E, sealed, commits, signatures,
                   u.(phase := Anchoring(u.phase.updates, NextBlob(u.ram, u.phase.updates, hash))))
  {
    hide PoolInv, EntryInv, ChannelInv, Fresh, SignedInv, GrantInv, ThreadInv, MemRestores, StatesAt, NextStates;
  }

  lemma WriteSlotKeeps(E: Env, s: State, u: Running, fits: bool, hash: Digest, w: WriteOutcome)
    requires Inv(E, s) && s.v == Up(u)
    ensures Inv(E, DoWriteSlot(s, u, fits, hash, w))
  {
    hide RunInv, HistoryInv, CommitsOk, SealedOk, Extends, Admissible, FailBatch, NextBlob;
    if !u.phase.Writing? {
      return;
    }
    CountsAPass(E, s, u);
    FailBatchKeeps(E, s.d.sealed, s.d.commits, s.signatures, u, u.passes, Result(SERVER_ERROR, []));
    HaltKeeps(E, s.d.sealed, s.d.commits, s.signatures, u);
    FailBatchKeeps(E, s.d.sealed, s.d.commits, s.signatures, Halt(u), u.passes, Result(SERVER_ERROR, []));
    if u.ram.halted || u.ram.gen == MAX_GEN || !fits || exists b :: b in s.d.sealed && b.hash == hash {
      return;
    }
    GenerationBounded(E, s, u);
    SealStep(E, s.d, u, s.signatures, hash);
    var b := NextBlob(u.ram, u.phase.updates, hash);
    NextBlobHash(u, hash);
    var content := if w.ErrorTorn? then None else if w.ErrorKept? then Slot(s.d, b.gen) else Some(b);
    SealKeeps(E, s.d, b, content);
    var more := s.d.sealed + {b};
    SealedGrows(E, s.d.sealed, more, s.d.commits, s.signatures, u);
    if w.Completed? {
      SlotWrittenKeeps(E, more, s.d.commits, s.signatures, u, hash);
    } else {
      HaltKeeps(E, more, s.d.commits, s.signatures, u);
      FailBatchKeeps(E, more, s.d.commits, s.signatures, Halt(u), u.passes, Result(SERVER_ERROR, []));
    }
  }

  lemma NextBlobHash(u: Running, hash: Digest)
    requires u.phase.Writing?
    ensures NextBlob(u.ram, u.phase.updates, hash).hash == hash
  {
  }

  lemma CountsAPass(E: Env, s: State, u: Running)
    requires RunInv(E, s.d.sealed, s.d.commits, s.signatures, u) && SignerMutexHeld(u.phase)
    ensures u.passes == u.committed + u.failed + 1
  {
  }

  lemma GenerationBounded(E: Env, s: State, u: Running)
    requires RunInv(E, s.d.sealed, s.d.commits, s.signatures, u)
    ensures u.ram.gen <= MAX_GEN
  {
  }

  lemma AnchorErrorKeeps(E: Env, sealed: set<Blob>, before: seq<Blob>, after: seq<Blob>, signatures: seq<Signature>, u: Running)
    requires RunInv(E, sealed, before, signatures, u) && u.phase.Anchoring? && before <= after
    ensures RunInv(E, sealed, after, signatures, CommitFailed(Halt(u)))
  {
    hide PoolInv, EntryInv, ChannelInv, Fresh, BatchInv, SignedInv, GrantInv, ThreadInv, MemRestores, StatesAt, NextStates, WithResults;
    var r := Result(SERVER_ERROR, []);
    ResultsKeepPools(E, u.ram.mem, u.entries, u.current, u.sequencing, u.sequencing, r);
    ResultsKeepEntries(E, u.entries, u.epoch, u.threads, u.sequencing, r);
    FailureKeepsGrants(E, before, signatures, u, r);
    GrantsStayAnchored(before, after, u.ram.gen, WithResults(u.entries, u.sequencing, r), u.current, u.sequencing, true);
  }

  lemma GrantsStayAnchored(before: seq<Blob>, after: seq<Blob>, gen: nat, entries: Entries, current: Pool, sequencing: Pool, finished: bool)
    requires GrantInv(before, gen, entries, current, sequencing, finished) && before <= after
    ensures GrantInv(after, gen, entries, current, sequencing, finished)
  {
    hide SignedNote;
    forall e | e in entries && Granted(entries[e]) && (finished || !Pending(entries, current, sequencing, e))
      ensures InHistory(after, gen, entries[e].cand.cp.origin, GrantedNote(entries[e]))
    {
      HistoryExtends(before, after, gen, entries[e].cand.cp.origin, GrantedNote(entries[e]));
    }
  }

  lemma AnchoredKeeps(E: Env, sealed: set<Blob>, commits: seq<Blob>, signatures: seq<Signature>, u: Running)
    requires RunInv(E, sealed, commits, signatures, u) && u.phase.Anchoring?
    ensures RunInv(E, sealed, commits + [u.phase.blob], signatures, u.(phase := Publishing(u.phase.updates, u.phase.blob)))
  {
    hide PoolInv, EntryInv, ChannelInv, Fresh, SignedInv, GrantInv, ThreadInv, MemRestores, NextStates;
    GrantsStayAnchored(commits, commits + [u.phase.blob], u.ram.gen, u.entries, u.current, u.sequencing, false);
  }

  lemma WriteAnchorKeeps(E: Env, s: State, u: Running, w: AnchorOutcome)
    requires Inv(E, s) && s.v == Up(u)
    ensures Inv(E, DoWriteAnchor(s, u, w))
  {
    hide RunInv, HistoryInv, DurableInv, CommitFailed, WriteRecord;
    if !u.phase.Anchoring? {
      return;
    }
    AnchoringIsOneAhead(E, s, u);
    RecordKeeps(E, s.d, u.phase.blob, w);
    var (d, ok) := WriteRecord(s.d, u.phase.blob, w);
    HistoryGrows(E, s.d.commits, d.commits, s.signatures, s.releases);
    AnchoredKeeps(E, s.d.sealed, s.d.commits, s.signatures, u);
    AnchorErrorKeeps(E, s.d.sealed, s.d.commits, d.commits, s.signatures, u);
  }

  lemma AnchoringIsOneAhead(E: Env, s: State, u: Running)
    requires RunInv(E, s.d.sealed, s.d.commits, s.signatures, u) && u.phase.Anchoring?
    ensures u.phase.blob in s.d.sealed && u.phase.blob.gen == |s.d.commits| + 1
  {
    hide PoolInv, EntryInv, ChannelInv, Fresh, BatchInv, SignedInv, GrantInv, ThreadInv, MemRestores, StatesAt, NextStates;
  }

  // ----- requests -----

  lemma SubmitKeeps(E: Env, s: State, u: Running, tid: nat, body: Bytes)
    requires Inv(E, s) && s.v == Up(u)
    ensures Inv(E, DoSubmit(E, s, u, tid, body))
  {
    hide DurableInv, HistoryInv, RunInv, Prepare, IsText;
    var t := DoSubmit(E, s, u, tid, body);
    if t != s {
      ThreadsOk(E, s, u);
      ThreadChangeKeeps(E, s.d.sealed, s.d.commits, s.signatures, u, t.v.run.threads);
    }
  }

  lemma ThreadsOk(E: Env, s: State, u: Running)
    requires RunInv(E, s.d.sealed, s.d.commits, s.signatures, u)
    ensures ThreadInv(E, u.entries, u.epoch, u.threads)
  {
  }

  lemma ReadEpochKeeps(E: Env, s: State, u: Running, tid: nat)
    requires Inv(E, s) && s.v == Up(u)
    ensures Inv(E, DoReadEpoch(s, u, tid))
  {
    hide DurableInv, HistoryInv, RunInv, IsText;
    var t := DoReadEpoch(s, u, tid);
    if t != s {
      ThreadsOk(E, s, u);
      ThreadChangeKeeps(E, s.d.sealed, s.d.commits, s.signatures, u, t.v.run.threads);
    }
  }

  /** Joining a pending entry means submitting exactly the pending candidate. */
  lemma JoinIsSame(E: Env, u: Running, e: nat, c: Candidate)
    requires e in u.entries && TextOk(E, u.entries[e].cand.cp, u.entries[e].cand.text) && TextOk(E, c.cp, c.text)
    requires MatchPending(u.entries, e, u.ram.mem, c).Join?
    ensures u.entries[e].cand == c
  {
    hide IsText;
  }

  lemma EnqueueKeeps(E: Env, s: State, u: Running, tid: nat, id: nat)
    requires Inv(E, s) && s.v == Up(u)
    ensures Inv(E, DoEnqueue(E, s, u, tid, id))
  {
    hide DurableInv, HistoryInv, RunInv, TextOk, Decision, PoolsResolve;
    if !(tid in u.threads && u.threads[tid].Stamped? && id !in u.entries && PoolsResolve(u)) {
      return;
    }
    ThreadsOk(E, s, u);
    var t := u.threads[tid];
    match Decision(E.hasher, u, t.prep.size, t.prep.proof, t.cand) {
      case Refuse(_) =>
        ThreadChangeKeeps(E, s.d.sealed, s.d.commits, s.signatures, u, u.threads - {tid});
      case Join(e) =>
        JoinKeeps(E, s, u, tid, e);
      case Admit =>
        AdmitKeeps(E, s, u, tid, id);
    }
  }

  lemma JoinKeeps(E: Env, s: State, u: Running, tid: nat, e: nat)
    requires RunInv(E, s.d.sealed, s.d.commits, s.signatures, u) && PoolsResolve(u) && tid in u.threads && u.threads[tid].Stamped?
    requires var t := u.threads[tid];
             Decision(E.hasher, u, t.prep.size, t.prep.proof, t.cand) == Join(e)
    ensures RunInv(E, s.d.sealed, s.d.commits, s.signatures, u.(threads := u.threads[tid := Waiting(e, u.threads[tid].cand, |s.releases|)]))
  {
    hide RunInv, TextOk, Judge, MatchPending;
    var t := u.threads[tid];
    ThreadsOk(E, s, u);
    EntriesOk(E, s, u);
    JoinsPending(u, t.cand);
    JoinIsSame(E, u, e, t.cand);
    ThreadChangeKeeps(E, s.d.sealed, s.d.commits, s.signatures, u, u.threads[tid := Waiting(e, t.cand, |s.releases|)]);
  }

  lemma AdmitKeeps(E: Env, s: State, u: Running, tid: nat, id: nat)
    requires RunInv(E, s.d.sealed, s.d.commits, s.signatures, u) && PoolsResolve(u) && tid in u.threads && u.threads[tid].Stamped?
    requires id !in u.entries
    requires var t := u.threads[tid];
             Decision(E.hasher, u, t.prep.size, t.prep.proof, t.cand).Admit?
    ensures var c := u.threads[tid].cand;
            RunInv(E, s.d.sealed, s.d.commits, s.signatures,
                   Admission(u, id, c).(threads := u.threads[tid := Waiting(id, c, |s.releases|)]))
  {
    hide RunInv, TextOk, Judge, Decision;
    var t := u.threads[tid];
    ThreadsOk(E, s, u);
    JudgedOutsidePools(E.hasher, u, t.prep.size, t.prep.proof, t.cand);
    JudgedFollows(E, u.ram.mem, t.prep.size, t.prep.proof, t.cand.cp);
    AdmissionKeeps(E, s.d.sealed, s.d.commits, s.signatures, u, id, t.cand);
    var v := Admission(u, id, t.cand);
    ThreadsOk(E, s, v);
    ThreadChangeKeeps(E, s.d.sealed, s.d.commits, s.signatures, v, u.threads[tid := Waiting(id, t.cand, |s.releases|)]);
  }

  lemma EntriesOk(E: Env, s: State, u: Running)
    requires RunInv(E, s.d.sealed, s.d.commits, s.signatures, u)
    ensures EntryInv(E, u.entries, u.epoch)
  {
  }

  lemma JoinsPending(u: Running, c: Candidate)
    ensures forall e: nat :: e in u.entries ==> (MatchPending(u.entries, e, u.ram.mem, c).Join? ==>
              MatchPending(u.entries, e, u.ram.mem, c) == Join(e)) && !MatchPending(u.entries, e, u.ram.mem, c).Admit?
    ensures forall h: Hasher, size: nat, proof: seq<Digest> {:trigger Judge(h, u.ram.mem, size, proof, c.cp)} ::
              !Judge(h, u.ram.mem, size, proof, c.cp).Join?
  {
    hide CheckTree;
  }

  lemma JudgedOutsidePools(h: Hasher, u: Running, size: nat, proof: seq<Digest>, c: Candidate)
    requires PoolsResolve(u) && Decision(h, u, size, proof, c).Admit?
    ensures c.cp.origin !in u.current && c.cp.origin !in u.sequencing && |u.current| < MAX_POOL
    ensures Judge(h, u.ram.mem, size, proof, c.cp).Admit?
  {
    hide CheckTree;
  }

  lemma AnswerKeeps(E: Env, s: State, u: Running, tid: nat)
    requires Inv(E, s) && s.v == Up(u)
    ensures Inv(E, DoAnswer(s, u, tid))
  {
    hide DurableInv, RunInv, TextOk, SignedNote, InHistory;
    var t := DoAnswer(s, u, tid);
    if t != s {
      ThreadsOk(E, s, u);
      ThreadChangeKeeps(E, s.d.sealed, s.d.commits, s.signatures, u, u.threads - {tid});
      if t.releases != s.releases {
        AnswerIsAnchored(E, s, u, u.threads[tid].entry);
      }
    }
  }

  lemma AnswerIsAnchored(E: Env, s: State, u: Running, e: nat)
    requires RunInv(E, s.d.sealed, s.d.commits, s.signatures, u) && e in u.entries
    requires Granted(u.entries[e]) && u.entries[e].closed > 0
    ensures var x := u.entries[e];
            && TextOk(E, x.cand.cp, x.cand.text)
            && InHistory(s.d.commits, u.ram.gen, x.cand.cp.origin, GrantedNote(x))
            && Signed(s.signatures, x.cand, x.result.value.resp)
  {
    hide PoolInv, Fresh, BatchInv, ThreadInv, MemRestores, StatesAt, NextStates, TextOk, InHistory, Signed, SignedNote, StoreInv;
  }

  // ----- signing -----

  lemma SignEventKeeps(E: Env, s: State, u: Running, o: Bytes, sig: Option<Bytes>)
    requires Inv(E, s) && s.v == Up(u)
    ensures Inv(E, DoSign(s, u, o, sig))
  {
    hide DurableInv, RunInv, SignEntry, ReleaseOk;
    if !(u.phase.Signing? && o in u.phase.todo && o in u.sequencing && u.sequencing[o] in u.entries) {
      return;
    }
    var t := DoSign(s, u, o, sig);
    var e := u.entries[u.sequencing[o]];
    if e.cand.signer == u.phase.signer && e.cand.epoch == u.phase.epoch && sig.Some? {
      var x := t.signatures[|s.signatures|];
      assert x.signer == e.cand.signer && x.text == e.cand.text && x.sig == sig.value;
      SignatureIsFresh(E, s, u, o);
      ReleasesStay(E, s.d.commits, s.signatures, t.signatures, s.releases);
    }
    SignKeeps(E, s.d.sealed, s.d.commits, s.signatures, t.signatures, u, o, sig);
  }

  lemma SignatureIsFresh(E: Env, s: State, u: Running, o: Bytes)
    requires RunInv(E, s.d.sealed, s.d.commits, s.signatures, u)
    requires u.phase.Signing? && o in u.sequencing && u.sequencing[o] in u.entries
    requires u.entries[u.sequencing[o]].cand.epoch == u.phase.epoch
    ensures u.signer == Some(u.phase.signer) && u.phase.signer !in u.keys.zeroed
    ensures u.entries[u.sequencing[o]].admitted == u.epoch
  {
    hide PoolInv, Fresh, BatchInv, ThreadInv, StoreInv, GrantInv, SignedInv, ChannelInv, TextOk;
  }

  lemma ReleasesStay(E: Env, commits: seq<Blob>, before: seq<Signature>, after: seq<Signature>, releases: seq<Release>)
    requires forall i :: 0 <= i < |releases| ==> ReleaseOk(E, commits, before, releases[i])
    requires before <= after
    ensures forall i :: 0 <= i < |releases| ==> ReleaseOk(E, commits, after, releases[i])
  {
    hide TextOk, InHistory, SignedNote;
    forall i | 0 <= i < |releases| ensures ReleaseOk(E, commits, after, releases[i]) {
      var r := releases[i];
      assert ReleaseOk(E, commits, before, r);
      var j :| 0 <= j < |before| && before[j].text == r.text && before[j].sig == r.resp;
      assert after[j] == before[j];
    }
  }

  // ----- keys -----

  lemma KeyEventKeeps(E: Env, s: State, u: Running, ev: Event)
    requires Inv(E, s) && s.v == Up(u)
    requires ev.Provision? || ev.Deprovision? || ev.DestroyKey? || ev.Reinstall? || ev.BumpEpoch?
    ensures Inv(E, ServingStep(E, s, u, ev))
  {
    hide DurableInv, HistoryInv, RunInv;
    KeysOk(E, s, u);
    var t := ServingStep(E, s, u, ev);
    if t != s {
      var v := t.v.run;
      if ev.DestroyKey? {
        DestroyKeeps(E, s.d.sealed, s.d.commits, s.signatures, u, v.keys);
      } else if ev.BumpEpoch? {
        BumpKeeps(E, s.d.sealed, s.d.commits, s.signatures, u);
      } else {
        SignerChangeKeeps(E, s.d.sealed, s.d.commits, s.signatures, u, v.signer, v.keys);
      }
    }
  }

  lemma KeysOk(E: Env, s: State, u: Running)
    requires RunInv(E, s.d.sealed, s.d.commits, s.signatures, u)
    ensures KeyInv(u.signer, u.epoch, u.keys, u.phase)
  {
  }

  // ----- whole runs -----

  lemma SequencerEventKeeps(E: Env, s: State, u: Running, ev: Event)
    requires Inv(E, s) && s.v == Up(u)
    requires ev.RotatePool? || ev.LockSigner? || ev.SigningDone? || ev.Publish? || ev.RetirePool? || ev.Stop?
    ensures Inv(E, ServingStep(E, s, u, ev))
  {
    hide DurableInv, HistoryInv, RunInv, Rotate, BeginPass, EndSigning, Commit, Retire, StopPools;
    match ev {
      case RotatePool => if u.phase.Idle? { RotateKeeps(E, s.d.sealed, s.d.commits, s.signatures, u); }
      case LockSigner =>
        if u.phase.Rotated? && (u.sequencing == map[] || !u.keys.bumping) {
          BeginPassKeeps(E, s.d.sealed, s.d.commits, s.signatures, u);
        }
      case SigningDone =>
        if u.phase.Signing? && u.phase.todo == {} { EndSigningKeeps(E, s.d.sealed, s.d.commits, s.signatures, u); }
      case Publish => if u.phase.Publishing? { CommitKeeps(E, s.d, s.signatures, u); }
      case RetirePool => if u.phase.Finished? { RetireKeeps(E, s.d.sealed, s.d.commits, s.signatures, u); }
      case Stop => if u.phase.Idle? { StopKeeps(E, s.d.sealed, s.d.commits, s.signatures, u); }
    }
  }

  lemma ServingStepKeeps(E: Env, s: State, u: Running, ev: Event)
    requires Inv(E, s) && s.v == Up(u)
    ensures Inv(E, ServingStep(E, s, u, ev))
  {
    hide Inv, DoSubmit, DoReadEpoch, DoEnqueue, DoAnswer, DoSign, DoWriteSlot, DoWriteAnchor, DoProvision, DoDeprovision,
         DoDestroyKey, DoReinstall, DoBumpEpoch;
    match ev {
      case Provision(_) => KeyEventKeeps(E, s, u, ev);
      case Deprovision => KeyEventKeeps(E, s, u, ev);
      case DestroyKey => KeyEventKeeps(E, s, u, ev);
      case Reinstall(_) => KeyEventKeeps(E, s, u, ev);
      case BumpEpoch => KeyEventKeeps(E, s, u, ev);
      case Submit(tid, body) => SubmitKeeps(E, s, u, tid, body);
      case ReadEpoch(tid) => ReadEpochKeeps(E, s, u, tid);
      case Enqueue(tid, id) => EnqueueKeeps(E, s, u, tid, id);
      case Answer(tid) => AnswerKeeps(E, s, u, tid);
      case Sign(o, sig) => SignEventKeeps(E, s, u, o, sig);
      case WriteSlot(fits, hash, w) => WriteSlotKeeps(E, s, u, fits, hash, w);
      case WriteAnchor(w) => WriteAnchorKeeps(E, s, u, w);
      case RotatePool => SequencerEventKeeps(E, s, u, ev);
      case LockSigner => SequencerEventKeeps(E, s, u, ev);
      case SigningDone => SequencerEventKeeps(E, s, u, ev);
      case Publish => SequencerEventKeeps(E, s, u, ev);
      case RetirePool => SequencerEventKeeps(E, s, u, ev);
      case Stop => SequencerEventKeeps(E, s, u, ev);
      case _ =>
    }
  }

  lemma PowerCutKeeps(E: Env, s: State)
    requires Inv(E, s)
    ensures Inv(E, s.(v := Off))
  {
    hide DurableInv, HistoryInv, RunInv;
  }

  /** Every step of the machine keeps the invariant. */
  lemma StepKeeps(E: Env, s: State, ev: Event)
    requires Inv(E, s)
    ensures Inv(E, Step(E, s, ev))
  {
    hide Inv, DoTamper, DoOpenStart, DoOpenFinish, ServingStep;
    match ev {
      case Tamper(i, content) => TamperKeeps(E, s, i, content);
      case PowerCut => PowerCutKeeps(E, s);
      case OpenStart(a, r) => OpenStartKeeps(E, s, a, r);
      case OpenFinish(r, w) => OpenFinishKeeps(E, s, r, w);
      case _ => if s.v.Up? { ServingStepKeeps(E, s, s.v.run, ev); }
    }
  }

  /** Every reachable state satisfies the invariant. */
  lemma {:induction false} RunKeeps(E: Env, events: seq<Event>)
    ensures Inv(E, Run(E, events))
  {
    if events != [] {
      RunKeeps(E, events[..|events| - 1]);
      StepKeeps(E, Run(E, events[..|events| - 1]), events[|events| - 1]);
    }
  }
}
