/** Every step of the serving witness keeps its invariant. */
module PreservationServing {
  import opened Common
  import opened Merkle
  import opened Notes
  import opened StoreModel
  import opened Sequencer
  import opened System
  import opened Invariants

  // ----- keys -----

  lemma EpochGrows(E: Env, u: Running)
    requires EntryInv(E, u.entries, u.epoch) && ThreadInv(E, u.entries, u.epoch, u.threads)
    ensures EntryInv(E, u.entries, u.epoch + 1) && ThreadInv(E, u.entries, u.epoch + 1, u.threads)
  {
    hide TextOk;
  }

  lemma SignerChangeKeeps(E: Env, sealed: set<Blob>, commits: seq<Blob>, signatures: seq<Signature>,
                          u: Running, signer: Option<Signer>, keys: Keys)
    requires RunInv(E, sealed, commits, signatures, u) && !SignerMutexHeld(u.phase)
    requires signer.Some? ==> signer.value !in keys.zeroed
    requires keys.stage.Swapping? ==> signer == keys.stage.next && (signer.Some? ==> signer != keys.priv)
    ensures RunInv(E, sealed, commits, signatures, u.(signer := signer, keys := keys))
  {
    hide StoreInv, PoolInv, EntryInv, ChannelInv, Fresh, BatchInv, SignedInv, GrantInv, ThreadInv;
  }

  lemma BumpKeeps(E: Env, sealed: set<Blob>, commits: seq<Blob>, signatures: seq<Signature>, u: Running)
    requires RunInv(E, sealed, commits, signatures, u) && u.keys.bumping
    ensures RunInv(E, sealed, commits, signatures, u.(epoch := u.epoch + 1, keys := u.keys.(bumping := false)))
  {
    hide StoreInv, PoolInv, EntryInv, ChannelInv, Fresh, BatchInv, SignedInv, GrantInv, ThreadInv;
    EpochGrows(E, u);
  }

  lemma DestroyKeeps(E: Env, sealed: set<Blob>, commits: seq<Blob>, signatures: seq<Signature>, u: Running, keys: Keys)
    requires RunInv(E, sealed, commits, signatures, u)
    requires keys.stage.Resting? && !keys.bumping && (u.signer.Some? ==> u.signer.value !in keys.zeroed)
    ensures RunInv(E, sealed, commits, signatures, u.(keys := keys))
  {
    hide StoreInv, PoolInv, EntryInv, ChannelInv, Fresh, BatchInv, SignedInv, GrantInv, ThreadInv;
  }

  // ----- requests -----

  lemma ThreadChangeKeeps(E: Env, sealed: set<Blob>, commits: seq<Blob>, signatures: seq<Signature>,
                          u: Running, threads: map<nat, Thread>)
    requires RunInv(E, sealed, commits, signatures, u)
    requires ThreadInv(E, u.entries, u.epoch, threads)
    ensures RunInv(E, sealed, commits, signatures, u.(threads := threads))
  {
    hide StoreInv, PoolInv, EntryInv, ChannelInv, Fresh, BatchInv, SignedInv, GrantInv, ThreadInv;
  }

  /** A candidate that passes the checks may follow the committed view. */
  lemma JudgedFollows(E: Env, mem: Mem, size: nat, proof: seq<Digest>, cp: Checkpoint)
    requires Judge(E.hasher, mem, size, proof, cp).Admit? && size <= cp.n && proof in E.proofs
    ensures Follows(E, MemView(mem, cp.origin), View(cp.n, cp.hash))
  {
    hide CheckTree;
    var prev := MemView(mem, cp.origin);
    if cp.n > 0 && size == cp.n {
      assert prev == Some(View(cp.n, cp.hash));
    } else if size > 0 {
      assert Checks(E, proof, prev.value, View(cp.n, cp.hash));
    }
  }

  /** A pool stays well formed while its candidates do. */
  lemma PoolFrame(E: Env, mem: Mem, before: Entries, after: Entries, p: Pool)
    requires PoolOk(E, mem, before, p)
    requires forall e :: e in before ==> e in after && after[e].cand == before[e].cand
    ensures PoolOk(E, mem, after, p)
  {
    hide Follows;
  }

  lemma AdmissionEntries(E: Env, u: Running, id: nat, c: Candidate)
    requires EntryInv(E, u.entries, u.epoch) && ThreadInv(E, u.entries, u.epoch, u.threads) && id !in u.entries
    requires TextOk(E, c.cp, c.text) && c.epoch <= u.epoch
    ensures var v := Admission(u, id, c);
            EntryInv(E, v.entries, v.epoch) && ThreadInv(E, v.entries, v.epoch, v.threads)
  {
    hide TextOk;
  }

  lemma PoolGrows(E: Env, mem: Mem, entries: Entries, p: Pool, o: Bytes, id: nat)
    requires PoolOk(E, mem, entries, p) && o !in p
    requires id in entries && entries[id].cand.cp.origin == o
    requires Follows(E, MemView(mem, o), CandView(entries[id].cand))
    ensures PoolOk(E, mem, entries, p[o := id]) && |p[o := id]| == |p| + 1
  {
    hide Follows;
    assert p[o := id].Keys == p.Keys + {o};
  }

  lemma AdmissionPools(E: Env, u: Running, id: nat, c: Candidate)
    requires PoolInv(E, u.ram.mem, u.entries, u.current, u.sequencing) && id !in u.entries
    requires c.cp.origin !in u.current && c.cp.origin !in u.sequencing && |u.current| < MAX_POOL
    requires Follows(E, MemView(u.ram.mem, c.cp.origin), CandView(c))
    ensures var v := Admission(u, id, c);
            PoolInv(E, v.ram.mem, v.entries, v.current, v.sequencing)
  {
    hide Follows, PoolOk;
    var v := Admission(u, id, c);
    PoolFrame(E, u.ram.mem, u.entries, v.entries, u.current);
    PoolFrame(E, u.ram.mem, u.entries, v.entries, u.sequencing);
    PoolGrows(E, u.ram.mem, v.entries, u.current, c.cp.origin, id);
  }

  lemma AdmissionChannels(E: Env, u: Running, id: nat, c: Candidate)
    requires PoolInv(E, u.ram.mem, u.entries, u.current, u.sequencing) && id !in u.entries
    requires c.cp.origin !in u.current && c.cp.origin !in u.sequencing
    requires ChannelInv(u.entries, u.current, u.sequencing) && Fresh(u.entries, u.current)
    ensures var v := Admission(u, id, c);
            ChannelInv(v.entries, v.current, v.sequencing) && Fresh(v.entries, v.current)
  {
    hide Follows;
    var v := Admission(u, id, c);
    forall e | e in u.entries
      ensures v.entries[e] == u.entries[e]
      ensures Pending(v.entries, v.current, v.sequencing, e) == Pending(u.entries, u.current, u.sequencing, e)
    {
    }
    assert InPool(v.current, v.entries, id);
  }

  lemma AdmissionGrants(E: Env, commits: seq<Blob>, signatures: seq<Signature>, u: Running, id: nat, c: Candidate)
    requires PoolInv(E, u.ram.mem, u.entries, u.current, u.sequencing) && id !in u.entries
    requires c.cp.origin !in u.current && c.cp.origin !in u.sequencing
    requires SignedInv(signatures, u.entries)
    requires GrantInv(commits, u.ram.gen, u.entries, u.current, u.sequencing, u.phase.Finished?)
    ensures var v := Admission(u, id, c);
            && SignedInv(signatures, v.entries)
            && GrantInv(commits, v.ram.gen, v.entries, v.current, v.sequencing, v.phase.Finished?)
  {
    hide Follows, Signed, InHistory, SignedNote;
    var v := Admission(u, id, c);
    forall e | e in u.entries
      ensures v.entries[e] == u.entries[e]
      ensures Pending(v.entries, v.current, v.sequencing, e) == Pending(u.entries, u.current, u.sequencing, e)
    {
    }
  }

  lemma AdmissionBatch(E: Env, u: Running, id: nat, c: Candidate)
    requires PoolOk(E, u.ram.mem, u.entries, u.sequencing) && id !in u.entries
    requires BatchInv(u.entries, u.sequencing, u.phase)
    ensures BatchInv(Admission(u, id, c).entries, u.sequencing, u.phase)
  {
    hide Follows, SignedNote;
  }

  lemma AdmissionKeeps(E: Env, sealed: set<Blob>, commits: seq<Blob>, signatures: seq<Signature>,
                       u: Running, id: nat, c: Candidate)
    requires RunInv(E, sealed, commits, signatures, u) && id !in u.entries
    requires TextOk(E, c.cp, c.text) && c.epoch <= u.epoch
    requires c.cp.origin !in u.current && c.cp.origin !in u.sequencing && |u.current| < MAX_POOL
    requires Follows(E, MemView(u.ram.mem, c.cp.origin), CandView(c))
    ensures RunInv(E, sealed, commits, signatures, Admission(u, id, c))
  {
    hide StoreInv, PoolOk, EntryInv, ChannelInv, Fresh, BatchInv, SignedInv, GrantInv, ThreadInv, TextOk, Follows;
    AdmissionBatch(E, u, id, c);
    AdmissionEntries(E, u, id, c);
    AdmissionPools(E, u, id, c);
    AdmissionChannels(E, u, id, c);
    AdmissionGrants(E, commits, signatures, u, id, c);
  }

  // ----- the sequencer -----

  lemma RotateKeeps(E: Env, sealed: set<Blob>, commits: seq<Blob>, signatures: seq<Signature>, u: Running)
    requires RunInv(E, sealed, commits, signatures, u) && u.phase.Idle?
    ensures RunInv(E, sealed, commits, signatures, Rotate(u))
  {
    hide Follows, MemRestores, NotesOf, NextStates, EntryInv, Signed, InHistory, StatesAt, ThreadInv, SignedInv;
  }

  /** Results may be set on a pool at will: who is pending does not change. */
  lemma ResultsKeepPools(E: Env, mem: Mem, entries: Entries, current: Pool, sequencing: Pool, p: Pool, r: Result)
    requires PoolInv(E, mem, entries, current, sequencing)
    requires ChannelInv(entries, current, sequencing)
    ensures var es := WithResults(entries, p, r);
            PoolInv(E, mem, es, current, sequencing) && ChannelInv(es, current, sequencing)
  {
    hide PoolOk;
    var es := WithResults(entries, p, r);
    PoolFrame(E, mem, entries, es, current);
    PoolFrame(E, mem, entries, es, sequencing);
  }

  lemma ResultsKeepEntries(E: Env, entries: Entries, epoch: nat, threads: map<nat, Thread>, p: Pool, r: Result)
    requires EntryInv(E, entries, epoch) && ThreadInv(E, entries, epoch, threads)
    requires FinalCode(r.code)
    ensures var es := WithResults(entries, p, r);
            EntryInv(E, es, epoch) && ThreadInv(E, es, epoch, threads)
  {
    hide TextOk;
  }

  lemma FailureKeepsGrants(E: Env, commits: seq<Blob>, signatures: seq<Signature>, u: Running, r: Result)
    requires PoolInv(E, u.ram.mem, u.entries, u.current, u.sequencing)
    requires SignedInv(signatures, u.entries) && Fresh(u.entries, u.current)
    requires GrantInv(commits, u.ram.gen, u.entries, u.current, u.sequencing, u.phase.Finished?)
    requires r.code != OK
    ensures var es := WithResults(u.entries, u.sequencing, r);
            && SignedInv(signatures, es) && Fresh(es, u.current)
            && GrantInv(commits, u.ram.gen, es, u.current, u.sequencing, true)
            && BatchInv(es, u.sequencing, Finished)
  {
    hide Follows, Signed, InHistory;
    var es := WithResults(u.entries, u.sequencing, r);
    forall e | e in es && Granted(es[e])
      ensures es[e] == u.entries[e] && !Pending(u.entries, u.current, u.sequencing, e)
    {
    }
  }

  /** Failing the batch under way releases nothing, whatever stage it had reached. */
  lemma FailBatchKeeps(E: Env, sealed: set<Blob>, commits: seq<Blob>, signatures: seq<Signature>,
                       u: Running, passes: nat, r: Result)
    requires RunInv(E, sealed, commits, signatures, u) && !u.phase.Publishing?
    requires passes == u.committed + u.failed + 1
    requires r.code == SERVER_ERROR || r.code == UNAVAILABLE
    ensures RunInv(E, sealed, commits, signatures, FailBatch(u.(passes := passes), r))
  {
    hide PoolInv, EntryInv, ChannelInv, Fresh, BatchInv, SignedInv, GrantInv, ThreadInv, MemRestores, StatesAt, NextStates, WithResults;
    ResultsKeepPools(E, u.ram.mem, u.entries, u.current, u.sequencing, u.sequencing, r);
    ResultsKeepEntries(E, u.entries, u.epoch, u.threads, u.sequencing, r);
    FailureKeepsGrants(E, commits, signatures, u, r);
  }

  lemma HaltKeeps(E: Env, sealed: set<Blob>, commits: seq<Blob>, signatures: seq<Signature>, u: Running)
    requires RunInv(E, sealed, commits, signatures, u) && u.phase.Writing?
    ensures RunInv(E, sealed, commits, signatures, Halt(u))
  {
    hide PoolInv, EntryInv, ChannelInv, Fresh, BatchInv, SignedInv, GrantInv, ThreadInv, MemRestores, StatesAt, NextStates;
  }

  /** Entries of the two pools that carry no grant leave nothing to anchor. */
  lemma NothingGranted(E: Env, commits: seq<Blob>, u: Running)
    requires PoolInv(E, u.ram.mem, u.entries, u.current, u.sequencing) && Fresh(u.entries, u.current)
    requires GrantInv(commits, u.ram.gen, u.entries, u.current, u.sequencing, false)
    requires forall o :: o in u.sequencing ==> !Granted(u.entries[u.sequencing[o]])
    ensures GrantInv(commits, u.ram.gen, u.entries, u.current, u.sequencing, true)
  {
    hide Follows, InHistory;
  }

  lemma BeginPassKeeps(E: Env, sealed: set<Blob>, commits: seq<Blob>, signatures: seq<Signature>, u: Running)
    requires RunInv(E, sealed, commits, signatures, u) && u.phase.Rotated? && (u.sequencing == map[] || !u.keys.bumping)
    ensures RunInv(E, sealed, commits, signatures, BeginPass(u))
  {
    hide PoolInv, EntryInv, ChannelInv, SignedInv, GrantInv, ThreadInv, MemRestores, StatesAt, NextStates, FailBatch;
    if u.sequencing == map[] {
      NothingGranted(E, commits, u);
    } else if u.signer.None? || u.ram.halted {
      FailBatchKeeps(E, sealed, commits, signatures, u, u.passes + 1, Result(UNAVAILABLE, []));
    }
  }

  // one turn of the signing loop

  lemma ResolveKeepsPools(E: Env, u: Running, e: nat, r: Result, p: Phase)
    requires PoolInv(E, u.ram.mem, u.entries, u.current, u.sequencing)
    requires ChannelInv(u.entries, u.current, u.sequencing) && e in u.entries
    ensures var v := Resolve(u, e, r, p);
            PoolInv(E, v.ram.mem, v.entries, v.current, v.sequencing) && ChannelInv(v.entries, v.current, v.sequencing)
  {
    hide PoolOk;
    var v := Resolve(u, e, r, p);
    PoolFrame(E, u.ram.mem, u.entries, v.entries, u.current);
    PoolFrame(E, u.ram.mem, u.entries, v.entries, u.sequencing);
  }

  lemma ResolveKeepsEntries(E: Env, u: Running, e: nat, r: Result, p: Phase)
    requires EntryInv(E, u.entries, u.epoch) && ThreadInv(E, u.entries, u.epoch, u.threads)
    requires e in u.entries && FinalCode(r.code)
    ensures var v := Resolve(u, e, r, p);
            EntryInv(E, v.entries, v.epoch) && ThreadInv(E, v.entries, v.epoch, v.threads)
  {
    hide TextOk;
  }

  lemma MoreSignatures(before: seq<Signature>, after: seq<Signature>, entries: Entries)
    requires SignedInv(before, entries) && before <= after
    ensures SignedInv(after, entries)
  {
    forall e | e in entries && Granted(entries[e])
      ensures Signed(after, entries[e].cand, entries[e].result.value.resp)
    {
      var c, sig := entries[e].cand, entries[e].result.value.resp;
      assert Signed(before, c, sig);
      var i :| 0 <= i < |before| && before[i].signer == c.signer && before[i].text == c.text && before[i].sig == sig;
      assert after[i] == before[i];
    }
  }

  lemma ResolveKeepsSigned(E: Env, signatures: seq<Signature>, u: Running, o: Bytes, r: Result, p: Phase)
    requires PoolInv(E, u.ram.mem, u.entries, u.current, u.sequencing) && o in u.sequencing
    requires SignedInv(signatures, u.entries) && Fresh(u.entries, u.current)
    requires r.code == OK ==> Signed(signatures, u.entries[u.sequencing[o]].cand, r.resp)
    ensures var v := Resolve(u, u.sequencing[o], r, p);
            SignedInv(signatures, v.entries) && Fresh(v.entries, v.current)
  {
    hide Follows, Signed;
  }

  lemma ResolveKeepsGrants(E: Env, commits: seq<Blob>, u: Running, o: Bytes, r: Result, p: Phase)
    requires PoolInv(E, u.ram.mem, u.entries, u.current, u.sequencing) && o in u.sequencing
    requires GrantInv(commits, u.ram.gen, u.entries, u.current, u.sequencing, false)
    ensures var v := Resolve(u, u.sequencing[o], r, p);
            GrantInv(commits, v.ram.gen, v.entries, v.current, v.sequencing, false)
  {
    hide Follows, InHistory, SignedNote;
    var v := Resolve(u, u.sequencing[o], r, p);
    forall e | e in u.entries
      ensures Pending(v.entries, v.current, v.sequencing, e) == Pending(u.entries, u.current, u.sequencing, e)
    {
    }
    assert InPool(v.sequencing, v.entries, u.sequencing[o]);
  }

  lemma SignKeepsBatch(E: Env, u: Running, o: Bytes, sig: Option<Bytes>)
    requires PoolInv(E, u.ram.mem, u.entries, u.current, u.sequencing)
    requires BatchInv(u.entries, u.sequencing, u.phase) && u.phase.Signing? && o in u.phase.todo
    ensures var v := SignEntry(u, o, sig);
            v.phase.Signing? && BatchInv(v.entries, v.sequencing, v.phase)
  {
    hide Follows, SignedNote, BatchEntryOk, Resolve, SignPhase, SignResult;
    var v := SignEntry(u, o, sig);
    ResolvedEntries(u, o, sig);
    forall p | p in u.sequencing && u.sequencing[p] in v.entries ensures BatchEntryOk(v.phase, p, v.entries[u.sequencing[p]]) {
      assert BatchEntryOk(u.phase, p, u.entries[u.sequencing[p]]);
      if p == o {
        SignedHere(u, o, sig);
      } else {
        SignedElsewhere(u, o, sig, p);
      }
    }
  }

  lemma ResolvedEntries(u: Running, o: Bytes, sig: Option<Bytes>)
    requires u.phase.Signing? && o in u.sequencing && u.sequencing[o] in u.entries
    ensures var v, e := SignEntry(u, o, sig), u.sequencing[o];
            var r := SignResult(u.phase, u.entries[e].cand, sig);
            && v.entries == u.entries[e := u.entries[e].(result := Some(r))] && v.sequencing == u.sequencing
            && v.phase == SignPhase(u.phase, o, u.entries[e].cand, r)
            && v.phase.Signing? && v.phase.todo == u.phase.todo - {o} && Updates(v.phase).Keys <= Updates(u.phase).Keys + {o}
  {
    hide SignedNote, SignResult;
  }

  /** The entry of this turn. */
  lemma SignedHere(u: Running, o: Bytes, sig: Option<Bytes>)
    requires u.phase.Signing? && o in u.sequencing && u.sequencing[o] in u.entries && o in u.phase.todo
    requires BatchEntryOk(u.phase, o, u.entries[u.sequencing[o]])
    ensures var v := SignEntry(u, o, sig);
            BatchEntryOk(v.phase, o, v.entries[u.sequencing[o]])
  {
    hide SignedNote;
  }

  /** Every other entry. */
  lemma SignedElsewhere(u: Running, o: Bytes, sig: Option<Bytes>, p: Bytes)
    requires u.phase.Signing? && o in u.sequencing && u.sequencing[o] in u.entries && p != o
    requires p in u.sequencing && u.sequencing[p] in u.entries && u.sequencing[p] != u.sequencing[o]
    requires BatchEntryOk(u.phase, p, u.entries[u.sequencing[p]])
    ensures var v := SignEntry(u, o, sig);
            u.sequencing[p] in v.entries && BatchEntryOk(v.phase, p, v.entries[u.sequencing[p]])
  {
    hide SignedNote;
  }

  lemma SignKeeps(E: Env, sealed: set<Blob>, commits: seq<Blob>, before: seq<Signature>, after: seq<Signature>,
                  u: Running, o: Bytes, sig: Option<Bytes>)
    requires RunInv(E, sealed, commits, before, u) && u.phase.Signing? && o in u.phase.todo
    requires before <= after
    requires o in u.sequencing && u.sequencing[o] in u.entries
    requires var c := u.entries[u.sequencing[o]].cand;
             sig.Some? && c.signer == u.phase.signer && c.epoch == u.phase.epoch ==> Signed(after, c, sig.value)
    ensures RunInv(E, sealed, commits, after, SignEntry(u, o, sig))
  {
    hide PoolInv, EntryInv, ChannelInv, Fresh, BatchInv, SignedInv, GrantInv, ThreadInv, MemRestores, StatesAt, NextStates, Signed;
    var e := u.sequencing[o];
    var c := u.entries[e].cand;
    var r := SignResult(u.phase, c, sig);
    var p := SignPhase(u.phase, o, c, r);
    SignKeepsBatch(E, u, o, sig);
    MoreSignatures(before, after, u.entries);
    ResolveKeepsPools(E, u, e, r, p);
    ResolveKeepsEntries(E, u, e, r, p);
    ResolveKeepsSigned(E, after, u, o, r, p);
    ResolveKeepsGrants(E, commits, u, o, r, p);
  }

  lemma EndSigningKeeps(E: Env, sealed: set<Blob>, commits: seq<Blob>, signatures: seq<Signature>, u: Running)
    requires RunInv(E, sealed, commits, signatures, u) && u.phase.Signing? && u.phase.todo == {}
    ensures RunInv(E, sealed, commits, signatures, EndSigning(u))
  {
    hide PoolInv, EntryInv, ChannelInv, SignedInv, GrantInv, ThreadInv, MemRestores, StatesAt, NextStates, FailBatch;
    PoolsHaveEntries(E, u);
    hide BatchEntryOk;
    EndSigningKeepsBatch(u);
    if u.phase.failed {
      FailBatchKeeps(E, sealed, commits, signatures, u, u.passes, Result(SERVER_ERROR, []));
    } else if u.phase.updates == map[] {
      NothingGranted(E, commits, u);
    }
  }

  lemma EndSigningKeepsBatch(u: Running)
    requires u.phase.Signing? && u.phase.todo == {} && BatchInv(u.entries, u.sequencing, u.phase) && PoolsResolve(u)
    ensures !u.phase.failed ==> BatchInv(u.entries, u.sequencing, EndSigning(u).phase)
    ensures u.phase.updates == map[] ==> forall o :: o in u.sequencing ==> !Granted(u.entries[u.sequencing[o]])
  {
    hide WithResults;
  }

  lemma PoolsHaveEntries(E: Env, u: Running)
    requires PoolInv(E, u.ram.mem, u.entries, u.current, u.sequencing)
    ensures PoolsResolve(u)
  {
    hide Follows;
  }

  // commit

  /** The batch consists of notes that will re-admit, each a legal successor of the stored view. */
  lemma BatchIsLegal(E: Env, u: Running)
    requires PoolInv(E, u.ram.mem, u.entries, u.current, u.sequencing)
    requires EntryInv(E, u.entries, u.epoch) && BatchInv(u.entries, u.sequencing, u.phase) && SignerMutexHeld(u.phase)
    ensures MemRestores(E, Updates(u.phase))
    ensures forall o :: o in Updates(u.phase) ==>
              Follows(E, MemView(u.ram.mem, o), ViewOf(Updates(u.phase)[o]))
  {
    hide Follows, IsText, Restore, SignedNote;
    var updates := Updates(u.phase);
    forall o | o in updates
      ensures Restore(E, updates[o].note) == Some((o, updates[o]))
      ensures Follows(E, MemView(u.ram.mem, o), ViewOf(updates[o]))
    {
      var x := u.entries[u.sequencing[o]];
      assert updates[o] == GrantedState(x);
      PersistedNoteReadmits(E, x.cand.text, x.result.value.resp, x.cand.cp);
      assert ViewOf(updates[o]) == CandView(x.cand);
    }
  }

  lemma FollowsSelf(E: Env, v: View)
    ensures Follows(E, Some(v), v)
  {
  }

  /** A commit moves an origin to its own candidate or leaves it alone. */
  lemma PoolSurvivesCommit(E: Env, before: Mem, after: Mem, entries: Entries, p: Pool)
    requires PoolOk(E, before, entries, p)
    requires forall o :: o in p ==>
               MemView(after, o) == MemView(before, o) || MemView(after, o) == Some(CandView(entries[p[o]].cand))
    ensures PoolOk(E, after, entries, p)
  {
    hide Follows, MemView;
    forall o | o in p
      ensures Follows(E, MemView(after, o), CandView(entries[p[o]].cand))
    {
      FollowsSelf(E, CandView(entries[p[o]].cand));
    }
  }

  lemma CommitKeepsPools(E: Env, u: Running)
    requires PoolInv(E, u.ram.mem, u.entries, u.current, u.sequencing)
    requires BatchInv(u.entries, u.sequencing, u.phase) && SignerMutexHeld(u.phase)
    ensures PoolInv(E, u.ram.mem + Updates(u.phase), u.entries, u.current, u.sequencing)
  {
    hide Follows, SignedNote, Fresh;
    var updates := Updates(u.phase);
    PoolSurvivesCommit(E, u.ram.mem, u.ram.mem + updates, u.entries, u.current);
    PoolSurvivesCommit(E, u.ram.mem, u.ram.mem + updates, u.entries, u.sequencing);
  }

  lemma CommitKeepsGrants(E: Env, commits: seq<Blob>, u: Running)
    requires PoolInv(E, u.ram.mem, u.entries, u.current, u.sequencing) && Fresh(u.entries, u.current)
    requires BatchInv(u.entries, u.sequencing, u.phase) && u.phase.Publishing?
    requires GrantInv(commits, u.ram.gen, u.entries, u.current, u.sequencing, false)
    requires u.ram.gen < |commits| && commits[u.ram.gen].states == NextStates(u.ram.mem, u.phase.updates)
    ensures GrantInv(commits, u.ram.gen + 1, u.entries, u.current, u.sequencing, true)
  {
    hide Follows, SignedNote;
    var updates := u.phase.updates;
    forall e | e in u.entries && Granted(u.entries[e])
      ensures InHistory(commits, u.ram.gen + 1, u.entries[e].cand.cp.origin, GrantedNote(u.entries[e]))
    {
      var o := u.entries[e].cand.cp.origin;
      if InPool(u.sequencing, u.entries, e) {
        assert updates[o] == GrantedState(u.entries[e]);
        assert commits[u.ram.gen].states[o] == GrantedNote(u.entries[e]);
      }
    }
  }

  lemma CommitKeepsStore(E: Env, d: Durable, u: Running)
    requires DurableInv(E, d) && StoreInv(E, d.sealed, d.commits, u.ram, u.phase) && u.phase.Publishing?
    requires MemRestores(E, u.phase.updates)
    ensures StoreInv(E, d.sealed, d.commits, Published(u.ram, u.phase.updates), Finished)
  {
    hide SealedOk, Extends, Restore;
  }

  lemma CommitKeeps(E: Env, d: Durable, signatures: seq<Signature>, u: Running)
    requires DurableInv(E, d) && RunInv(E, d.sealed, d.commits, signatures, u) && u.phase.Publishing?
    ensures RunInv(E, d.sealed, d.commits, signatures, Commit(u, u.phase.updates))
  {
    hide PoolInv, EntryInv, ChannelInv, Fresh, SignedInv, GrantInv, ThreadInv, MemRestores, StatesAt, NextStates, DurableInv;
    BatchIsLegal(E, u);
    CommitKeepsPools(E, u);
    CommitKeepsGrants(E, d.commits, u);
    CommitKeepsStore(E, d, u);
  }

  // retirement

  lemma ClosedKeepsPools(E: Env, mem: Mem, entries: Entries, p: Pool, rest: Pool)
    requires PoolOk(E, mem, entries, rest)
    ensures PoolOk(E, mem, WithClosed(entries, p), rest)
  {
    hide PoolOk;
    PoolFrame(E, mem, entries, WithClosed(entries, p), rest);
  }

  lemma ClosedKeepsEntries(E: Env, entries: Entries, epoch: nat, threads: map<nat, Thread>, signatures: seq<Signature>, p: Pool)
    requires EntryInv(E, entries, epoch) && ThreadInv(E, entries, epoch, threads)
    ensures var es := WithClosed(entries, p);
            && EntryInv(E, es, epoch) && ThreadInv(E, es, epoch, threads)
            && (SignedInv(signatures, entries) ==> SignedInv(signatures, es))
  {
    hide TextOk, Signed;
  }

  lemma FinishedHasResults(entries: Entries, sequencing: Pool)
    requires BatchInv(entries, sequencing, Finished)
    ensures forall o :: o in sequencing && sequencing[o] in entries ==> entries[sequencing[o]].result.Some?
  {
  }

  lemma RetireKeepsChannels(E: Env, u: Running)
    requires PoolInv(E, u.ram.mem, u.entries, u.current, u.sequencing) && Fresh(u.entries, u.current)
    requires ChannelInv(u.entries, u.current, u.sequencing)
    requires BatchInv(u.entries, u.sequencing, u.phase) && u.phase.Finished?
    ensures var v := Retire(u);
            && ChannelInv(v.entries, v.current, v.sequencing) && Fresh(v.entries, v.current)
            && BatchInv(v.entries, v.sequencing, v.phase)
  {
    hide Follows, BatchEntryOk;
    FinishedHasResults(u.entries, u.sequencing);
  }

  lemma RetireKeepsGrants(E: Env, commits: seq<Blob>, u: Running)
    requires PoolInv(E, u.ram.mem, u.entries, u.current, u.sequencing) && Fresh(u.entries, u.current)
    requires GrantInv(commits, u.ram.gen, u.entries, u.current, u.sequencing, true)
    ensures var v := Retire(u);
            GrantInv(commits, v.ram.gen, v.entries, v.current, v.sequencing, false)
  {
    hide Follows, InHistory, SignedNote;
  }

  lemma RetireKeeps(E: Env, sealed: set<Blob>, commits: seq<Blob>, signatures: seq<Signature>, u: Running)
    requires RunInv(E, sealed, commits, signatures, u) && u.phase.Finished?
    ensures RunInv(E, sealed, commits, signatures, Retire(u))
  {
    hide PoolOk, EntryInv, ChannelInv, Fresh, BatchInv, SignedInv, GrantInv, ThreadInv, MemRestores, StatesAt, NextStates, WithClosed;
    ClosedKeepsPools(E, u.ram.mem, u.entries, u.sequencing, u.current);
    ClosedKeepsEntries(E, u.entries, u.epoch, u.threads, signatures, u.sequencing);
    RetireKeepsChannels(E, u);
    RetireKeepsGrants(E, commits, u);
    EmptyPool(E, u.ram.mem, Retire(u).entries);
  }

  lemma EmptyPool(E: Env, mem: Mem, entries: Entries)
    ensures PoolOk(E, mem, entries, map[])
  {
  }

  lemma StopKeepsChannels(E: Env, commits: seq<Blob>, signatures: seq<Signature>, u: Running)
    requires PoolInv(E, u.ram.mem, u.entries, u.current, u.sequencing) && Fresh(u.entries, u.current)
    requires ChannelInv(u.entries, u.current, u.sequencing)
    requires u.sequencing == map[] && SignedInv(signatures, u.entries)
    requires GrantInv(commits, u.ram.gen, u.entries, u.current, u.sequencing, false)
    ensures var v := StopPools(u);
            && ChannelInv(v.entries, v.current, v.sequencing)
            && GrantInv(commits, v.ram.gen, v.entries, v.current, v.sequencing, false)
            && SignedInv(signatures, v.entries)
  {
    hide Follows, InHistory, SignedNote, Signed;
  }

  lemma StopKeeps(E: Env, sealed: set<Blob>, commits: seq<Blob>, signatures: seq<Signature>, u: Running)
    requires RunInv(E, sealed, commits, signatures, u) && u.phase.Idle?
    ensures RunInv(E, sealed, commits, signatures, StopPools(u))
  {
    hide PoolOk, EntryInv, ChannelInv, SignedInv, GrantInv, ThreadInv, MemRestores, StatesAt, NextStates, WithClosed, WithResults;
    var es := WithResults(u.entries, u.current, Result(UNAVAILABLE, []));
    ResultsKeepEntries(E, u.entries, u.epoch, u.threads, u.current, Result(UNAVAILABLE, []));
    ClosedKeepsEntries(E, es, u.epoch, u.threads, [], u.current);
    StopKeepsChannels(E, commits, signatures, u);
    EmptyPool(E, u.ram.mem, StopPools(u).entries);
  }
}
