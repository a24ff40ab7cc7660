/** The Witness object: its fields and mutex regions, each proved to be the step of the machine
    that bears its name. */
module WitnessService {
  import opened Common
  import opened Merkle
  import opened Notes
  import opened StoreModel
  import opened Sequencer
  import opened Slots
  import opened Store
  import Anchors
  import Wire

  /** A submission is turned away with a status, or proceeds under the signer it saw. */
  datatype Begun = Turned(code: nat) | Proceed(signer: Signer, prep: Prepared)

  /** The batch once the signing loop is over. */
  function AfterSigning(u: Running, sigs: map<Bytes, Option<Bytes>>): Running
    requires u.phase.Rotated? && PoolsResolve(u) && BeginPass(u).phase.Signing?
  {
    EndSigning(SignedState(BeginPass(u), sigs, u.sequencing.Keys))
  }

  /** Whether a pass gets as far as PutBatch. */
  predicate PassPuts(u: Running, sigs: map<Bytes, Option<Bytes>>)
    requires u.phase.Rotated? && PoolsResolve(u)
  {
    BeginPass(u).phase.Signing? && AfterSigning(u, sigs).phase.Writing?
  }

  /** The witness at the end of sequencePool, given how PutBatch ended and the RAM it left. */
  function PassResult(u: Running, sigs: map<Bytes, Option<Bytes>>, put: Option<PutResult>, ram: Ram): Running
    requires u.phase.Rotated? && PoolsResolve(u)
  {
    if !BeginPass(u).phase.Signing? then BeginPass(u)
    else if !PassPuts(u, sigs) then AfterSigning(u, sigs)
    else
      var e := AfterSigning(u, sigs);
      if put == Some(Committed) then Commit(e, e.phase.updates) else CommitFailed(e.(ram := ram))
  }

  class Witness {
    const store: RollbackStore
    var signer: Option<Signer>
    var epoch: nat
    var entries: Entries
    var current: Pool
    var sequencing: Pool
    var committed: nat
    var failed: nat
    ghost var passes: nat

    /** The state of the machine's witness, with the sequencer at phase p. */
    ghost function Now(p: Phase): Running
      reads this, store, store.mem
    {
      Running(store.Ram(), signer, epoch, entries, current, sequencing, p, map[], committed, failed, passes, 0, false,
              Keys(None, {}, Resting, false))
    }

    constructor (store: RollbackStore)
      ensures this.store == store && fresh(this)
      ensures Now(Idle) == Booted(store.Ram()).(bootGen := 0, bootHalted := false)
    {
      this.store := store;
      signer, epoch, entries, current, sequencing := None, 0, map[], map[], map[];
      committed, failed, passes := 0, 0, 0;
    }

    method SetSigner(s: Signer)
      modifies this`signer, this`epoch
      ensures signer == Some(s) && epoch == old(epoch) + 1
    {
      signer := Some(s);
      epoch := epoch + 1;
    }

    method ClearSigner()
      modifies this`signer, this`epoch
      ensures signer == None && epoch == old(epoch) + 1
    {
      signer := None;
      epoch := epoch + 1;
    }

    // ----- AddCheckpoint -----

    /** The head of AddCheckpoint, before any lock: refuse, or carry the signer and the parsed
        request on. */
    method Begin(body: Bytes) returns (r: Begun)
      ensures (signer.None? || store.halted) ==> r == Turned(503)
      ensures signer.Some? && !store.halted ==>
                r == match Prepare(store.E, body)
                     case None => Turned(400)
                     case Some(prep) => Proceed(signer.value, prep)
    {
      hide Wire.ParseBody, CutText;
      if signer.None? || store.halted {
        return Turned(UNAVAILABLE);
      }
      var req := Wire.ParseRequest(body);
      if req.None? {
        return Turned(BAD_REQUEST);
      }
      var text := CutText(req.value.note);
      if text.None? {
        return Turned(BAD_REQUEST);
      }
      var cp := store.E.parse(text.value);
      if cp.None? || req.value.size > cp.value.n {
        return Turned(BAD_REQUEST);
      }
      return Proceed(signer.value, Prepared(req.value.size, req.value.proof, cp.value, text.value));
    }

    method LatestSize(origin: Bytes) returns (latest: nat)
      ensures latest == Latest(MemView(store.mem.states, origin))
    {
      var prev := store.mem.Get(origin);
      return if prev.Some? then prev.value.size else 0;
    }

    method MatchPendingEntry(e: nat, c: Candidate) returns (v: Verdict)
      requires e in entries
      ensures v == MatchPending(entries, e, store.mem.states, c)
    {
      var p := entries[e].cand;
      if p.signer == c.signer && p.epoch == c.epoch && p.cp.n == c.cp.n && p.cp.hash == c.cp.hash && p.text == c.text {
        return Join(e);
      }
      var latest := LatestSize(c.cp.origin);
      return Refuse(Result(CONFLICT, Decimal(latest) + [NEWLINE]));
    }

    /** addToPool: validate and admit a candidate; `id` names the entry it allocates. */
    method AddToPool(size: nat, proof: seq<Digest>, c: Candidate, id: nat) returns (v: Verdict)
      requires PoolsResolve(Now(Idle)) && id !in entries
      modifies this`entries, this`current
      ensures v == Decision(store.E.hasher, old(Now(Idle)), size, proof, c)
      ensures Now(Idle) == if v.Admit? then Admission(old(Now(Idle)), id, c) else old(Now(Idle))
    {
      hide CheckTree;
      var cp := c.cp;
      if cp.origin in current {
        v := MatchPendingEntry(current[cp.origin], c);
        return;
      }
      if cp.origin in sequencing {
        v := MatchPendingEntry(sequencing[cp.origin], c);
        return;
      }
      if |current| >= MAX_POOL {
        return Refuse(Result(TOO_MANY, []));
      }
      var prev := store.mem.Get(cp.origin);
      var latest := if prev.Some? then prev.value.size else 0;
      if size != latest {
        return Refuse(Result(CONFLICT, Decimal(latest) + [NEWLINE]));
      }
      if cp.n == 0 {
        if proof != [] || cp.hash != store.E.hasher.empty {
          return Refuse(Result(UNPROCESSABLE, []));
        }
      } else if size == cp.n {
        if proof != [] || prev.None? || cp.hash != prev.value.hash {
          return Refuse(Result(UNPROCESSABLE, []));
        }
      } else if size == 0 {
        if proof != [] {
          return Refuse(Result(UNPROCESSABLE, []));
        }
      } else if prev.None? || !CheckTree(store.E.hasher, proof, cp.n, cp.hash, size, prev.value.hash) {
        return Refuse(Result(UNPROCESSABLE, []));
      }
      entries := entries[id := Entry(c, None, 0, epoch)];
      current := current[cp.origin := id];
      return Admit;
    }

    // ----- the sequencer -----

    method RotatePools()
      modifies this`current, this`sequencing
      ensures Now(Rotated) == Rotate(old(Now(Idle)))
    {
      sequencing := current;
      current := map[];
    }

    /** setPoolResult. */
    method SetPoolResult(p: Pool, r: Result)
      requires OwnPool(entries, p)
      modifies this`entries
      ensures entries == WithResults(old(entries), p, r)
    {
      var rest := p.Keys;
      while rest != {}
        invariant rest <= p.Keys && entries.Keys == old(entries).Keys
        invariant forall e :: e in entries ==>
                    entries[e] == if InPool(p, old(entries), e) && old(entries)[e].cand.cp.origin !in rest
                                  then old(entries)[e].(result := Some(r)) else old(entries)[e]
        decreases rest
      {
        var o :| o in rest;
        entries := entries[p[o] := entries[p[o]].(result := Some(r))];
        rest := rest - {o};
      }
    }

    /** close(entry.done) for every entry of a pool. */
    method ClosePool(p: Pool)
      requires OwnPool(entries, p)
      modifies this`entries
      ensures entries == WithClosed(old(entries), p)
    {
      var rest := p.Keys;
      while rest != {}
        invariant rest <= p.Keys && entries.Keys == old(entries).Keys
        invariant forall e :: e in entries ==>
                    entries[e] == if InPool(p, old(entries), e) && old(entries)[e].cand.cp.origin !in rest
                                  then old(entries)[e].(closed := old(entries)[e].closed + 1) else old(entries)[e]
        decreases rest
      {
        var o :| o in rest;
        entries := entries[p[o] := entries[p[o]].(closed := entries[p[o]].closed + 1)];
        rest := rest - {o};
      }
    }

    method FailPool(r: Result, ghost p: Phase)
      requires PoolsResolve(Now(p))
      modifies this`entries, this`failed
      ensures Now(Finished) == FailBatch(old(Now(p)), r)
    {
      failed := failed + 1;
      SetPoolResult(sequencing, r);
    }

    /** One turn of the signing loop. */
    method SignOne(s: Signer, ep: nat, origin: Bytes, sig: Option<Bytes>, ghost rest: set<Bytes>, states: Mem, signFailed: bool)
      returns (more: Mem, failedNow: bool)
      requires origin in sequencing && sequencing[origin] in entries
      modifies this`entries
      ensures Now(Signing(s, ep, rest - {origin}, more, failedNow))
           == SignEntry(old(Now(Signing(s, ep, rest, states, signFailed))), origin, sig)
    {
      hide SignedNote;
      more, failedNow := states, signFailed;
      var e := sequencing[origin];
      var cand := entries[e].cand;
      if cand.signer != s || cand.epoch != ep {
        entries := entries[e := entries[e].(result := Some(Result(UNAVAILABLE, [])))];
      } else if sig.None? {
        entries := entries[e := entries[e].(result := Some(Result(SERVER_ERROR, [])))];
        failedNow := true;
      } else {
        entries := entries[e := entries[e].(result := Some(Result(OK, sig.value)))];
        more := states[origin := LogState(cand.cp.n, cand.cp.hash, SignedNote(cand.text, sig.value))];
      }
    }

    /** The signing loop of sequencePool; `sigs` is what the signer returns for each origin. */
    method SignPool(s: Signer, ep: nat, sigs: map<Bytes, Option<Bytes>>) returns (states: Mem, signFailed: bool)
      requires PoolsResolve(Now(Idle))
      modifies this`entries
      ensures var b := old(Now(Signing(s, ep, sequencing.Keys, map[], false)));
              Now(Signing(s, ep, {}, states, signFailed)) == SignedState(b, sigs, sequencing.Keys)
    {
      hide SignedState, SignEntry;
      ghost var b := Now(Signing(s, ep, sequencing.Keys, map[], false));
      var rest := sequencing.Keys;
      states := map[];
      signFailed := false;
      NothingSigned(b, sigs);
      assert sequencing.Keys - rest == {};
      while rest != {}
        invariant rest <= sequencing.Keys
        invariant Now(Signing(s, ep, rest, states, signFailed)) == SignedState(b, sigs, sequencing.Keys - rest)
        decreases rest
      {
        var origin :| origin in rest;
        SignTurn(b, sigs, sequencing.Keys - rest, origin);
        SignedKeepsPools(b, sigs, sequencing.Keys - rest);
        states, signFailed := SignOne(s, ep, origin, SigFor(sigs, origin), rest, states, signFailed);
        assert sequencing.Keys - (rest - {origin}) == sequencing.Keys - rest + {origin};
        rest := rest - {origin};
      }
      assert sequencing.Keys - {} == sequencing.Keys;
    }

    /** sequencePool, under the signer mutex: sign the whole batch, commit it as one generation,
        and only then leave any 200 standing. */
    method SequencePool(sigs: map<Bytes, Option<Bytes>>, nonce: Option<Bytes>, fault: WriteFault, outcome: AnchorOutcome)
      returns (put: Option<PutResult>)
      requires store.Valid() && PoolsResolve(Now(Rotated)) && (nonce.Some? ==> |nonce.value| == NONCE_LEN)
      modifies this, store, store.mem, store.dev, store.anchor
      ensures put.Some? <==> PassPuts(old(Now(Rotated)), sigs)
      ensures Now(Finished) == PassResult(old(Now(Rotated)), sigs, put, store.Ram())
      ensures store.Valid() && (put.None? ==> store.View() == old(store.View()))
      ensures put.Some? && old(store.View()).anchor.Some? ==>
                PutEnds(old(store.View()), store.View(), AfterSigning(old(Now(Rotated)), sigs).phase.updates, put.value, outcome)
    {
      hide FailBatch, SignedState, EndSigning, Commit, OwnPool, PutEnds, CommitFailed;
      if sequencing == map[] {
        return None;
      }
      passes := passes + 1;
      if signer.None? || store.halted {
        FailPool(Result(UNAVAILABLE, []), Rotated);
        return None;
      }
      ghost var b := Now(Signing(signer.value, epoch, sequencing.Keys, map[], false));
      var states, signFailed := SignPool(signer.value, epoch, sigs);
      SignedKeepsPools(b, sigs, sequencing.Keys);
      put := CommitPool(signer.value, epoch, states, signFailed, nonce, fault, outcome);
    }

    /** The tail of sequencePool: what becomes of the signed batch. */
    method CommitPool(ghost s: Signer, ghost ep: nat, states: Mem, signFailed: bool,
                      nonce: Option<Bytes>, fault: WriteFault, outcome: AnchorOutcome)
      returns (put: Option<PutResult>)
      requires store.Valid() && PoolsResolve(Now(Signing(s, ep, {}, states, signFailed)))
      requires nonce.Some? ==> |nonce.value| == NONCE_LEN
      modifies this, store, store.mem, store.dev, store.anchor
      ensures store.Valid() && (put.None? ==> store.View() == old(store.View()))
      ensures var e := EndSigning(old(Now(Signing(s, ep, {}, states, signFailed))));
              && (put.Some? <==> e.phase.Writing?)
              && Now(Finished) == (if put.None? then e
                                   else if put.value == Committed then Commit(e, e.phase.updates)
                                   else CommitFailed(e.(ram := store.Ram())))
              && (put.Some? && old(store.View()).anchor.Some? ==>
                    PutEnds(old(store.View()), store.View(), e.phase.updates, put.value, outcome))
    {
      hide WithResults, Writable, OwnPool, ParseSlot, ReadBlob, SlotBytes, Anchors.SectorOp, Anchors.DecodeRecord, Lawful, NextStates, PutEnds;
      if signFailed {
        FailPool(Result(SERVER_ERROR, []), Signing(s, ep, {}, states, true));
        return None;
      }
      if states == map[] {
        failed := failed + 1;
        return None;
      }
      var r := PutBatchSeen(store, states, nonce, fault, outcome);
      if r != Committed {
        FailPool(Result(SERVER_ERROR, []), Writing(states));
        return Some(r);
      }
      committed := committed + 1;
      return Some(r);
    }

    /** The retirement region of sequence. */
    method RetirePools()
      requires PoolsResolve(Now(Finished))
      modifies this`entries, this`sequencing
      ensures Now(Idle) == Retire(old(Now(Finished)))
    {
      var p := sequencing;
      sequencing := map[];
      ClosePool(p);
    }

    method Stop()
      requires OwnPool(entries, current)
      modifies this`entries, this`current
      ensures Now(Idle) == StopPools(old(Now(Idle)))
    {
      SetPoolResult(current, Result(UNAVAILABLE, []));
      ClosePool(current);
      current := map[];
    }
  }

  lemma SignedKeepsPools(u: Running, sigs: map<Bytes, Option<Bytes>>, done: set<Bytes>)
    requires u.phase.Signing? && PoolsResolve(u) && done <= u.sequencing.Keys
    ensures PoolsResolve(SignedState(u, sigs, done))
  {
  }
}
