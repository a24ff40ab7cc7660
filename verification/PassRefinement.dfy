/** One pass of the Witness object over its bytes - rotate, sequence, retire - is a run of the
    machine, so every theorem about runs speaks about the object. */
module PassRefinement {
  import opened Common
  import opened Merkle
  import opened Notes
  import opened StoreModel
  import opened Sequencer
  import opened System
  import opened Frames
  import opened Slots
  import opened Store
  import opened WitnessService
  import opened Refinement
  import opened Progress
  import Anchors

  /** What the object holds of the machine's witness: everything but the requests in flight, the
      key store of the provisioning server and the record of the boot. */
  function Held(u: Running): Running {
    u.(threads := map[], bootGen := 0, bootHalted := false, keys := Keys(None, {}, Resting, false))
  }

  lemma HeldPools(u: Running)
    ensures Held(Rotate(u)) == Rotate(Held(u)) && Held(Retire(u)) == Retire(Held(u))
    ensures PoolsResolve(u) <==> PoolsResolve(Held(u))
  {
    hide WithClosed, OwnPool;
  }

  lemma HeldFailure(u: Running, r: Result)
    ensures Held(FailBatch(u, r)) == FailBatch(Held(u), r)
  {
    hide WithResults;
  }

  lemma HeldBegins(u: Running)
    ensures Held(BeginPass(u)) == BeginPass(Held(u))
  {
    hide FailBatch;
    HeldFailure(u.(passes := u.passes + 1), Result(UNAVAILABLE, []));
  }

  lemma HeldSigns(u: Running, sigs: map<Bytes, Option<Bytes>>, done: set<Bytes>)
    requires u.phase.Signing? && PoolsResolve(u) && done <= u.sequencing.Keys && PoolsResolve(Held(u))
    ensures Held(SignedState(u, sigs, done)) == SignedState(Held(u), sigs, done)
  {
    hide SignedNote, SignResult, OwnPool;
    assert SignedEntries(u, sigs, done) == SignedEntries(Held(u), sigs, done);
    assert SignedUpdates(u, sigs, done) == SignedUpdates(Held(u), sigs, done);
  }

  lemma HeldEnds(u: Running)
    requires u.phase.Signing?
    ensures Held(EndSigning(u)) == EndSigning(Held(u))
  {
    hide FailBatch;
    HeldFailure(u, Result(SERVER_ERROR, []));
  }

  /** The end of a pass as the object sees it. */
  lemma HeldResult(u: Running, sigs: map<Bytes, Option<Bytes>>, put: Option<PutResult>, ram: Ram)
    requires u.phase.Rotated? && PoolsResolve(u) && PoolsResolve(Held(u))
    ensures Held(PassResult(u, sigs, put, ram)) == PassResult(Held(u), sigs, put, ram)
    ensures PassPuts(u, sigs) <==> PassPuts(Held(u), sigs)
    ensures PassPuts(u, sigs) ==> AfterSigning(u, sigs).phase == AfterSigning(Held(u), sigs).phase
  {
    hide BeginPass, SignedEntries, SignedUpdates, SigningFails, EndSigning, FailBatch, OwnPool;
    HeldBegins(u);
    Begins(u);
    Begins(Held(u));
    if BeginPass(u).phase.Signing? {
      HeldSigns(BeginPass(u), sigs, u.sequencing.Keys);
      HeldEnds(SignedState(BeginPass(u), sigs, u.sequencing.Keys));
      HeldFailure(AfterSigning(u, sigs).(ram := ram), Result(SERVER_ERROR, []));
    }
  }

  lemma Begins(u: Running)
    requires PoolsResolve(u)
    ensures BeginPass(u).sequencing == u.sequencing
    ensures BeginPass(u).phase.Signing? ==>
              && PoolsResolve(BeginPass(u))
              && BeginPass(u).phase.todo == u.sequencing.Keys && BeginPass(u).phase.updates == map[] && !BeginPass(u).phase.failed
  {
    hide OwnPool, FailBatch;
    FailFrame(u.(passes := u.passes + 1), Result(UNAVAILABLE, []));
  }

  // ----- the pass as a run -----

  lemma {:induction false} Ordered(keys: set<Bytes>) returns (order: seq<Bytes>)
    ensures Distinct(order) && (set o | o in order) == keys
    decreases |keys|
  {
    order := [];
    if keys != {} {
      var k :| k in keys;
      var rest := Ordered(keys - {k});
      assert forall o :: o in rest <==> o in keys - {k} by {
        assert forall o :: o in rest <==> o in (set x | x in rest);
      }
      order := rest + [k];
      assert forall o :: o in order <==> o in keys;
    }
  }

  lemma LockStep(E: Env, s: State)
    requires s.v.Up? && s.v.run.phase.Rotated? && !s.v.run.keys.bumping
    ensures Step(E, s, LockSigner) == s.(v := Up(BeginPass(s.v.run)))
  {
    hide BeginPass;
  }

  lemma DoneStep(E: Env, s: State)
    requires s.v.Up? && s.v.run.phase.Signing? && s.v.run.phase.todo == {}
    ensures Step(E, s, SigningDone) == s.(v := Up(EndSigning(s.v.run)))
  {
    hide EndSigning;
  }

  /** Locking and signing, in some order of the batch. */
  lemma SigningRun(E: Env, s: State, sigs: map<Bytes, Option<Bytes>>) returns (events: seq<Event>)
    requires s.v.Up? && s.v.run.phase.Rotated? && !s.v.run.keys.bumping && PoolsResolve(s.v.run)
    requires BeginPass(s.v.run).phase.Signing?
    ensures var t := Steps(E, s, events);
            t.v == Up(AfterSigning(s.v.run, sigs)) && t.d == s.d && t.releases == s.releases
  {
    hide Step, Steps, BeginPass, EndSigning, OwnPool, SignedEntries, SignedUpdates, SigningFails, SignEvents;
    var u := s.v.run;
    Begins(u);
    LockStep(E, s);
    OneStep(E, s, LockSigner);
    var s1 := Step(E, s, LockSigner);
    var order := Ordered(u.sequencing.Keys);
    assert forall o :: o in order ==> o in (set x | x in order);
    SigningLoopIsARun(E, s1, order, sigs);
    var s2 := Steps(E, s1, SignEvents(order, sigs));
    DoneStep(E, s2);
    OneStep(E, s2, SigningDone);
    events := [LockSigner] + SignEvents(order, sigs) + [SigningDone];
    StepsCompose(E, s, [LockSigner], SignEvents(order, sigs));
    StepsCompose(E, s, [LockSigner] + SignEvents(order, sigs), [SigningDone]);
  }

  lemma SigningLeavesStore(u: Running, sigs: map<Bytes, Option<Bytes>>)
    requires u.phase.Rotated? && PoolsResolve(u) && BeginPass(u).phase.Signing?
    ensures SameRest(u, AfterSigning(u, sigs))
  {
    hide BeginPass, EndSigning, SignedEntries, SignedUpdates, SigningFails, OwnPool;
    PassFrame(u);
    Begins(u);
    PassFrame(SignedState(BeginPass(u), sigs, u.sequencing.Keys));
  }

  /** What PutBatch did to the store in a pass, if the pass got that far. */
  ghost predicate PassPut(s: State, sigs: map<Bytes, Option<Bytes>>, put: Option<PutResult>, after: Shown, outcome: AnchorOutcome)
    requires s.v.Up? && s.v.run.phase.Rotated? && PoolsResolve(s.v.run)
  {
    && (put.Some? <==> PassPuts(s.v.run, sigs))
    && (put.None? ==> after == ShownBy(s))
    && (put.Some? ==> PutEnds(ShownBy(s), after, AfterSigning(s.v.run, sigs).phase.updates, put.value, outcome))
  }

  /** The ideal-seal assumptions for the batch of a pass. */
  ghost predicate PassSealIsIdeal(s: State, sigs: map<Bytes, Option<Bytes>>, put: Option<PutResult>, after: Shown)
    requires s.v.Up? && s.v.run.phase.Rotated? && PoolsResolve(s.v.run) && (put.Some? ==> PassPuts(s.v.run, sigs))
  {
    put.Some? ==> SealIsIdeal(s.(v := Up(AfterSigning(s.v.run, sigs))), after, put.value)
  }

  lemma SequenceRun(E: Env, s: State, sigs: map<Bytes, Option<Bytes>>, put: Option<PutResult>, after: Shown, outcome: AnchorOutcome, h: Digest)
    returns (events: seq<Event>)
    requires s.v.Up? && s.v.run.phase.Rotated? && !s.v.run.keys.bumping && PoolsResolve(s.v.run) && Unused(s.d.sealed, h)
    requires PassPut(s, sigs, put, after, outcome) && PassSealIsIdeal(s, sigs, put, after)
    ensures var t := Steps(E, s, events);
            && t.v == Up(PassResult(s.v.run, sigs, put, after.ram)) && ShownBy(t) == after && t.releases == s.releases
  {
    hide Step, Steps, BeginPass, SignedState, EndSigning, OwnPool, PutEnds, SealIsIdeal, Unused, CommitFailed;
    var u := s.v.run;
    if !BeginPass(u).phase.Signing? {
      PassFrame(u);
      LockStep(E, s);
      OneStep(E, s, LockSigner);
      events := [LockSigner];
    } else {
      SigningLeavesStore(u, sigs);
      events := SigningRun(E, s, sigs);
      if PassPuts(u, sigs) {
        var s1 := Steps(E, s, events);
        SealSees(s1, s.(v := Up(AfterSigning(u, sigs))), after, put.value);
        var more := PutRun(E, s1, after, put.value, outcome, h);
        StepsCompose(E, s, events, more);
        events := events + more;
      }
    }
  }

  lemma SealSees(s: State, t: State, after: Shown, r: PutResult)
    requires s.v == t.v && s.d == t.d && s.v.Up? && s.v.run.phase.Writing?
    ensures SealIsIdeal(s, after, r) <==> SealIsIdeal(t, after, r)
  {
  }

  lemma FailureResolves(u: Running, r: Result)
    requires PoolsResolve(u)
    ensures PoolsResolve(FailBatch(u, r))
  {
  }

  lemma SigningResolves(u: Running, sigs: map<Bytes, Option<Bytes>>)
    requires u.phase.Rotated? && PoolsResolve(u) && BeginPass(u).phase.Signing?
    ensures PoolsResolve(AfterSigning(u, sigs))
  {
    hide OwnPool, FailBatch, BeginPass, SignedEntries, SignedUpdates, SigningFails;
    Begins(u);
    SignedKeepsPools(BeginPass(u), sigs, u.sequencing.Keys);
    FailureResolves(SignedState(BeginPass(u), sigs, u.sequencing.Keys), Result(SERVER_ERROR, []));
  }

  /** Every pool still resolves at the end of a pass. */
  lemma PassResolves(u: Running, sigs: map<Bytes, Option<Bytes>>, put: Option<PutResult>, ram: Ram)
    requires u.phase.Rotated? && PoolsResolve(u)
    ensures PoolsResolve(PassResult(u, sigs, put, ram)) && PoolsResolve(Retire(PassResult(u, sigs, put, ram)))
  {
    hide AfterSigning, FailBatch, OwnPool, WithClosed;
    FailureResolves(u.(passes := u.passes + 1), Result(UNAVAILABLE, []));
    if BeginPass(u).phase.Signing? {
      SigningResolves(u, sigs);
      FailureResolves(AfterSigning(u, sigs).(ram := ram), Result(SERVER_ERROR, []));
    }
    RetiredResolves(PassResult(u, sigs, put, ram));
  }

  lemma RotatedResolves(u: Running)
    requires PoolsResolve(u)
    ensures PoolsResolve(Rotate(u))
  {
  }

  lemma RetiredResolves(u: Running)
    requires PoolsResolve(u)
    ensures PoolsResolve(Retire(u))
  {
  }

  /** The machine state mirrors the object between passes: its store, pools, entries, signer, epoch
      and counters. */
  ghost predicate WitnessMirrors(s: State, w: Witness)
    reads w, w.store, w.store.mem, w.store.dev, w.store.anchor
  {
    Mirrors(s, w.store) && s.v.run.phase.Idle? && Held(s.v.run) == w.Now(Idle) && PoolsResolve(s.v.run)
  }

  lemma RotateStep(E: Env, s: State)
    requires s.v.Up? && s.v.run.phase.Idle?
    ensures Steps(E, s, [RotatePool]) == s.(v := Up(Rotate(s.v.run)))
  {
    OneStep(E, s, RotatePool);
  }

  lemma RetirementStep(E: Env, s: State)
    requires s.v.Up? && s.v.run.phase.Finished?
    ensures Steps(E, s, [RetirePool]) == s.(v := Up(Retire(s.v.run)))
  {
    hide Retire;
    OneStep(E, s, RetirePool);
  }

  lemma PassFinishes(u: Running, sigs: map<Bytes, Option<Bytes>>, put: Option<PutResult>, ram: Ram)
    requires u.phase.Rotated? && PoolsResolve(u)
    ensures PassResult(u, sigs, put, ram).phase.Finished?
  {
    hide FailBatch, SignedEntries, SignedUpdates, SigningFails, OwnPool, BeginPass;
    BeginFinishes(u);
    if BeginPass(u).phase.Signing? {
      Begins(u);
      FailFrame(SignedState(BeginPass(u), sigs, u.sequencing.Keys), Result(SERVER_ERROR, []));
      FailureFrame(AfterSigning(u, sigs).(ram := ram));
    }
  }

  lemma BeginFinishes(u: Running)
    ensures BeginPass(u).phase.Signing? || BeginPass(u).phase.Finished?
  {
    hide FailBatch;
    FailFrame(u.(passes := u.passes + 1), Result(UNAVAILABLE, []));
  }

  /** A whole pass of the object - rotate, sign, commit with any fault, retire - is a run of the
      machine, under the ideal-seal assumptions: the object mirrors the state after the run as it
      mirrored the state before. */
  method PassSimulates(w: Witness, sigs: map<Bytes, Option<Bytes>>, nonce: Option<Bytes>, fault: WriteFault, outcome: AnchorOutcome,
                       ghost s: State, ghost h: Digest)
    returns (put: Option<PutResult>, ghost events: seq<Event>)
    requires WitnessMirrors(s, w) && !s.v.run.keys.bumping && Unused(s.d.sealed, h)
    requires nonce.Some? ==> |nonce.value| == NONCE_LEN
    modifies w, w.store, w.store.mem, w.store.dev, w.store.anchor
    ensures w.store.Valid()
    ensures var rotated := s.(v := Up(Rotate(s.v.run)));
            && PoolsResolve(rotated.v.run) && (put.Some? ==> PassPuts(rotated.v.run, sigs))
            && (PassSealIsIdeal(rotated, sigs, put, w.store.View()) ==>
                  var t := Steps(w.store.E, s, events);
                  WitnessMirrors(t, w) && t.releases == s.releases)
  {
    hide ParseSlot, ReadBlob, SlotBytes, Lawful, Steps, PutEnds, Unused, OwnPool, PassSealIsIdeal, PassResult, AfterSigning, Retire, BeginPass,
         Anchors.DecodeRecord;
    ghost var u := Rotate(s.v.run);
    ghost var rotated := s.(v := Up(u));
    HeldPools(s.v.run);
    HeldPools(u);
    RotatedResolves(s.v.run);
    w.RotatePools();
    put := w.SequencePool(sigs, nonce, fault, outcome);
    ghost var ram, after := w.store.Ram(), w.store.View();
    HeldResult(u, sigs, put, ram);
    PassResolves(u, sigs, put, ram);
    PassFinishes(u, sigs, put, ram);
    ghost var fin := PassResult(u, sigs, put, ram);
    HeldPools(fin);
    w.RetirePools();
    events := [];
    if PassSealIsIdeal(rotated, sigs, put, after) {
      RotateStep(w.store.E, s);
      events := SequenceRun(w.store.E, rotated, sigs, put, after, outcome, h);
      ghost var ended := Steps(w.store.E, rotated, events);
      RetirementStep(w.store.E, ended);
      StepsCompose(w.store.E, s, [RotatePool], events);
      StepsCompose(w.store.E, s, [RotatePool] + events, [RetirePool]);
      events := [RotatePool] + events + [RetirePool];
    }
  }
}
