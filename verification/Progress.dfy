/** A pass in which nothing fails answers everyone: every request made under the present signer and
    epoch is cosigned, committed and granted, and every other one is turned away. */
module Progress {
  import opened Common
  import opened Merkle
  import opened Notes
  import opened StoreModel
  import opened Sequencer
  import opened System
  import opened Invariants
  import opened Preservation
  import opened Refinement

  /** An entry admitted under the present signer and epoch. */
  predicate Current(u: Running, c: Candidate) {
    u.signer == Some(c.signer) && u.epoch == c.epoch
  }

  /** The pool is visited in some order. */
  ghost predicate Visits(u: Running, order: seq<Bytes>) {
    Distinct(order) && (set o | o in order) == u.current.Keys
  }

  /** Signatures are available for the whole pool. */
  ghost predicate Signable(u: Running, sigs: map<Bytes, Option<Bytes>>) {
    forall o :: o in u.current ==> o in sigs && sigs[o].Some?
  }

  function SigningEvents(order: seq<Bytes>, sigs: map<Bytes, Option<Bytes>>): seq<Event> {
    [RotatePool, LockSigner] + SignEvents(order, sigs)
  }

  function CommittingEvents(hash: Digest): seq<Event> {
    [WriteSlot(true, hash, Completed), WriteAnchor(Acked), Publish]
  }

  function PassEvents(order: seq<Bytes>, sigs: map<Bytes, Option<Bytes>>, hash: Digest): seq<Event> {
    SigningEvents(order, sigs) + [SigningDone] + CommittingEvents(hash) + [RetirePool]
  }

  lemma {:induction false} StepsCompose(E: Env, s: State, a: seq<Event>, b: seq<Event>)
    ensures Steps(E, s, a + b) == Steps(E, Steps(E, s, a), b)
    decreases |b|
  {
    hide Step;
    if b == [] {
      assert a + b == a;
    } else {
      var all, init := a + b, b[..|b| - 1];
      StepsCompose(E, s, a, init);
      assert all[..|all| - 1] == a + init && all[|all| - 1] == b[|b| - 1];
    }
  }

  /** The batch as the signing loop finds it. */
  function Locked(u: Running): Running
    requires u.signer.Some?
  {
    u.(current := map[], sequencing := u.current, passes := u.passes + 1,
       phase := Signing(u.signer.value, u.epoch, u.current.Keys, map[], false))
  }

  lemma LockedResolves(u: Running)
    requires PoolsResolve(u) && u.signer.Some?
    ensures PoolsResolve(Locked(u))
  {
  }

  lemma PassBegins(E: Env, s: State)
    requires s.v.Up? && s.v.run.phase.Idle? && !s.v.run.ram.halted && s.v.run.signer.Some? && s.v.run.current != map[] && !s.v.run.keys.bumping
    ensures Steps(E, s, [RotatePool, LockSigner]) == s.(v := Up(Locked(s.v.run)))
  {
    hide FailBatch;
    TwoSteps(E, s, RotatePool, LockSigner);
  }

  lemma PassSigns(E: Env, s: State, order: seq<Bytes>, sigs: map<Bytes, Option<Bytes>>)
    requires s.v.Up? && s.v.run.phase.Idle? && !s.v.run.ram.halted && s.v.run.signer.Some? && s.v.run.current != map[] && !s.v.run.keys.bumping
    requires PoolsResolve(s.v.run) && Visits(s.v.run, order)
    ensures PoolsResolve(Locked(s.v.run))
    ensures var t := Steps(E, s, SigningEvents(order, sigs));
            && t.d == s.d && t.releases == s.releases
            && t.v == Up(SignedState(Locked(s.v.run), sigs, s.v.run.current.Keys))
  {
    hide Steps, PoolsResolve, SignedState;
    LockedResolves(s.v.run);
    PassBegins(E, s);
    var v := Locked(s.v.run);
    var mid := s.(v := Up(v));
    assert forall o :: o in order ==> o in v.sequencing by {
      assert forall o :: o in order ==> o in (set o | o in order);
    }
    SigningLoopIsARun(E, mid, order, sigs);
    StepsCompose(E, s, [RotatePool, LockSigner], SignEvents(order, sigs));
  }

  /** The result of one pool entry after the signing loop. */
  function LoopAnswer(u: Running, sigs: map<Bytes, Option<Bytes>>, o: Bytes): Result
    requires o in u.current && u.current[o] in u.entries && Signable(u, sigs)
  {
    if Current(u, u.entries[u.current[o]].cand) then Result(200, sigs[o].value) else Result(503, [])
  }

  ghost predicate LoopedEntries(u: Running, sigs: map<Bytes, Option<Bytes>>, w: Running)
    requires PoolsResolve(u) && Signable(u, sigs)
  {
    && w.entries.Keys == u.entries.Keys
    && (forall o :: o in u.current ==>
          w.entries[u.current[o]] == u.entries[u.current[o]].(result := Some(LoopAnswer(u, sigs, o))))
    && (forall e :: e in u.entries && !InPool(u.current, u.entries, e) ==> w.entries[e] == u.entries[e])
  }

  ghost predicate LoopedUpdates(u: Running, updates: Mem)
    requires PoolsResolve(u)
  {
    && updates.Keys <= u.current.Keys
    && (forall o :: o in u.current ==>
          var c := u.entries[u.current[o]].cand;
          && (o in updates <==> Current(u, c))
          && (Current(u, c) ==> ViewOf(updates[o]) == CandView(c)))
  }

  /** What the loop leaves of each entry and of the updates when every signature is available. */
  lemma LoopResult(u: Running, sigs: map<Bytes, Option<Bytes>>)
    requires u.signer.Some? && PoolsResolve(u) && PoolsResolve(Locked(u)) && Signable(u, sigs)
    ensures var w := SignedState(Locked(u), sigs, u.current.Keys);
            && w.phase.Signing? && !w.phase.failed && w.phase.todo == {}
            && LoopedEntries(u, sigs, w) && LoopedUpdates(u, w.phase.updates)
  {
    hide SignedNote;
  }

  /** The card and the anchor after a commit without faults. */
  function Committing(d: Durable, b: Blob): Durable {
    WithSlot(d, b.gen, Some(b)).(sealed := d.sealed + {b}, anchor := AnchorFor(b), commits := d.commits + [b])
  }

  /** S1, S2 and S3 of a commit without faults. */
  lemma PassCommits(E: Env, s: State, hash: Digest)
    requires s.v.Up? && s.v.run.phase.Writing? && !s.v.run.ram.halted && s.v.run.ram.gen < MAX_GEN
    requires Unused(s.d.sealed, hash) && s.d.anchor.gen == s.v.run.ram.gen
    ensures var u := s.v.run;
            var t := Steps(E, s, CommittingEvents(hash));
            && t.v == Up(Commit(u, u.phase.updates)) && t.releases == s.releases
            && t.d == Committing(s.d, NextBlob(u.ram, u.phase.updates, hash))
  {
    hide NextStates;
    var u := s.v.run;
    WrittenStep(E, s, hash);
    var t1 := Step(E, s, WriteSlot(true, hash, Completed));
    AnchorStep(E, t1, Acked);
    ThreeSteps(E, s, WriteSlot(true, hash, Completed), WriteAnchor(Acked), Publish);
  }

  /** Every pending request is answered, granted if it is current and 503 if its signer is gone,
      and its channel closed once more; no other entry changes. */
  ghost predicate ServedEntries(u: Running, sigs: map<Bytes, Option<Bytes>>, entries: Entries)
    requires PoolsResolve(u) && Signable(u, sigs)
  {
    && entries.Keys == u.entries.Keys
    && (forall o :: o in u.current ==>
          var x := u.entries[u.current[o]];
          entries[u.current[o]] == x.(result := Some(LoopAnswer(u, sigs, o)), closed := x.closed + 1))
    && (forall e :: e in u.entries && !InPool(u.current, u.entries, e) ==> entries[e] == u.entries[e])
  }

  /** RAM moves to the candidate of every current request, and nowhere else. */
  ghost predicate ServedViews(u: Running, mem: Mem)
    requires PoolsResolve(u)
  {
    forall o ::
      MemView(mem, o)
      == if o in u.current && Current(u, u.entries[u.current[o]].cand) then Some(CandView(u.entries[u.current[o]].cand))
         else MemView(u.ram.mem, o)
  }

  /** The state between passes, after a faultless one over the pool of u. */
  ghost predicate Served(u: Running, sigs: map<Bytes, Option<Bytes>>, t: Running)
    requires PoolsResolve(u) && Signable(u, sigs)
  {
    && t.phase.Idle? && t.current == map[] && t.sequencing == map[]
    && t.signer == u.signer && t.epoch == u.epoch && t.keys == u.keys && t.threads == u.threads
    && t.ram.gen == u.ram.gen + 1 && !t.ram.halted && t.committed == u.committed + 1 && t.failed == u.failed
    && ServedEntries(u, sigs, t.entries) && ServedViews(u, t.ram.mem)
  }

  /** The run the last three steps of a pass lead to. */
  function Closing(w: Running): Running
    requires w.phase.Signing?
  {
    Retire(Commit(w.(phase := Writing(w.phase.updates)), w.phase.updates))
  }

  lemma ClosingServes(u: Running, sigs: map<Bytes, Option<Bytes>>)
    requires u.signer.Some? && PoolsResolve(u) && PoolsResolve(Locked(u)) && u.current != map[] && !u.ram.halted
    requires Signable(u, sigs)
    ensures Served(u, sigs, Closing(SignedState(Locked(u), sigs, u.current.Keys)))
  {
    hide SignedEntries, SignedUpdates, SigningFails, WithClosed, LoopedEntries, LoopedUpdates, ServedEntries, ServedViews;
    LoopResult(u, sigs);
    var w := SignedState(Locked(u), sigs, u.current.Keys);
    ClosingAnswers(u, sigs, w);
    ClosingPublishes(u, w.phase.updates);
  }

  lemma ClosingAnswers(u: Running, sigs: map<Bytes, Option<Bytes>>, w: Running)
    requires PoolsResolve(u) && Signable(u, sigs) && LoopedEntries(u, sigs, w)
    ensures ServedEntries(u, sigs, WithClosed(w.entries, u.current))
  {
    hide WithClosed;
    ClosesPool(w.entries, u.current);
    forall e | e in u.entries && !InPool(u.current, u.entries, e) ensures WithClosed(w.entries, u.current)[e] == u.entries[e] {
      assert w.entries[e] == u.entries[e];
    }
    forall o | o in u.current ensures InPool(u.current, w.entries, u.current[o]) {
      assert u.entries[u.current[o]].cand.cp.origin == o;
    }
  }

  lemma ClosingPublishes(u: Running, updates: Mem)
    requires PoolsResolve(u) && LoopedUpdates(u, updates)
    ensures ServedViews(u, u.ram.mem + updates)
  {
  }

  lemma ClosesPool(entries: Entries, p: Pool)
    ensures forall e :: e in entries ==>
              WithClosed(entries, p)[e]
              == if InPool(p, entries, e) then entries[e].(closed := entries[e].closed + 1) else entries[e]
  {
  }

  lemma BetweenPasses(E: Env, s: State, u: Running)
    requires Inv(E, s) && s.v == Up(u) && u.phase.Idle?
    ensures PoolsResolve(u) && u.sequencing == map[] && (!u.ram.halted ==> s.d.anchor.gen == u.ram.gen)
    ensures forall o :: o in u.current ==> u.entries[u.current[o]].closed == 0
  {
    hide HistoryInv, SealedOk, EntryInv, Fresh, SignedInv, GrantInv, ThreadInv, KeyInv, CountInv, Follows, MemRestores, StatesAt;
  }

  lemma SignedStep(E: Env, s: State)
    requires s.v.Up? && s.v.run.phase.Signing? && s.v.run.phase.todo == {} && !s.v.run.phase.failed
    requires s.v.run.phase.updates != map[]
    ensures Step(E, s, SigningDone) == s.(v := Up(s.v.run.(phase := Writing(s.v.run.phase.updates))))
  {
    hide FailBatch;
  }

  lemma RetireStep(E: Env, s: State, u: Running)
    requires u.phase.Writing? && s.v == Up(Commit(u, u.phase.updates))
    ensures Step(E, s, RetirePool) == s.(v := Up(Retire(Commit(u, u.phase.updates))))
  {
    hide Retire;
  }

  lemma PassCloses(E: Env, s: State, hash: Digest)
    requires s.v.Up? && s.v.run.phase.Signing? && s.v.run.phase.todo == {} && !s.v.run.phase.failed
    requires s.v.run.phase.updates != map[] && !s.v.run.ram.halted && s.v.run.ram.gen < MAX_GEN
    requires Unused(s.d.sealed, hash) && s.d.anchor.gen == s.v.run.ram.gen
    ensures Steps(E, s, [SigningDone] + CommittingEvents(hash) + [RetirePool]).v == Up(Closing(s.v.run))
    ensures var t := Steps(E, s, [SigningDone] + CommittingEvents(hash) + [RetirePool]);
            t.releases == s.releases && t.d == Committing(s.d, NextBlob(s.v.run.ram, s.v.run.phase.updates, hash))
  {
    hide Committing, NextBlob, Retire, FailBatch, Step, Steps, Commit, CommittingEvents, SignerMutexHeld;
    OneStep(E, s, SigningDone);
    var t1 := Step(E, s, SigningDone);
    SignedStep(E, s);
    PassCommits(E, t1, hash);
    StepsCompose(E, s, [SigningDone], CommittingEvents(hash));
    StepsCompose(E, s, [SigningDone] + CommittingEvents(hash), [RetirePool]);
    OneStep(E, Steps(E, t1, CommittingEvents(hash)), RetirePool);
    RetireStep(E, Steps(E, t1, CommittingEvents(hash)), t1.v.run);
  }

  /** A faultless pass, from any state between passes. */
  lemma PassRun(E: Env, s: State, order: seq<Bytes>, sigs: map<Bytes, Option<Bytes>>, hash: Digest, o: Bytes)
    requires s.v.Up? && s.v.run.phase.Idle? && !s.v.run.ram.halted && s.v.run.ram.gen < MAX_GEN && PoolsResolve(s.v.run)
    requires s.v.run.signer.Some? && !s.v.run.keys.bumping && Visits(s.v.run, order) && Signable(s.v.run, sigs)
    requires Unused(s.d.sealed, hash) && s.d.anchor.gen == s.v.run.ram.gen
    requires o in s.v.run.current && Current(s.v.run, s.v.run.entries[s.v.run.current[o]].cand)
    ensures var u, t := s.v.run, Steps(E, s, PassEvents(order, sigs, hash));
            && PoolsResolve(Locked(u)) && t.v.Up? && Served(u, sigs, t.v.run) && t.releases == s.releases
            && t.d == Committing(s.d, NextBlob(u.ram, SignedUpdates(Locked(u), sigs, u.current.Keys), hash))
  {
    hide Step, Steps, PoolsResolve, Closing, CommittingEvents, SignEvents, Served, Visits, Committing, NextBlob, SignedUpdates, SignedEntries,
         SigningFails, SigningEvents;
    var u := s.v.run;
    PassSigns(E, s, order, sigs);
    LoopResult(u, sigs);
    ClosingServes(u, sigs);
    var t := Steps(E, s, SigningEvents(order, sigs));
    PassCloses(E, t, hash);
    var rest := [SigningDone] + CommittingEvents(hash) + [RetirePool];
    assert PassEvents(order, sigs, hash) == SigningEvents(order, sigs) + rest;
    StepsCompose(E, s, SigningEvents(order, sigs), rest);
  }

  /** From every reachable state between passes in which the store serves, a signer is installed,
      at least one pending request is current and generations remain, a pass without faults closes
      every pending channel exactly once, grants and commits the current requests, answers 503 to
      those of an earlier signer, and leaves every other origin as it was. */
  lemma FaultlessPassServes(E: Env, events: seq<Event>, order: seq<Bytes>, sigs: map<Bytes, Option<Bytes>>, hash: Digest, o: Bytes)
    requires var s := Run(E, events);
             && s.v.Up? && s.v.run.phase.Idle? && !s.v.run.ram.halted && s.v.run.ram.gen < MAX_GEN
             && s.v.run.signer.Some? && !s.v.run.keys.bumping && Visits(s.v.run, order) && Signable(s.v.run, sigs)
             && Unused(s.d.sealed, hash)
             && o in s.v.run.current && s.v.run.current[o] in s.v.run.entries
             && Current(s.v.run, s.v.run.entries[s.v.run.current[o]].cand)
    ensures var u := Run(E, events).v.run;
            var t := Run(E, events + PassEvents(order, sigs, hash));
            && PoolsResolve(u) && t.v.Up? && Served(u, sigs, t.v.run)
            && (forall p :: p in u.current ==> t.v.run.entries[u.current[p]].closed == 1)
  {
    hide Inv, Run, Step, Steps, PoolsResolve, PassEvents, Visits, Committing, SignedUpdates;
    RunKeeps(E, events);
    BetweenPasses(E, Run(E, events), Run(E, events).v.run);
    PassRun(E, Run(E, events), order, sigs, hash, o);
    StepsContinueRuns(E, events, PassEvents(order, sigs, hash));
  }

  // ----- a pool that outlived its signer -----

  /** The state between passes after a pass over a pool of which no entry is current. */
  ghost predicate TurnedAway(u: Running, t: Running)
    requires PoolsResolve(u)
  {
    && t.phase.Idle? && t.current == map[] && t.sequencing == map[]
    && t.ram == u.ram && t.committed == u.committed && t.failed == u.failed + 1 && t.passes == u.passes + 1
    && (forall o :: o in u.current ==>
          && u.current[o] in t.entries
          && t.entries[u.current[o]]
             == u.entries[u.current[o]].(result := Some(Result(503, [])), closed := u.entries[u.current[o]].closed + 1))
  }

  function StaleEvents(order: seq<Bytes>, sigs: map<Bytes, Option<Bytes>>): seq<Event> {
    SigningEvents(order, sigs) + [SigningDone, RetirePool]
  }

  lemma StaleLoop(u: Running, sigs: map<Bytes, Option<Bytes>>)
    requires u.signer.Some? && PoolsResolve(u) && PoolsResolve(Locked(u))
    requires forall o :: o in u.current ==> !Current(u, u.entries[u.current[o]].cand)
    ensures var w := SignedState(Locked(u), sigs, u.current.Keys);
            && !w.phase.failed && w.phase.todo == {} && w.phase.updates == map[]
            && (forall o :: o in u.current ==>
                  && u.current[o] in w.entries
                  && w.entries[u.current[o]] == u.entries[u.current[o]].(result := Some(Result(UNAVAILABLE, []))))
  {
    hide SignedNote;
  }

  lemma StaleLoopResult(u: Running, sigs: map<Bytes, Option<Bytes>>)
    requires u.signer.Some? && PoolsResolve(u) && PoolsResolve(Locked(u))
    requires forall o :: o in u.current ==> !Current(u, u.entries[u.current[o]].cand)
    ensures var w := SignedState(Locked(u), sigs, u.current.Keys);
            && w.phase.Signing? && !w.phase.failed && w.phase.todo == {} && w.phase.updates == map[]
            && TurnedAway(u, Retire(EndSigning(w)))
  {
    hide SignedEntries, SignedUpdates, SigningFails, FailBatch;
    StaleLoop(u, sigs);
  }

  lemma StaleClose(E: Env, s: State)
    requires s.v.Up? && s.v.run.phase.Signing? && s.v.run.phase.todo == {} && !s.v.run.phase.failed && s.v.run.phase.updates == map[]
    ensures Steps(E, s, [SigningDone, RetirePool]) == s.(v := Up(Retire(EndSigning(s.v.run))))
  {
    hide Retire, FailBatch;
    TwoSteps(E, s, SigningDone, RetirePool);
  }

  /** If no pending request is current, whatever the signer would have returned, the pass answers
      503 to each, closes each channel once, counts one failed batch, and touches neither the card
      nor the anchor nor RAM. */
  lemma StalePassTurnsAway(E: Env, events: seq<Event>, order: seq<Bytes>, sigs: map<Bytes, Option<Bytes>>)
    requires var s := Run(E, events);
             && s.v.Up? && s.v.run.phase.Idle? && !s.v.run.ram.halted && s.v.run.signer.Some? && !s.v.run.keys.bumping
             && s.v.run.current != map[] && Visits(s.v.run, order) && PoolsResolve(s.v.run)
             && forall o :: o in s.v.run.current ==> !Current(s.v.run, s.v.run.entries[s.v.run.current[o]].cand)
    ensures var s, t := Run(E, events), Run(E, events + StaleEvents(order, sigs));
            && t.d == s.d && t.releases == s.releases && t.v.Up? && TurnedAway(s.v.run, t.v.run)
            && (forall o :: o in s.v.run.current ==> t.v.run.entries[s.v.run.current[o]].closed == 1)
  {
    hide Inv, Run, Step, Steps, PoolsResolve, SignedState, SigningEvents, Visits, Retire, EndSigning;
    var s := Run(E, events);
    RunKeeps(E, events);
    BetweenPasses(E, s, s.v.run);
    PassSigns(E, s, order, sigs);
    StaleLoopResult(s.v.run, sigs);
    StaleClose(E, Steps(E, s, SigningEvents(order, sigs)));
    StepsCompose(E, s, SigningEvents(order, sigs), [SigningDone, RetirePool]);
    StepsContinueRuns(E, events, StaleEvents(order, sigs));
  }
}
