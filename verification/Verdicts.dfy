/** What a client is told, case by case and in the numbers of the protocol. */
module Verdicts {
  import opened Common
  import opened Merkle
  import opened Notes
  import opened StoreModel
  import opened Sequencer
  import opened System
  import opened Frames
  import opened Invariants
  import opened Preservation
  import opened Theorems
  import opened Refinement
  import opened Progress
  import Wire

  // ----- addToPool -----

  /** The size the store holds for an origin, 0 if it knows none. */
  function CommittedSize(mem: Mem, o: Bytes): nat {
    if o in mem then mem[o].size else 0
  }

  /** The entry that an origin waits in, in either pool. */
  function PendingEntry(u: Running, o: Bytes): Option<nat> {
    if o in u.current then Some(u.current[o]) else if o in u.sequencing then Some(u.sequencing[o]) else None
  }

  /** The rule of the protocol for a checkpoint whose old size is the committed one: the empty tree
      has the empty hash, a repetition has the committed hash, a first sighting needs nothing, and
      growth needs a proof from the committed hash. Only growth carries a proof. */
  predicate MeetsRule(h: Hasher, mem: Mem, size: nat, proof: seq<Digest>, cp: Checkpoint) {
    && (cp.n == 0 ==> proof == [] && cp.hash == h.empty)
    && (cp.n > 0 && size == cp.n ==> proof == [] && cp.origin in mem && cp.hash == mem[cp.origin].hash)
    && (cp.n > 0 && size == 0 ==> proof == [])
    && (cp.n > 0 && size > 0 && size != cp.n ==> cp.origin in mem && CheckTree(h, proof, cp.n, cp.hash, size, mem[cp.origin].hash))
  }

  function ConflictBody(mem: Mem, o: Bytes): Bytes {
    Decimal(CommittedSize(mem, o)) + [10]
  }

  /** An origin with a pending entry: the very same request joins it, in whichever pool it is, and
      any other request is told the committed size. */
  lemma PendingVerdict(h: Hasher, u: Running, size: nat, proof: seq<Digest>, c: Candidate)
    requires PoolsResolve(u) && PendingEntry(u, c.cp.origin).Some?
    ensures var e := PendingEntry(u, c.cp.origin).value;
            && e in u.entries
            && Decision(h, u, size, proof, c)
               == if u.entries[e].cand == c then Join(e) else Refuse(Result(409, ConflictBody(u.ram.mem, c.cp.origin)))
  {
    hide CheckTree, Judge;
  }

  /** An origin without one: 429 exactly when 256 origins wait, else 409 exactly when the old size
      is not the committed one, else 422 exactly when the rule is broken, else admission. */
  lemma FreshVerdict(h: Hasher, u: Running, size: nat, proof: seq<Digest>, c: Candidate)
    requires PoolsResolve(u) && PendingEntry(u, c.cp.origin).None?
    ensures var v, mem := Decision(h, u, size, proof, c), u.ram.mem;
            && (v == Refuse(Result(429, [])) <==> |u.current| >= 256)
            && (v == Refuse(Result(409, ConflictBody(mem, c.cp.origin)))
                <==> |u.current| < 256 && size != CommittedSize(mem, c.cp.origin))
            && (v == Refuse(Result(422, []))
                <==> |u.current| < 256 && size == CommittedSize(mem, c.cp.origin) && !MeetsRule(h, mem, size, proof, c.cp))
            && (v == Admit
                <==> |u.current| < 256 && size == CommittedSize(mem, c.cp.origin) && MeetsRule(h, mem, size, proof, c.cp))
  {
    hide CheckTree;
  }

  /** Over runs: a client that repeats its pending request waits for the same entry, also while the
      batch of that entry is being sequenced. */
  lemma RepetitionJoins(E: Env, events: seq<Event>, tid: nat, id: nat, e: nat)
    requires var s := Run(E, events);
             && s.v.Up? && tid in s.v.run.threads && s.v.run.threads[tid].Stamped? && id !in s.v.run.entries
             && PendingEntry(s.v.run, s.v.run.threads[tid].cand.cp.origin) == Some(e)
             && e in s.v.run.entries && s.v.run.entries[e].cand == s.v.run.threads[tid].cand
    ensures var s := Run(E, events);
            var t := Step(E, s, Enqueue(tid, id));
            && t.v.Up? && tid in t.v.run.threads
            && t.v.run.threads[tid] == Waiting(e, s.v.run.threads[tid].cand, |s.releases|)
            && t.v.run.entries == s.v.run.entries && t.v.run.current == s.v.run.current
  {
    hide Inv, Run, Decision, PoolsResolve;
    RunKeeps(E, events);
    var s := Run(E, events);
    var t := s.v.run.threads[tid];
    ReachablePools(E, s, s.v.run);
    PendingVerdict(E.hasher, s.v.run, t.prep.size, t.prep.proof, t.cand);
  }

  lemma ReachablePools(E: Env, s: State, u: Running)
    requires Inv(E, s) && s.v == Up(u)
    ensures PoolsResolve(u)
    ensures forall o :: o in u.current ==> u.entries[u.current[o]].closed == 0
    ensures forall o :: o in u.sequencing ==> u.entries[u.sequencing[o]].closed == 0
  {
    hide DurableInv, HistoryInv, StoreInv, EntryInv, Fresh, BatchInv, SignedInv, GrantInv, ThreadInv, KeyInv, CountInv, Follows;
  }

  // ----- the answers of a failed batch -----

  /** The code that a batch is answered with when the step fails it: 503 if the pass could not sign
      at all or had nothing current to sign, 500 if a signature or the commit failed. */
  function FailureCode(u: Running, ev: Event): nat {
    if ev.LockSigner? then 503
    else if ev.SigningDone? then if u.phase.Signing? && u.phase.failed then 500 else 503
    else 500
  }

  lemma FailBatchSets(u: Running, r: Result, o: Bytes)
    requires o in u.sequencing && u.sequencing[o] in u.entries && u.entries[u.sequencing[o]].cand.cp.origin == o
    ensures var v := FailBatch(u, r);
            && u.sequencing[o] in v.entries && v.failed == u.failed + 1
            && v.entries[u.sequencing[o]] == u.entries[u.sequencing[o]].(result := Some(r))
  {
  }

  /** What the invariant says of the batch under way. */
  lemma BatchResults(E: Env, s: State, u: Running, o: Bytes)
    requires Inv(E, s) && s.v == Up(u) && o in u.sequencing
    ensures u.sequencing[o] in u.entries && u.entries[u.sequencing[o]].cand.cp.origin == o && u.entries[u.sequencing[o]].closed == 0
    ensures u.phase.Signing? && u.phase.todo == {} && !u.phase.failed && u.phase.updates == map[] ==>
              u.entries[u.sequencing[o]].result == Some(Result(503, []))
    ensures u.phase.Publishing? ==>
              var x := u.entries[u.sequencing[o]];
              if o in u.phase.updates then x.result.Some? && x.result.value.code == 200 && u.phase.updates[o] == GrantedState(x)
              else x.result == Some(Result(503, []))
  {
    hide HistoryInv, DurableInv, StoreInv, SignedInv, GrantInv, ThreadInv, KeyInv, CountInv, EntryInv, Follows, Fresh;
  }

  /** A batch that fails is answered with one code throughout, and this is which. */
  lemma FailedBatchCode(E: Env, events: seq<Event>, ev: Event, o: Bytes)
    requires var s := Run(E, events);
             s.v.Up? && (s.v.run.phase.Rotated? || SignerMutexHeld(s.v.run.phase)) && o in s.v.run.sequencing
    requires var t := Step(E, Run(E, events), ev);
             t.v.Up? && t.v.run.failed > Run(E, events).v.run.failed
    ensures var u := Run(E, events).v.run;
            var t := Step(E, Run(E, events), ev);
            && u.sequencing[o] in t.v.run.entries
            && t.v.run.entries[u.sequencing[o]].result == Some(Result(FailureCode(u, ev), []))
  {
    hide Inv, Run, FailBatch, WriteRecord, NextBlob, Decision, Prepare, WithClosed, SignEntry, WithSlot;
    RunKeeps(E, events);
    var s := Run(E, events);
    var u := s.v.run;
    BatchResults(E, s, u, o);
    FailBatchSets(u, Result(500, []), o);
    FailBatchSets(Halt(u), Result(500, []), o);
    FailBatchSets(u.(passes := u.passes + 1), Result(503, []), o);
    OtherEventsFailNothing(E, s, u, ev);
  }

  /** A batch that commits is answered 200 for exactly the origins it moves, with the signature that
      is in the note committed for them, and 503 for the rest. */
  lemma CommittedBatchAnswers(E: Env, events: seq<Event>, o: Bytes)
    requires var s := Run(E, events);
             s.v.Up? && s.v.run.phase.Publishing? && o in s.v.run.sequencing
    ensures var u := Run(E, events).v.run;
            var t := Step(E, Run(E, events), Publish);
            && t.v.Up? && u.sequencing[o] in t.v.run.entries
            && var x := t.v.run.entries[u.sequencing[o]];
               if o in u.phase.updates then
                 && x.result.Some? && x.result.value.code == 200 && o in t.v.run.ram.mem
                 && t.v.run.ram.mem[o] == LogState(x.cand.cp.n, x.cand.cp.hash, SignedNote(x.cand.text, x.result.value.resp))
               else x.result == Some(Result(503, [])) && MemView(t.v.run.ram.mem, o) == MemView(u.ram.mem, o)
  {
    hide Inv, Run, SignedNote;
    RunKeeps(E, events);
    BatchResults(E, Run(E, events), Run(E, events).v.run, o);
  }

  // ----- passes that cannot serve -----

  /** Every pending request is answered alike, once, and the store is left alone. */
  ghost predicate AllAnswered(s: State, t: State, r: Result)
    requires s.v.Up? && PoolsResolve(s.v.run)
  {
    && t.d == s.d && t.releases == s.releases && t.v.Up?
    && var u, v := s.v.run, t.v.run;
       && v.phase.Idle? && v.current == map[] && v.sequencing == map[] && v.ram == u.ram
       && (forall o :: o in u.current ==>
             u.current[o] in v.entries && v.entries[u.current[o]] == u.entries[u.current[o]].(result := Some(r), closed := 1))
  }

  lemma FailedPoolCloses(u: Running, v: Running, r: Result)
    requires PoolsResolve(u) && v.entries == u.entries && v.sequencing == u.current
    requires forall o :: o in u.current ==> u.entries[u.current[o]].closed == 0
    ensures var w := Retire(FailBatch(v, r));
            forall o :: o in u.current ==>
              u.current[o] in w.entries && w.entries[u.current[o]] == u.entries[u.current[o]].(result := Some(r), closed := 1)
  {
  }

  const UNSIGNED_PASS := [RotatePool, LockSigner, RetirePool]

  lemma UnsignedSteps(E: Env, s: State)
    requires s.v.Up? && s.v.run.phase.Idle? && s.v.run.current != map[] && !s.v.run.keys.bumping
    requires s.v.run.signer.None? || s.v.run.ram.halted
    ensures var u := Rotate(s.v.run);
            Steps(E, s, UNSIGNED_PASS)
            == s.(v := Up(Retire(FailBatch(u.(passes := u.passes + 1), Result(503, [])))))
  {
    hide FailBatch, Retire;
    FailFrame(Rotate(s.v.run).(passes := s.v.run.passes + 1), Result(503, []));
    ThreeSteps(E, s, RotatePool, LockSigner, RetirePool);
  }

  /** Without a signer, or with a halted store, a pass answers 503 to every pending request, closes
      each channel once, counts one failed batch, and touches nothing else. */
  lemma UnsignedPassTurnsAway(E: Env, events: seq<Event>)
    requires var s := Run(E, events);
             && s.v.Up? && s.v.run.phase.Idle? && s.v.run.current != map[] && !s.v.run.keys.bumping
             && (s.v.run.signer.None? || s.v.run.ram.halted)
    ensures var s, t := Run(E, events), Run(E, events + UNSIGNED_PASS);
            PoolsResolve(s.v.run) && AllAnswered(s, t, Result(503, [])) && t.v.run.failed == s.v.run.failed + 1
  {
    hide Inv, Run, Steps, PoolsResolve, WithResults, WithClosed;
    RunKeeps(E, events);
    var s := Run(E, events);
    var u := Rotate(s.v.run);
    ReachablePools(E, s, s.v.run);
    UnsignedSteps(E, s);
    FailedPoolCloses(s.v.run, u.(passes := u.passes + 1), Result(503, []));
    StepsContinueRuns(E, events, UNSIGNED_PASS);
  }

  /** Stopping the sequencer answers 503 to every pending request. */
  lemma StopTurnsAway(E: Env, events: seq<Event>)
    requires Run(E, events).v.Up? && Run(E, events).v.run.phase.Idle?
    ensures var s := Run(E, events);
            PoolsResolve(s.v.run) && AllAnswered(s, Step(E, s, Stop), Result(503, []))
  {
    hide Inv, Run;
    RunKeeps(E, events);
    var s := Run(E, events);
    ReachablePools(E, s, s.v.run);
    BetweenPasses(E, s, s.v.run);
  }

  // ----- passes in which a signature fails -----

  lemma BrokenLoop(u: Running, sigs: map<Bytes, Option<Bytes>>, bad: Bytes)
    requires u.signer.Some? && PoolsResolve(u) && PoolsResolve(Locked(u)) && bad in u.current
    requires Current(u, u.entries[u.current[bad]].cand) && SigFor(sigs, bad).None?
    ensures var w := SignedState(Locked(u), sigs, u.current.Keys);
            w.phase.failed && w.phase.todo == {}
  {
    hide SignedNote, SignedEntries, SignedUpdates;
    assert Outcome(Locked(u), sigs, bad).code == 500;
  }

  lemma BrokenCloses(u: Running, sigs: map<Bytes, Option<Bytes>>)
    requires u.signer.Some? && PoolsResolve(u) && PoolsResolve(Locked(u))
    requires forall o :: o in u.current ==> u.entries[u.current[o]].closed == 0
    ensures var w := Retire(FailBatch(SignedState(Locked(u), sigs, u.current.Keys), Result(500, [])));
            forall o :: o in u.current ==>
              u.current[o] in w.entries && w.entries[u.current[o]] == u.entries[u.current[o]].(result := Some(Result(500, [])), closed := 1)
  {
    hide SignedUpdates, SigningFails, Outcome;
  }

  lemma BrokenSteps(E: Env, s: State)
    requires s.v.Up? && s.v.run.phase.Signing? && s.v.run.phase.todo == {} && s.v.run.phase.failed
    ensures Steps(E, s, [SigningDone, RetirePool]) == s.(v := Up(Retire(FailBatch(s.v.run, Result(500, [])))))
  {
    hide FailBatch, Retire;
    FailFrame(s.v.run, Result(500, []));
    TwoSteps(E, s, SigningDone, RetirePool);
  }

  /** If one signature that is due fails, every request of the batch is answered 500, whatever the
      others got, and nothing is committed. */
  lemma BrokenSignatureFailsAll(E: Env, events: seq<Event>, order: seq<Bytes>, sigs: map<Bytes, Option<Bytes>>, bad: Bytes)
    requires var s := Run(E, events);
             && s.v.Up? && s.v.run.phase.Idle? && !s.v.run.ram.halted && s.v.run.signer.Some? && !s.v.run.keys.bumping
             && Visits(s.v.run, order) && bad in s.v.run.current && s.v.run.current[bad] in s.v.run.entries
             && Current(s.v.run, s.v.run.entries[s.v.run.current[bad]].cand) && SigFor(sigs, bad).None?
    ensures var s, t := Run(E, events), Run(E, events + StaleEvents(order, sigs));
            PoolsResolve(s.v.run) && AllAnswered(s, t, Result(500, [])) && t.v.run.failed == s.v.run.failed + 1
  {
    hide Inv, Run, Steps, Step, PoolsResolve, SignedEntries, SignedUpdates, SigningFails, WithResults, WithClosed, SigningEvents, Visits;
    RunKeeps(E, events);
    var s := Run(E, events);
    ReachablePools(E, s, s.v.run);
    PassSigns(E, s, order, sigs);
    BrokenLoop(s.v.run, sigs, bad);
    BrokenCloses(s.v.run, sigs);
    BrokenSteps(E, Steps(E, s, SigningEvents(order, sigs)));
    StepsCompose(E, s, SigningEvents(order, sigs), [SigningDone, RetirePool]);
    StepsContinueRuns(E, events, StaleEvents(order, sigs));
  }

  // ----- around the pool -----

  /** A request gets past the stateless checks if and only if its body parses, its note has a text,
      the text parses to a checkpoint, and the old size is not beyond it. */
  lemma PrepareExactly(E: Env, body: Bytes, p: Prepared)
    ensures Prepare(E, body) == Some(p)
       <==> p.size <= p.cp.n && E.parse(p.text) == Some(p.cp)
            && exists note :: Wire.ParseBody(body) == Some(Wire.Request(p.size, p.proof, note)) && IsCut(note, p.text)
  {
    hide IsCut, CutText, Wire.ParseBody;
    var req := Wire.ParseBody(body);
    if req.Some? {
      forall text ensures CutText(req.value.note) == Some(text) <==> IsCut(req.value.note, text) {
        CutExactly(req.value.note, text);
      }
      assert req == Some(Wire.Request(req.value.size, req.value.proof, req.value.note));
    }
  }

  /** A waiting request is woken exactly when its channel is closed; it then gets the result of its
      entry and is gone, and a release is recorded exactly for a 200, with the checkpoint and text
      the client sent and the signature of the entry. */
  lemma WaiterGetsResult(E: Env, events: seq<Event>, tid: nat)
    requires var s := Run(E, events);
             s.v.Up? && tid in s.v.run.threads && s.v.run.threads[tid].Waiting?
    ensures var s, t := Run(E, events), Step(E, Run(E, events), Answer(tid));
            var w := s.v.run.threads[tid];
            && w.entry in s.v.run.entries && s.v.run.entries[w.entry].cand == w.cand
            && var x := s.v.run.entries[w.entry];
               if x.closed == 0 then t == s
               else
                 && x.result.Some? && t.v.Up? && t.v.run.threads == s.v.run.threads - {tid}
                 && t.releases == s.releases
                                  + if x.result.value.code == 200
                                    then [Release(w.cand.cp, w.cand.text, x.result.value.resp, s.v.run.ram.gen, w.since)] else []
  {
    hide Inv, Run;
    RunKeeps(E, events);
    var s := Run(E, events);
    WaiterHasEntry(E, s, s.v.run, tid);
  }

  lemma WaiterHasEntry(E: Env, s: State, u: Running, tid: nat)
    requires Inv(E, s) && s.v == Up(u) && tid in u.threads && u.threads[tid].Waiting?
    ensures var w := u.threads[tid];
            && w.entry in u.entries && u.entries[w.entry].cand == w.cand
            && (u.entries[w.entry].closed > 0 ==> u.entries[w.entry].result.Some?)
  {
    hide DurableInv, HistoryInv, StoreInv, PoolInv, EntryInv, Fresh, BatchInv, SignedInv, GrantInv, KeyInv, CountInv;
  }

  /** An accepted request becomes a new entry of the current pool, stamped with the epoch of this
      moment, and its client waits for it. */
  lemma EnqueueAdmits(E: Env, events: seq<Event>, tid: nat, id: nat)
    requires var s := Run(E, events);
             && s.v.Up? && tid in s.v.run.threads && s.v.run.threads[tid].Stamped? && id !in s.v.run.entries
             && var u, w := s.v.run, s.v.run.threads[tid];
                && PendingEntry(u, w.cand.cp.origin).None? && |u.current| < 256
                && w.prep.size == CommittedSize(u.ram.mem, w.cand.cp.origin)
                && MeetsRule(E.hasher, u.ram.mem, w.prep.size, w.prep.proof, w.cand.cp)
    ensures var s, t := Run(E, events), Step(E, Run(E, events), Enqueue(tid, id));
            var u, c := s.v.run, s.v.run.threads[tid].cand;
            && t.d == s.d && t.v.Up? && t.v.run.threads == u.threads[tid := Waiting(id, c, |s.releases|)]
            && t.v.run.entries == u.entries[id := Entry(c, None, 0, u.epoch)]
            && t.v.run.current == u.current[c.cp.origin := id] && t.v.run.sequencing == u.sequencing
  {
    hide Inv, Run, Decision, PoolsResolve, MeetsRule;
    RunKeeps(E, events);
    var s := Run(E, events);
    var w := s.v.run.threads[tid];
    ReachablePools(E, s, s.v.run);
    FreshVerdict(E.hasher, s.v.run, w.prep.size, w.prep.proof, w.cand);
  }

  /** A step that signs is a turn of the signing loop, signs once, over the text of a batch entry, and
      with the signer that is installed at that moment, in the epoch the entry was admitted in. */
  lemma SigningStep(E: Env, events: seq<Event>, ev: Event)
    requires Step(E, Run(E, events), ev).signatures != Run(E, events).signatures
    ensures var s, t := Run(E, events), Step(E, Run(E, events), ev);
            && s.v.Up? && ev.Sign? && ev.sig.Some? && ev.origin in s.v.run.sequencing
            && s.v.run.sequencing[ev.origin] in s.v.run.entries
            && var u, e := s.v.run, s.v.run.entries[s.v.run.sequencing[ev.origin]];
               && u.signer.Some? && u.signer.value !in u.keys.zeroed && e.admitted == u.epoch && e.cand.signer == u.signer.value
               && t.signatures
                  == s.signatures
                     + [Signature(u.signer.value, e.cand.text, ev.sig.value, u.signer, u.keys.zeroed, e.admitted, u.epoch)]
  {
    hide Inv, Run, ServingStep, DoOpenFinish;
    RunKeeps(E, events);
    var s := Run(E, events);
    BootsSignNothing(E, s, ev);
    OnlySignSigns(E, s, s.v.run, ev);
    var u := s.v.run;
    SignatureIsCurrent(E, s, u, ev.origin);
  }

  lemma BootsSignNothing(E: Env, s: State, ev: Event)
    ensures !s.v.Up? ==> Step(E, s, ev).signatures == s.signatures
    ensures ev.Tamper? || ev.PowerCut? || ev.OpenStart? || ev.OpenFinish? ==> Step(E, s, ev).signatures == s.signatures
  {
    hide ServingStep, Decide, WriteRecord;
  }

  lemma OnlySignSigns(E: Env, s: State, u: Running, ev: Event)
    requires s.v == Up(u) && ServingStep(E, s, u, ev).signatures != s.signatures
    ensures ev.Sign? && ev.sig.Some? && u.phase.Signing? && ev.origin in u.sequencing && u.sequencing[ev.origin] in u.entries
    ensures var e := u.entries[u.sequencing[ev.origin]];
            && e.cand.signer == u.phase.signer && e.cand.epoch == u.phase.epoch
            && ServingStep(E, s, u, ev).signatures
               == s.signatures
                  + [Signature(u.phase.signer, e.cand.text, ev.sig.value, u.signer, u.keys.zeroed, e.admitted, u.epoch)]
  {
    hide Decision, Prepare, NextBlob, WriteRecord, SignEntry, BeginPass, EndSigning, FailBatch, WithClosed, WithResults, WithSlot;
  }

  lemma SignatureIsCurrent(E: Env, s: State, u: Running, o: Bytes)
    requires Inv(E, s) && s.v == Up(u) && u.phase.Signing? && o in u.sequencing && u.sequencing[o] in u.entries
    requires u.entries[u.sequencing[o]].cand.epoch == u.phase.epoch
    ensures u.signer == Some(u.phase.signer) && u.phase.signer !in u.keys.zeroed && u.entries[u.sequencing[o]].admitted == u.epoch
  {
    hide DurableInv, HistoryInv, RunInv;
    SignatureIsFresh(E, s, u, o);
  }
}
