/** Runs that show where a promise ends: a release that overtakes another, and a second authentic
    blob of the pinned generation. */
module Scenarios {
  import opened Common
  import opened Merkle
  import opened Notes
  import opened StoreModel
  import opened Sequencer
  import opened System
  import opened Invariants
  import opened Theorems
  import opened CrashOnly
  import opened Refinement
  import opened Progress
  import Wire

  // ----- building blocks -----

  const BOOT := [OpenStart(true, true), OpenFinish(true, Acked)]

  lemma BootFresh(E: Env, s: State)
    requires s.v.Off? && s.d.slot0.None? && s.d.slot1.None? && s.d.anchor == FRESH_ANCHOR
    ensures Steps(E, s, BOOT) == s.(v := Up(Booted(Ram(0, false, map[]))))
  {
    TwoSteps(E, s, OpenStart(true, true), OpenFinish(true, Acked));
  }

  function InstallEvents(key: Signer): seq<Event> {
    [Provision(key), BumpEpoch, DestroyKey]
  }

  function Installed(u: Running, key: Signer): Running {
    u.(signer := Some(key), epoch := u.epoch + 1, keys := Keys(Some(key), u.keys.zeroed, Resting, false))
  }

  lemma InstallRun(E: Env, s: State, key: Signer)
    requires s.v.Up? && s.v.run.phase.Idle? && s.v.run.keys == Keys(None, {}, Resting, false)
    ensures Steps(E, s, InstallEvents(key)) == s.(v := Up(Installed(s.v.run, key)))
  {
    ThreeSteps(E, s, Provision(key), BumpEpoch, DestroyKey);
    var none: set<Signer> := {};
    assert s.v.run.keys.zeroed + none == none;
  }

  function Arrival(tid: nat, body: Bytes, id: nat): seq<Event> {
    [Submit(tid, body), ReadEpoch(tid), Enqueue(tid, id)]
  }

  function CandidateOf(u: Running, p: Prepared): Candidate
    requires u.signer.Some?
  {
    Candidate(p.cp, p.text, u.signer.value, u.epoch)
  }

  function Arrived(u: Running, tid: nat, id: nat, p: Prepared, since: nat): Running
    requires u.signer.Some?
  {
    Admission(u, id, CandidateOf(u, p)).(threads := u.threads[tid := Waiting(id, CandidateOf(u, p), since)])
  }

  /** A request that the checks accept, sent to an idle witness with nothing pending. */
  ghost predicate Arrivable(E: Env, u: Running, tid: nat, body: Bytes, id: nat, p: Prepared) {
    && u.phase.Idle? && !u.ram.halted && u.signer.Some? && u.current == map[] && u.sequencing == map[]
    && tid !in u.threads && id !in u.entries
    && Prepare(E, body) == Some(p) && p.proof in E.proofs
    && Judge(E.hasher, u.ram.mem, p.size, p.proof, p.cp).Admit?
  }

  lemma ArrivalRun(E: Env, s: State, tid: nat, body: Bytes, id: nat, p: Prepared)
    requires s.v.Up? && Arrivable(E, s.v.run, tid, body, id, p)
    ensures Steps(E, s, Arrival(tid, body, id)) == s.(v := Up(Arrived(s.v.run, tid, id, p, |s.releases|)))
  {
    hide Step, Prepare, Judge;
    ThreeSteps(E, s, Submit(tid, body), ReadEpoch(tid), Enqueue(tid, id));
    SubmitStep(E, s, tid, body, id, p);
    var t := Step(E, Step(E, s, Submit(tid, body)), ReadEpoch(tid));
    EnqueueStep(E, t, tid, id, p, CandidateOf(s.v.run, p));
    assert t.v.run.threads[tid := Waiting(id, CandidateOf(s.v.run, p), |s.releases|)]
        == s.v.run.threads[tid := Waiting(id, CandidateOf(s.v.run, p), |s.releases|)];
  }

  lemma SubmitStep(E: Env, s: State, tid: nat, body: Bytes, id: nat, p: Prepared)
    requires s.v.Up? && Arrivable(E, s.v.run, tid, body, id, p)
    ensures Step(E, Step(E, s, Submit(tid, body)), ReadEpoch(tid))
         == s.(v := Up(s.v.run.(threads := s.v.run.threads[tid := Stamped(p, CandidateOf(s.v.run, p))])))
  {
    hide Prepare, Judge;
    var u := s.v.run;
    var loaded := u.threads[tid := Loaded(u.signer.value, p)];
    assert Step(E, s, Submit(tid, body)) == s.(v := Up(u.(threads := loaded)));
    assert loaded[tid := Stamped(p, CandidateOf(u, p))] == u.threads[tid := Stamped(p, CandidateOf(u, p))];
  }

  lemma EnqueueStep(E: Env, t: State, tid: nat, id: nat, p: Prepared, c: Candidate)
    requires t.v.Up? && t.v.run.current == map[] && t.v.run.sequencing == map[] && id !in t.v.run.entries
    requires tid in t.v.run.threads && t.v.run.threads[tid] == Stamped(p, c) && c.cp == p.cp
    requires Judge(E.hasher, t.v.run.ram.mem, p.size, p.proof, p.cp).Admit?
    ensures Step(E, t, Enqueue(tid, id))
         == t.(v := Up(Admission(t.v.run, id, c).(threads := t.v.run.threads[tid := Waiting(id, c, |t.releases|)])))
  {
    hide Judge;
  }

  lemma AnswerRun(E: Env, s: State, tid: nat)
    requires s.v.Up? && tid in s.v.run.threads && s.v.run.threads[tid].Waiting?
    requires var e := s.v.run.threads[tid].entry;
             e in s.v.run.entries && s.v.run.entries[e].closed > 0 && Granted(s.v.run.entries[e])
    ensures var u := s.v.run;
            var w := u.threads[tid];
            Steps(E, s, [Answer(tid)])
            == s.(v := Up(u.(threads := u.threads - {tid})),
                  releases := s.releases + [Release(w.cand.cp, w.cand.text, u.entries[w.entry].result.value.resp, u.ram.gen, w.since)])
  {
    OneStep(E, s, Answer(tid));
  }

  function OpeningEvents(key: Signer, tid: nat, body: Bytes, id: nat): seq<Event> {
    BOOT + InstallEvents(key) + Arrival(tid, body, id)
  }

  const EMPTY_RAM := Ram(0, false, map[])

  /** A unit with an empty card boots, gets its key, and takes one request. */
  lemma OpeningRun(E: Env, s: State, key: Signer, tid: nat, body: Bytes, id: nat, p: Prepared)
    requires s.v.Off? && s.d.slot0.None? && s.d.slot1.None? && s.d.anchor == FRESH_ANCHOR
    requires Prepare(E, body) == Some(p) && p.proof in E.proofs && Judge(E.hasher, map[], p.size, p.proof, p.cp).Admit?
    ensures Steps(E, s, OpeningEvents(key, tid, body, id))
         == s.(v := Up(Arrived(Installed(Booted(EMPTY_RAM), key), tid, id, p, |s.releases|)))
  {
    hide Steps, Prepare, Judge, InstallEvents, Arrival;
    BootFresh(E, s);
    var s1 := s.(v := Up(Booted(EMPTY_RAM)));
    InstallRun(E, s1, key);
    var s2 := s.(v := Up(Installed(Booted(EMPTY_RAM), key)));
    ArrivalRun(E, s2, tid, body, id, p);
    StepsCompose(E, s, BOOT, InstallEvents(key));
    StepsCompose(E, s, BOOT + InstallEvents(key), Arrival(tid, body, id));
  }

  /** An idle, serving witness whose only pending request is entry `id`, and that one is current. */
  ghost predicate OnePending(d: Durable, u: Running, o: Bytes, id: nat) {
    && u.phase.Idle? && !u.ram.halted && u.ram.gen < MAX_GEN && u.signer.Some? && !u.keys.bumping
    && u.current == map[o := id] && u.sequencing == map[] && d.anchor.gen == u.ram.gen
    && id in u.entries && u.entries[id].cand.cp.origin == o && u.entries[id].closed == 0 && Current(u, u.entries[id].cand)
  }

  function OnePass(o: Bytes, sig: Bytes, hash: Digest): seq<Event> {
    PassEvents([o], map[o := Some(sig)], hash)
  }

  lemma OnePassRun(E: Env, s: State, o: Bytes, id: nat, sig: Bytes, hash: Digest) returns (b: Blob)
    requires s.v.Up? && OnePending(s.d, s.v.run, o, id) && Unused(s.d.sealed, hash)
    ensures var u, t := s.v.run, Steps(E, s, OnePass(o, sig, hash));
            && b.gen == u.ram.gen + 1 && b.hash == hash && t.d == Committing(s.d, b) && t.releases == s.releases
            && t.v.Up?
            && var v := t.v.run;
               && v.phase.Idle? && v.current == map[] && v.sequencing == map[]
               && v.signer == u.signer && v.epoch == u.epoch && v.keys == u.keys && v.threads == u.threads
               && v.ram.gen == u.ram.gen + 1 && !v.ram.halted
               && MemView(v.ram.mem, o) == Some(CandView(u.entries[id].cand))
               && v.entries == u.entries[id := u.entries[id].(result := Some(Result(OK, sig)), closed := 1)]
  {
    hide Steps, Committing, PassEvents, SignedUpdates, NextStates;
    var u, sigs := s.v.run, map[o := Some(sig)];
    assert (set x | x in [o]) == u.current.Keys;
    PassRun(E, s, [o], sigs, hash, o);
    b := NextBlob(u.ram, SignedUpdates(Locked(u), sigs, u.current.Keys), hash);
    var v := Steps(E, s, OnePass(o, sig, hash)).v.run;
    assert v.entries[id] == u.entries[id].(result := Some(LoopAnswer(u, sigs, o)), closed := 1);
    forall e | e in u.entries && e != id ensures v.entries[e] == u.entries[e] {
      assert !InPool(u.current, u.entries, e);
    }
  }

  // ----- a release that overtakes another -----

  /** Two successive requests for one origin: the first opens the log, the second passes the checks
      against the view of the first. */
  ghost predicate Successive(E: Env, body1: Bytes, p1: Prepared, body2: Bytes, p2: Prepared) {
    && Prepare(E, body1) == Some(p1) && Prepare(E, body2) == Some(p2) && p1.cp.origin == p2.cp.origin
    && p1.proof in E.proofs && p2.proof in E.proofs
    && Judge(E.hasher, map[], p1.size, p1.proof, p1.cp).Admit?
    && Judge(E.hasher, map[p1.cp.origin := LogState(p1.cp.n, p1.cp.hash, [])], p2.size, p2.proof, p2.cp).Admit?
  }

  /** The checks look at RAM only through the view of the origin. */
  lemma JudgeSeesView(h: Hasher, a: Mem, b: Mem, size: nat, proof: seq<Digest>, cp: Checkpoint)
    requires MemView(a, cp.origin) == MemView(b, cp.origin)
    ensures Judge(h, a, size, proof, cp).Admit? <==> Judge(h, b, size, proof, cp).Admit?
  {
    hide CheckTree;
  }

  function OvertakingEvents(key: Signer, o: Bytes, body1: Bytes, body2: Bytes, sig: Bytes, h1: Digest, h2: Digest): seq<Event> {
    OpeningEvents(key, 0, body1, 0) + OnePass(o, sig, h1) + Arrival(1, body2, 1) + OnePass(o, sig, h2) + [Answer(1)] + [Answer(0)]
  }

  /** The first request is committed and waits to be woken; the second arrives, is committed and
      answered. */
  lemma FirstPass(E: Env, key: Signer, body1: Bytes, p1: Prepared, body2: Bytes, p2: Prepared, sig: Bytes, h1: Digest) returns (s: State)
    requires Successive(E, body1, p1, body2, p2)
    ensures s == Steps(E, INITIAL, OpeningEvents(key, 0, body1, 0) + OnePass(p1.cp.origin, sig, h1) + Arrival(1, body2, 1))
    ensures s.v.Up? && OnePending(s.d, s.v.run, p1.cp.origin, 1) && s.releases == []
    ensures forall b :: b in s.d.sealed ==> b.hash == h1
    ensures var u := s.v.run;
            && 0 in u.entries && u.entries[0].closed == 1 && u.entries[0].result == Some(Result(OK, sig)) && u.entries[0].cand.cp == p1.cp
            && u.threads.Keys == {0, 1} && u.threads[0] == Waiting(0, u.entries[0].cand, 0)
            && u.threads[1] == Waiting(1, u.entries[1].cand, 0) && u.entries[1].cand.cp == p2.cp
  {
    hide Steps, Prepare, Judge, OpeningEvents, Arrival, OnePass;
    var o := p1.cp.origin;
    OpeningRun(E, INITIAL, key, 0, body1, 0, p1);
    var s1 := Steps(E, INITIAL, OpeningEvents(key, 0, body1, 0));
    var b := OnePassRun(E, s1, o, 0, sig, h1);
    var s2 := Steps(E, s1, OnePass(o, sig, h1));
    JudgeSeesView(E.hasher, map[o := LogState(p1.cp.n, p1.cp.hash, [])], s2.v.run.ram.mem, p2.size, p2.proof, p2.cp);
    ArrivalRun(E, s2, 1, body2, 1, p2);
    s := Steps(E, s2, Arrival(1, body2, 1));
    StepsCompose(E, INITIAL, OpeningEvents(key, 0, body1, 0), OnePass(o, sig, h1));
    StepsCompose(E, INITIAL, OpeningEvents(key, 0, body1, 0) + OnePass(o, sig, h1), Arrival(1, body2, 1));
  }

  /** Any two successive requests can be released in reverse: the second request's 200 is handed
      out before the first one's. Both were enqueued before either release. */
  lemma LateWaiter(E: Env, key: Signer, body1: Bytes, p1: Prepared, body2: Bytes, p2: Prepared, sig: Bytes, h1: Digest, h2: Digest)
    requires Successive(E, body1, p1, body2, p2) && h1 != h2
    ensures var rs := Run(E, OvertakingEvents(key, p1.cp.origin, body1, body2, sig, h1, h2)).releases;
            |rs| == 2 && rs[0].cp == p2.cp && rs[1].cp == p1.cp && rs[0].since == rs[1].since == 0
  {
    hide Steps, Successive, OpeningEvents, Arrival, OnePass, Run;
    var o := p1.cp.origin;
    var head := OpeningEvents(key, 0, body1, 0) + OnePass(o, sig, h1) + Arrival(1, body2, 1);
    var s3 := FirstPass(E, key, body1, p1, body2, p2, sig, h1);
    var b := OnePassRun(E, s3, o, 1, sig, h2);
    var s4 := Steps(E, s3, OnePass(o, sig, h2));
    AnswerRun(E, s4, 1);
    AnswerRun(E, Steps(E, s4, [Answer(1)]), 0);
    StepsCompose(E, INITIAL, head, OnePass(o, sig, h2));
    StepsCompose(E, INITIAL, head + OnePass(o, sig, h2), [Answer(1)]);
    StepsCompose(E, INITIAL, head + OnePass(o, sig, h2) + [Answer(1)], [Answer(0)]);
    FromTheStart(E, OvertakingEvents(key, o, body1, body2, sig, h1, h2));
  }

  lemma FromTheStart(E: Env, events: seq<Event>)
    ensures Steps(E, INITIAL, events) == Run(E, events)
  {
    hide Step;
    assert [] + events == events;
    StepsContinueRuns(E, [], events);
  }

  // ----- a concrete log -----

  const TEXT_ONE: Bytes := [65, NEWLINE]
  const TEXT_TWO: Bytes := [66, NEWLINE]
  const ONE := Checkpoint([79], 1, [1])
  const TWO := Checkpoint([79], 2, [7])
  const LINK: seq<Digest> := [Zeros(32)]

  function ParseExample(text: Bytes): Option<Checkpoint> {
    if text == TEXT_ONE then Some(ONE) else if text == TEXT_TWO then Some(TWO) else None
  }

  const EXAMPLE := Env(ParseExample, Hasher([], _ => [1], (_, _) => [7]), {[], LINK})

  const BODY_ONE := Wire.RequestText(Wire.Request(0, [], SignedNote(TEXT_ONE, [])))
  const BODY_TWO := Wire.RequestText(Wire.Request(1, LINK, SignedNote(TEXT_TWO, [])))

  lemma ExamplePrepares(text: Bytes, cp: Checkpoint, size: nat, proof: seq<Digest>)
    requires IsText(text) && ParseExample(text) == Some(cp) && size <= cp.n && size <= Wire.MAX_INT64
    requires Wire.HashesFit(proof) && |proof| <= Wire.MAX_PROOF_LINES
    ensures Prepare(EXAMPLE, Wire.RequestText(Wire.Request(size, proof, SignedNote(text, []))))
         == Some(Prepared(size, proof, cp, text))
  {
    hide Wire.ParseBody, Wire.RequestText, CutText;
    SignedNoteSplits(text, []);
    Wire.RequestRoundTrip(Wire.Request(size, proof, SignedNote(text, [])));
  }

  lemma ExampleIsSuccessive()
    ensures Successive(EXAMPLE, BODY_ONE, Prepared(0, [], ONE, TEXT_ONE), BODY_TWO, Prepared(1, LINK, TWO, TEXT_TWO))
  {
    hide Prepare, Wire.RequestText;
    ExamplePrepares(TEXT_ONE, ONE, 0, []);
    ExamplePrepares(TEXT_TWO, TWO, 1, LINK);
    ExampleChecks();
  }

  lemma ExampleChecks()
    ensures CheckTree(EXAMPLE.hasher, LINK, 2, [7], 1, [1])
  {
    assert Split(2) == 1;
    assert LINK[..0] == [];
    assert FoldProof(EXAMPLE.hasher, [], 1, 1, [1], true) == Some(([1], [1]));
  }

  const OVERTAKING := OvertakingEvents(0, ONE.origin, BODY_ONE, BODY_TWO, [], [1], [2])

  /** A run in which the release of size 2 precedes the release of size 1 of the same log. */
  lemma ReleasesCanSwap()
    ensures var rs := Run(EXAMPLE, OVERTAKING).releases;
            |rs| == 2 && rs[0].cp == TWO && rs[1].cp == ONE
  {
    hide Run, OvertakingEvents, Successive;
    ExampleIsSuccessive();
    LateWaiter(EXAMPLE, 0, BODY_ONE, Prepared(0, [], ONE, TEXT_ONE), BODY_TWO, Prepared(1, LINK, TWO, TEXT_TWO), [], [1], [2]);
  }

  // ----- a second blob of the pinned generation -----

  function TornEvents(o: Bytes, sig: Bytes, hash: Digest): seq<Event> {
    SigningEvents([o], map[o := Some(sig)]) + [SigningDone] + [WriteSlot(true, hash, ErrorTorn)] + [PowerCut]
  }

  /** The batch is signed and sealed, the slot write is torn, and the power goes. */
  lemma TornRun(E: Env, s: State, o: Bytes, id: nat, sig: Bytes, hash: Digest) returns (b: Blob)
    requires s.v.Up? && OnePending(s.d, s.v.run, o, id) && Unused(s.d.sealed, hash)
    ensures var u, t := s.v.run, Steps(E, s, TornEvents(o, sig, hash));
            && b.gen == u.ram.gen + 1 && b.hash == hash
            && t.v.Off? && t.d.anchor == s.d.anchor && t.d.commits == s.d.commits && t.d.sealed == s.d.sealed + {b}
            && Slot(t.d, b.gen) == None && Slot(t.d, b.gen + 1) == Slot(s.d, b.gen + 1)
  {
    hide Steps, NextStates, SignedUpdates, SignedEntries, SigningFails, SigningEvents, Slot, Step, Unused;
    var u, sigs := s.v.run, map[o := Some(sig)];
    assert (set x | x in [o]) == u.current.Keys;
    assert o in u.current;
    PassSigns(E, s, [o], sigs);
    LoopResult(u, sigs);
    var s1 := Steps(E, s, SigningEvents([o], sigs));
    assert o in s1.v.run.phase.updates;
    SignedStep(E, s1);
    OneStep(E, s1, SigningDone);
    var s2 := Step(E, s1, SigningDone);
    SlotErrorRun(E, s2, hash, ErrorTorn);
    b := NextBlob(s2.v.run.ram, s2.v.run.phase.updates, hash);
    CutsPower(E, Steps(E, s2, [WriteSlot(true, hash, ErrorTorn)]));
    StepsCompose(E, s, SigningEvents([o], sigs), [SigningDone]);
    StepsCompose(E, s, SigningEvents([o], sigs) + [SigningDone], [WriteSlot(true, hash, ErrorTorn)]);
    StepsCompose(E, s, SigningEvents([o], sigs) + [SigningDone] + [WriteSlot(true, hash, ErrorTorn)], [PowerCut]);
  }

  lemma CutsPower(E: Env, s: State)
    ensures Steps(E, s, [PowerCut]) == s.(v := Off)
  {
    OneStep(E, s, PowerCut);
  }

  function TwinEvents(key: Signer, o: Bytes, body: Bytes, sig: Bytes, h1: Digest, h2: Digest): seq<Event> {
    OpeningEvents(key, 0, body, 0) + TornEvents(o, sig, h1) + OpeningEvents(key, 0, body, 0) + OnePass(o, sig, h2)
  }

  /** A torn commit, a reboot and the same commit again leave two authentic blobs of generation 1,
      of which the anchor pins the second. */
  lemma TwinBlobs(E: Env, key: Signer, body: Bytes, p: Prepared, sig: Bytes, h1: Digest, h2: Digest) returns (lost: Blob)
    requires Prepare(E, body) == Some(p) && p.proof in E.proofs && Judge(E.hasher, map[], p.size, p.proof, p.cp).Admit? && h1 != h2
    ensures var d := Run(E, TwinEvents(key, p.cp.origin, body, sig, h1, h2)).d;
            && |d.commits| == 1 && d.slot1 == Some(Head(d))
            && lost in d.sealed && lost.gen == 1 && lost != Head(d)
  {
    hide Steps, Prepare, Judge, OpeningEvents, OnePass, TornEvents, Run;
    var o := p.cp.origin;
    OpeningRun(E, INITIAL, key, 0, body, 0, p);
    var s1 := Steps(E, INITIAL, OpeningEvents(key, 0, body, 0));
    lost := TornRun(E, s1, o, 0, sig, h1);
    var s2 := Steps(E, s1, TornEvents(o, sig, h1));
    OpeningRun(E, s2, key, 0, body, 0, p);
    var s3 := Steps(E, s2, OpeningEvents(key, 0, body, 0));
    var b := OnePassRun(E, s3, o, 0, sig, h2);
    StepsCompose(E, INITIAL, OpeningEvents(key, 0, body, 0), TornEvents(o, sig, h1));
    StepsCompose(E, INITIAL, OpeningEvents(key, 0, body, 0) + TornEvents(o, sig, h1), OpeningEvents(key, 0, body, 0));
    StepsCompose(E, INITIAL, OpeningEvents(key, 0, body, 0) + TornEvents(o, sig, h1) + OpeningEvents(key, 0, body, 0), OnePass(o, sig, h2));
    FromTheStart(E, TwinEvents(key, o, body, sig, h1, h2));
  }

  const TWINS := TwinEvents(0, ONE.origin, BODY_ONE, [], [1], [2])

  /** Put the lost twin into the slot that is read first, and the next boot halts although the
      pinned blob is in its place. */
  lemma TwinHalts() returns (lost: Blob)
    ensures var s := Run(EXAMPLE, TWINS);
            var t := Reboot(EXAMPLE, Step(EXAMPLE, s, Tamper(0, Some(lost))));
            && lost in s.d.sealed && s.d.commits != [] && s.d.slot1 == Some(Head(s.d))
            && t.v.Up? && t.v.run.ram.halted
  {
    hide Run, TwinEvents, Reboot, Prepare, Wire.RequestText;
    ExamplePrepares(TEXT_ONE, ONE, 0, []);
    lost := TwinBlobs(EXAMPLE, 0, BODY_ONE, Prepared(0, [], ONE, TEXT_ONE), [], [1], [2]);
    OtherSlotExactly(EXAMPLE, TWINS, Some(lost));
    SlotParity(EXAMPLE, Run(EXAMPLE, TWINS), Some(lost));
  }

  lemma SlotParity(E: Env, s: State, content: Option<Blob>)
    ensures Step(E, s, Tamper(0, content)) == Step(E, s, Tamper(2, content))
  {
  }
}
