/** Releases in time. A waiting request may wake late, so releases come out of commit order; but a
    request that is enqueued after a release was handed out can only be answered with that view or
    a checked extension of it. */
module Ordering {
  import opened Common
  import opened Merkle
  import opened Notes
  import opened StoreModel
  import opened Sequencer
  import opened System
  import opened Frames
  import opened Chains
  import opened Invariants
  import opened PreservationServing
  import opened Preservation
  import opened Theorems

  /** RAM holds the payload of the generation it has reached, and the anchor is there or one ahead. */
  ghost predicate Settled(d: Durable, ram: Ram) {
    ram.gen <= |d.commits| <= ram.gen + 1 && NotesOf(ram.mem) == StatesAt(d.commits, ram.gen)
  }

  /** A boot that did not start halted serves a settled RAM that has reached every release; one
      that did never takes a request. */
  ghost predicate BootOk(d: Durable, releases: seq<Release>, u: Running) {
    if u.bootHalted then u.ram.halted && u.threads == map[]
    else Settled(d, u.ram) && forall i :: 0 <= i < |releases| ==> releases[i].gen <= u.ram.gen
  }

  /** Each of the first `since` releases of its origin leads up to the checkpoint. */
  ghost predicate Succeeds(E: Env, releases: seq<Release>, since: nat, cp: Checkpoint) {
    && since <= |releases|
    && forall i :: 0 <= i < since && releases[i].cp.origin == cp.origin ==>
         Reaches(E, ReleasedView(releases[i]), View(cp.n, cp.hash))
  }

  ghost predicate WaitersOk(E: Env, releases: seq<Release>, threads: map<nat, Thread>) {
    forall tid :: tid in threads && threads[tid].Waiting? ==>
      Succeeds(E, releases, threads[tid].since, threads[tid].cand.cp)
  }

  ghost predicate ReleasesOk(E: Env, d: Durable, releases: seq<Release>) {
    forall j :: 0 <= j < |releases| ==>
      releases[j].gen <= |d.commits| && Succeeds(E, releases, releases[j].since, releases[j].cp)
  }

  ghost predicate OrderInv(E: Env, s: State) {
    && ReleasesOk(E, s.d, s.releases)
    && (s.v.Up? ==> BootOk(s.d, s.releases, s.v.run) && WaitersOk(E, s.releases, s.v.run.threads))
  }

  // ----- what RAM has seen -----

  lemma LineageTake(E: Env, commits: seq<Blob>, k: nat)
    requires Lineage(E, commits) && k <= |commits|
    ensures Lineage(E, commits[..k])
  {
    hide Extends;
    var part := commits[..k];
    forall i | 0 <= i < |part| ensures Extends(E, StatesAt(part, i), part[i].states) {
      assert StatesAt(part, i) == StatesAt(commits, i);
    }
  }

  /** The view in RAM is, or checkably extends, every view released for its origin. */
  lemma ReleaseReachesRam(E: Env, s: State, u: Running, i: nat)
    requires Inv(E, s) && s.v == Up(u) && !u.bootHalted && BootOk(s.d, s.releases, u) && i < |s.releases|
    ensures var r := s.releases[i];
            var now := MemView(u.ram.mem, r.cp.origin);
            now.Some? && Reaches(E, ReleasedView(r), now.value)
  {
    hide SealedOk, SlotsOk, ViewIn, Reaches, Lineage, PoolInv, EntryInv, ChannelInv, Fresh, BatchInv, SignedInv, GrantInv, ThreadInv,
         KeyInv, CountInv, ReleaseOk, MemRestores, NotesOf;
    var r := s.releases[i];
    var o := r.cp.origin;
    var k := ReleaseIsCommitted(E, s.d.commits, s.signatures, r);
    var part := s.d.commits[..u.ram.gen];
    LineageTake(E, s.d.commits, u.ram.gen);
    ViewsFrom(E, part, o, k);
    assert part[|part| - 1].states == StatesAt(s.d.commits, u.ram.gen);
    MemViewsAreNoteViews(E, u.ram.mem, o);
  }

  /** A candidate that may follow the view in RAM succeeds every release so far. */
  lemma FollowerSucceeds(E: Env, s: State, u: Running, cp: Checkpoint)
    requires Inv(E, s) && s.v == Up(u) && !u.bootHalted && BootOk(s.d, s.releases, u)
    requires Follows(E, MemView(u.ram.mem, cp.origin), View(cp.n, cp.hash))
    ensures Succeeds(E, s.releases, |s.releases|, cp)
  {
    hide Inv, BootOk, Follows, Reaches;
    forall i | 0 <= i < |s.releases| && s.releases[i].cp.origin == cp.origin
      ensures Reaches(E, ReleasedView(s.releases[i]), View(cp.n, cp.hash))
    {
      ReleaseReachesRam(E, s, u, i);
      ReachesMore(E, ReleasedView(s.releases[i]), MemView(u.ram.mem, cp.origin).value, View(cp.n, cp.hash));
    }
  }

  /** Admitted or joined, the candidate may follow the view in RAM. */
  lemma EnqueuedFollows(E: Env, s: State, u: Running, tid: nat)
    requires Inv(E, s) && s.v == Up(u) && tid in u.threads && u.threads[tid].Stamped? && PoolsResolve(u)
    requires var t := u.threads[tid];
             !Decision(E.hasher, u, t.prep.size, t.prep.proof, t.cand).Refuse?
    ensures var c := u.threads[tid].cand;
            Follows(E, MemView(u.ram.mem, c.cp.origin), View(c.cp.n, c.cp.hash))
  {
    hide DurableInv, HistoryInv, StoreInv, EntryInv, ChannelInv, Fresh, BatchInv, SignedInv, GrantInv, KeyInv, CountInv, TextOk, Follows,
         Judge;
    var t := u.threads[tid];
    var o := t.cand.cp.origin;
    if o !in u.current && o !in u.sequencing {
      JudgedOnce(E.hasher, u.ram.mem, t.prep.size, t.prep.proof, t.cand.cp);
      JudgedFollows(E, u.ram.mem, t.prep.size, t.prep.proof, t.cand.cp);
    }
  }

  lemma JudgedOnce(h: Hasher, mem: Mem, size: nat, proof: seq<Digest>, cp: Checkpoint)
    ensures !Judge(h, mem, size, proof, cp).Join?
  {
    hide CheckTree;
  }

  // ----- every step keeps the order -----

  /** Waiting requests of the new state were waiting in the old one. */
  ghost predicate SameWaiters(u: Running, v: Running) {
    && (forall tid :: tid in v.threads && v.threads[tid].Waiting? ==> tid in u.threads && u.threads[tid] == v.threads[tid])
    && (u.bootHalted && u.ram.halted && u.threads == map[] ==> v.threads == map[])
  }

  lemma FrameOrders(E: Env, s: State, t: State)
    requires OrderInv(E, s) && s.v.Up? && t.v.Up?
    requires t.d.commits == s.d.commits && t.releases == s.releases
    requires SameStore(s.v.run, t.v.run) && SameWaiters(s.v.run, t.v.run)
    ensures OrderInv(E, t)
  {
    hide Succeeds, NotesOf, StatesAt;
  }

  /** The steps that neither move the store nor enqueue nor answer. */
  predicate Plain(ev: Event) {
    !(ev.Tamper? || ev.PowerCut? || ev.OpenStart? || ev.OpenFinish? || ev.Enqueue? || ev.Answer? || ev.WriteAnchor? || ev.Publish?)
  }

  lemma PlainStepFrame(E: Env, s: State, u: Running, ev: Event)
    requires s.v == Up(u) && Plain(ev)
    ensures var t := ServingStep(E, s, u, ev);
            && t.v.Up? && t.d.commits == s.d.commits && t.releases == s.releases
            && SameStore(u, t.v.run) && SameWaiters(u, t.v.run)
  {
    hide DoSign, DoWriteSlot, Rotate, EndSigning, BeginPass, Retire, StopPools, DoSubmit, DoReadEpoch, DoProvision, DoDeprovision,
         DoReinstall, DoDestroyKey, DoBumpEpoch;
    match ev {
      case Sign(o, sig) => SignFrame(s, u, o, sig);
      case WriteSlot(fits, hash, w) => WriteSlotFrame(s, u, fits, hash, w);
      case Submit(tid, body) => SubmitFrame(E, s, u, tid, body);
      case ReadEpoch(tid) => SubmitFrame(E, s, u, tid, []);
      case _ => PassFrame(u); PoolFrames(u); KeyFrame(s, u, ev);
    }
  }

  lemma SubmitFrame(E: Env, s: State, u: Running, tid: nat, body: Bytes)
    requires s.v == Up(u)
    ensures var t := DoSubmit(E, s, u, tid, body);
            t.v.Up? && t.d == s.d && t.releases == s.releases && SameStore(u, t.v.run) && SameWaiters(u, t.v.run)
    ensures var t := DoReadEpoch(s, u, tid);
            t.v.Up? && t.d == s.d && t.releases == s.releases && SameStore(u, t.v.run) && SameWaiters(u, t.v.run)
  {
    hide Prepare;
  }

  lemma EnqueueOrders(E: Env, s: State, u: Running, tid: nat, id: nat)
    requires Inv(E, s) && OrderInv(E, s) && s.v == Up(u)
    ensures OrderInv(E, DoEnqueue(E, s, u, tid, id))
  {
    hide Inv, Succeeds, NotesOf, StatesAt, Decision, PoolsResolve, ReleasesOk;
    var t := DoEnqueue(E, s, u, tid, id);
    if t != s {
      var c := u.threads[tid];
      if !Decision(E.hasher, u, c.prep.size, c.prep.proof, c.cand).Refuse? {
        EnqueuedFollows(E, s, u, tid);
        FollowerSucceeds(E, s, u, c.cand.cp);
      }
    }
  }

  lemma SucceedsStays(E: Env, before: seq<Release>, after: seq<Release>, since: nat, cp: Checkpoint)
    requires Succeeds(E, before, since, cp) && before <= after
    ensures Succeeds(E, after, since, cp)
  {
    hide Reaches;
  }

  lemma AnswerOrders(E: Env, s: State, u: Running, tid: nat)
    requires Inv(E, s) && OrderInv(E, s) && s.v == Up(u)
    ensures OrderInv(E, DoAnswer(s, u, tid))
  {
    hide Inv, Succeeds, NotesOf, StatesAt;
    var t := DoAnswer(s, u, tid);
    forall since: nat, cp | Succeeds(E, s.releases, since, cp) ensures Succeeds(E, t.releases, since, cp) {
      SucceedsStays(E, s.releases, t.releases, since, cp);
    }
    AnswersItself(E, s, u, tid);
  }

  /** An answer goes to the candidate that waits for it. */
  lemma AnswersItself(E: Env, s: State, u: Running, tid: nat)
    ensures var t := DoAnswer(s, u, tid);
            t.releases != s.releases ==>
              && tid in u.threads && u.threads[tid].Waiting? && |t.releases| == |s.releases| + 1
              && var r := t.releases[|s.releases|];
                 r.cp == u.threads[tid].cand.cp && r.since == u.threads[tid].since && r.gen == u.ram.gen
  {
  }

  lemma WriteAnchorOrders(E: Env, s: State, u: Running, w: AnchorOutcome)
    requires Inv(E, s) && OrderInv(E, s) && s.v == Up(u)
    ensures OrderInv(E, DoWriteAnchor(s, u, w))
  {
    hide RunInv, HistoryInv, DurableInv, Succeeds, NotesOf, WriteRecord, WithResults;
    if u.phase.Anchoring? {
      AnchoringIsOneAhead(E, s, u);
      AnchoringIsSettled(E, s, u);
      RecordKeeps(E, s.d, u.phase.blob, w);
    }
  }

  lemma AnchoringIsSettled(E: Env, s: State, u: Running)
    requires RunInv(E, s.d.sealed, s.d.commits, s.signatures, u) && u.phase.Anchoring?
    ensures u.ram.gen == |s.d.commits| && !u.ram.halted
  {
    hide PoolInv, EntryInv, ChannelInv, Fresh, BatchInv, SignedInv, GrantInv, ThreadInv, KeyInv, CountInv, MemRestores, StatesAt, NextStates;
  }

  lemma PublishOrders(E: Env, s: State, u: Running)
    requires Inv(E, s) && OrderInv(E, s) && s.v == Up(u) && u.phase.Publishing?
    ensures OrderInv(E, WithRun(s, Commit(u, u.phase.updates)))
  {
    hide DurableInv, HistoryInv, PoolInv, EntryInv, ChannelInv, Fresh, BatchInv, SignedInv, GrantInv, ThreadInv, KeyInv, CountInv,
         MemRestores, Succeeds, NotesOf;
  }

  lemma BootOrders(E: Env, s: State, r: bool, w: AnchorOutcome)
    requires Inv(E, s) && OrderInv(E, s) && s.v.Opening?
    ensures OrderInv(E, DoOpenFinish(E, s, r, w))
  {
    hide Inv, Succeeds, NotesOf, Decide;
    OpenFinishKeeps(E, s, r, w);
    var t := DoOpenFinish(E, s, r, w);
    if !t.v.run.ram.halted {
      BootIsSettled(E, t);
    }
  }

  lemma BootIsSettled(E: Env, t: State)
    requires Inv(E, t) && t.v.Up? && !t.v.run.ram.halted && !t.v.run.phase.Publishing?
    ensures Settled(t.d, t.v.run.ram) && t.v.run.ram.gen == |t.d.commits|
  {
    hide DurableInv, HistoryInv, PoolInv, EntryInv, ChannelInv, Fresh, BatchInv, SignedInv, GrantInv, ThreadInv, KeyInv, CountInv,
         MemRestores, NotesOf;
  }

  lemma StepOrders(E: Env, s: State, ev: Event)
    requires Inv(E, s) && OrderInv(E, s)
    ensures OrderInv(E, Step(E, s, ev))
  {
    hide Inv, OrderInv, ServingStep, DoTamper, DoOpenStart, DoOpenFinish;
    match ev {
      case PowerCut => OffOrders(E, s);
      case Tamper(i, content) => TamperOrders(E, s, i, content);
      case OpenStart(a, r) => OpenStartOrders(E, s, a, r);
      case OpenFinish(r, w) => OpenFinishOrders(E, s, r, w);
      case _ => if s.v.Up? { ServingOrders(E, s, s.v.run, ev); }
    }
  }

  lemma OffOrders(E: Env, s: State)
    requires OrderInv(E, s)
    ensures OrderInv(E, s.(v := Off))
  {
    hide Succeeds;
  }

  lemma TamperOrders(E: Env, s: State, i: nat, content: Option<Blob>)
    requires OrderInv(E, s)
    ensures OrderInv(E, DoTamper(s, i, content))
  {
    hide Succeeds, NotesOf, StatesAt;
  }

  lemma OpenStartOrders(E: Env, s: State, a: bool, r: bool)
    requires OrderInv(E, s)
    ensures OrderInv(E, DoOpenStart(s, a, r))
  {
    hide Succeeds, NotesOf, StatesAt;
  }

  lemma OpenFinishOrders(E: Env, s: State, r: bool, w: AnchorOutcome)
    requires Inv(E, s) && OrderInv(E, s)
    ensures OrderInv(E, DoOpenFinish(E, s, r, w))
  {
    hide Inv, OrderInv;
    if s.v.Opening? {
      BootOrders(E, s, r, w);
    }
  }

  lemma ServingOrders(E: Env, s: State, u: Running, ev: Event)
    requires Inv(E, s) && OrderInv(E, s) && s.v == Up(u)
    requires !(ev.Tamper? || ev.PowerCut? || ev.OpenStart? || ev.OpenFinish?)
    ensures OrderInv(E, ServingStep(E, s, u, ev))
  {
    hide Inv, OrderInv, SameStore, SameWaiters, DoEnqueue, DoAnswer, DoWriteAnchor;
    match ev {
      case Enqueue(tid, id) => EnqueueOrders(E, s, u, tid, id);
      case Answer(tid) => AnswerOrders(E, s, u, tid);
      case WriteAnchor(w) => WriteAnchorOrders(E, s, u, w);
      case Publish => if u.phase.Publishing? { PublishOrders(E, s, u); }
      case _ =>
        PlainStepFrame(E, s, u, ev);
        FrameOrders(E, s, ServingStep(E, s, u, ev));
    }
  }

  lemma {:induction false} RunOrders(E: Env, events: seq<Event>)
    ensures OrderInv(E, Run(E, events))
  {
    hide Inv, Step;
    if events != [] {
      hide OrderInv;
      var init := events[..|events| - 1];
      RunOrders(E, init);
      RunKeeps(E, init);
      StepOrders(E, Run(E, init), events[|events| - 1]);
    }
  }

  // ----- releases in time -----

  /** The real-time guarantee: if release i had been handed out when the request of release j was
      enqueued, j is the view of i or a checked extension of it. A request that joined a pending
      entry counts as enqueued when it joined. */
  lemma LaterRequestsFollow(E: Env, events: seq<Event>, i: nat, j: nat)
    requires var rs := Run(E, events).releases;
             j < |rs| && i < rs[j].since && (i < |rs| ==> rs[i].cp.origin == rs[j].cp.origin)
    ensures var rs := Run(E, events).releases;
            i < |rs| && Reaches(E, ReleasedView(rs[i]), ReleasedView(rs[j]))
  {
    hide Run, Reaches;
    RunOrders(E, events);
  }

  /** The same at the moment of enqueueing: whether it is admitted or joins a pending entry, the
      candidate a request now waits for extends every release of its origin so far. */
  lemma EnqueuedAfterRelease(E: Env, events: seq<Event>, tid: nat, id: nat, i: nat)
    requires var s := Run(E, events);
             && s.v.Up? && tid in s.v.run.threads && s.v.run.threads[tid].Stamped?
             && i < |s.releases| && s.releases[i].cp.origin == s.v.run.threads[tid].cand.cp.origin
    requires var t := Step(E, Run(E, events), Enqueue(tid, id));
             t.v.Up? && tid in t.v.run.threads && t.v.run.threads[tid].Waiting?
    ensures var s := Run(E, events);
            var w := Step(E, s, Enqueue(tid, id)).v.run.threads[tid];
            && w.cand == s.v.run.threads[tid].cand && w.since == |s.releases|
            && Reaches(E, ReleasedView(s.releases[i]), CandView(w.cand))
  {
    hide Run, Reaches, Inv, OrderInv, Decision, PoolsResolve;
    RunOrders(E, events);
    RunKeeps(E, events);
    var s := Run(E, events);
    StepOrders(E, s, Enqueue(tid, id));
    WaiterSucceeds(E, Step(E, s, Enqueue(tid, id)), tid, i);
  }

  lemma WaiterSucceeds(E: Env, t: State, tid: nat, i: nat)
    requires OrderInv(E, t) && t.v.Up? && tid in t.v.run.threads && t.v.run.threads[tid].Waiting?
    requires i < t.v.run.threads[tid].since && (i < |t.releases| ==> t.releases[i].cp.origin == t.v.run.threads[tid].cand.cp.origin)
    ensures i < |t.releases| && Reaches(E, ReleasedView(t.releases[i]), CandView(t.v.run.threads[tid].cand))
  {
    hide Reaches, BootOk, ReleasesOk;
  }

  lemma ChainReaches(E: Env, views: seq<View>, a: nat, b: nat)
    requires Chain(E, views) && a <= b < |views|
    ensures Reaches(E, views[a], views[b])
  {
    hide Follows;
    var path := views[a..b + 1];
    forall k | 0 < k < |path| ensures Link(E, path, k) {
      assert Link(E, views, a + k);
    }
    assert Path(E, path, views[a], views[b]);
  }

  /** Any two releases of one origin are comparable, whenever they were handed out. */
  lemma ReleasesComparable(E: Env, events: seq<Event>, i: nat, j: nat)
    requires var rs := Run(E, events).releases;
             i < |rs| && j < |rs| && rs[i].cp.origin == rs[j].cp.origin
    ensures var rs := Run(E, events).releases;
            Reaches(E, ReleasedView(rs[i]), ReleasedView(rs[j])) || Reaches(E, ReleasedView(rs[j]), ReleasedView(rs[i]))
  {
    hide Run, Chain, Views, Reaches;
    var s := Run(E, events);
    var o := s.releases[i].cp.origin;
    NoSplitView(E, events, o);
    var views := Views(E, s.d.commits, o);
    var a :| 0 <= a < |views| && views[a] == ReleasedView(s.releases[i]);
    var b :| 0 <= b < |views| && views[b] == ReleasedView(s.releases[j]);
    if a <= b {
      ChainReaches(E, views, a, b);
    } else {
      ChainReaches(E, views, b, a);
    }
  }

  // ----- a halted store and its anchor -----

  /** A store that began to serve and then halted still holds the payload of its own generation;
      the anchor is at that generation or exactly one ahead. */
  lemma HaltedLagsByOne(E: Env, events: seq<Event>)
    requires Run(E, events).v.Up? && !Run(E, events).v.run.bootHalted
    ensures var s := Run(E, events);
            var u := s.v.run;
            && s.d.anchor.gen == |s.d.commits| && u.ram.gen <= s.d.anchor.gen <= u.ram.gen + 1
            && u.ram.gen == u.bootGen + u.committed
            && NotesOf(u.ram.mem) == StatesAt(s.d.commits, u.ram.gen)
  {
    hide Run, NotesOf, WaitersOk, ReleasesOk;
    hide SealedOk, HistoryInv, StoreInv, PoolInv, EntryInv, ChannelInv, Fresh, BatchInv, SignedInv, GrantInv, ThreadInv, KeyInv, Lineage;
    RunOrders(E, events);
    RunKeeps(E, events);
  }

  /** It is one ahead exactly when the step that halted the store was an anchor write that landed
      and reported an error. */
  lemma HaltingStep(E: Env, events: seq<Event>, ev: Event)
    requires Run(E, events).v.Up? && !Run(E, events).v.run.ram.halted
    requires var t := Step(E, Run(E, events), ev);
             t.v.Up? && t.v.run.ram.halted
    ensures var t := Step(E, Run(E, events), ev);
            t.d.anchor.gen == t.v.run.ram.gen + (if ev == WriteAnchor(ErrorLanded) then 1 else 0)
  {
    hide Run, Inv, PoolInv;
    RunKeeps(E, events);
    HaltingStepFrom(E, Run(E, events), Run(E, events).v.run, ev);
  }

  lemma HaltingStepFrom(E: Env, s: State, u: Running, ev: Event)
    requires Inv(E, s) && s.v == Up(u) && !u.ram.halted
    requires Step(E, s, ev).v.Up? && Step(E, s, ev).v.run.ram.halted
    ensures var t := Step(E, s, ev);
            t.d.anchor.gen == t.v.run.ram.gen + (if ev == WriteAnchor(ErrorLanded) then 1 else 0)
  {
    hide Inv, DoWriteSlot, DoWriteAnchor, ServingStep;
    OnlyWritesHalt(E, s, u, ev);
    if ev.WriteSlot? {
      WriteSlotHalts(E, s, u, ev.fits, ev.hash, ev.slotWrite);
    } else {
      WriteAnchorHalts(E, s, u, ev.anchorWrite);
    }
  }

  lemma OnlyWritesHalt(E: Env, s: State, u: Running, ev: Event)
    requires s.v == Up(u) && !u.ram.halted && Step(E, s, ev).v.Up? && Step(E, s, ev).v.run.ram.halted
    ensures (ev.WriteSlot? && Step(E, s, ev) == DoWriteSlot(s, u, ev.fits, ev.hash, ev.slotWrite))
         || (ev.WriteAnchor? && Step(E, s, ev) == DoWriteAnchor(s, u, ev.anchorWrite))
  {
    hide Decision, Prepare, DoWriteSlot, DoWriteAnchor, WithClosed, WithResults, Rotate, BeginPass, EndSigning, Retire, StopPools, DoSign;
    PassFrame(u);
    PoolFrames(u);
    if ev.Sign? {
      SignFrame(s, u, ev.origin, ev.sig);
    }
  }

  lemma WriteSlotHalts(E: Env, s: State, u: Running, fits: bool, hash: Digest, w: WriteOutcome)
    requires Inv(E, s) && s.v == Up(u) && !u.ram.halted && DoWriteSlot(s, u, fits, hash, w).v.run.ram.halted
    ensures var t := DoWriteSlot(s, u, fits, hash, w); t.d.anchor.gen == t.v.run.ram.gen
  {
    hide Inv, CommitFailed, NextBlob, Settled;
    FailureFrame(u);
    FailureFrame(Halt(u));
    if u.phase.Writing? {
      BootIsSettled(E, s);
      AnchorCounts(E, s);
    }
  }

  lemma AnchorCounts(E: Env, s: State)
    requires Inv(E, s)
    ensures s.d.anchor.gen == |s.d.commits| && DurableInv(E, s.d)
  {
    hide RunInv, HistoryInv, SealedOk, Lineage;
  }

  lemma WriteAnchorHalts(E: Env, s: State, u: Running, w: AnchorOutcome)
    requires Inv(E, s) && s.v == Up(u) && !u.ram.halted && DoWriteAnchor(s, u, w).v.run.ram.halted
    ensures var t := DoWriteAnchor(s, u, w); t.d.anchor.gen == t.v.run.ram.gen + (if w.ErrorLanded? then 1 else 0)
  {
    hide DurableInv, HistoryInv, RunInv, CommitFailed, WriteRecord;
    FailureFrame(Halt(u));
    if u.phase.Anchoring? {
      AnchoringIsOneAhead(E, s, u);
      AnchoringIsSettled(E, s, u);
      RecordKeeps(E, s.d, u.phase.blob, w);
      RecordCounts(E, s.d, u.phase.blob, w);
    }
  }

  lemma RecordCounts(E: Env, d: Durable, b: Blob, w: AnchorOutcome)
    requires DurableInv(E, d) && b.gen == |d.commits| + 1
    ensures WriteRecord(d, b, w).0.anchor.gen == |d.commits| + (if w.ErrorLost? then 0 else 1)
  {
    hide SealedOk, Lineage, SlotsOk;
  }
}
