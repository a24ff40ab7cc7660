/** The byte-level store and the signing loop are runs of the machine, so every theorem about runs
    speaks about them. */
module Refinement {
  import opened Common
  import opened Merkle
  import opened Notes
  import opened StoreModel
  import opened Sequencer
  import opened System
  import opened Frames
  import opened Slots
  import opened Anchors
  import opened Store

  /** The state after further events. */
  function Steps(E: Env, s: State, events: seq<Event>): State {
    if events == [] then s else Step(E, Steps(E, s, events[..|events| - 1]), events[|events| - 1])
  }

  /** Continuing a run is a run. */
  lemma {:induction false} StepsContinueRuns(E: Env, events: seq<Event>, more: seq<Event>)
    ensures Steps(E, Run(E, events), more) == Run(E, events + more)
    decreases |more|
  {
    hide Step;
    if more == [] {
      assert events + more == events;
    } else {
      var all, init := events + more, more[..|more| - 1];
      StepsContinueRuns(E, events, init);
      assert all[..|all| - 1] == events + init && all[|all| - 1] == more[|more| - 1];
    }
  }

  lemma OneStep(E: Env, s: State, a: Event)
    ensures Steps(E, s, [a]) == Step(E, s, a)
  {
    hide Step;
    assert [a][..0] == [];
  }

  lemma TwoSteps(E: Env, s: State, a: Event, b: Event)
    ensures Steps(E, s, [a, b]) == Step(E, Step(E, s, a), b)
  {
    hide Step;
    assert [a, b][..1] == [a];
    OneStep(E, s, a);
  }

  lemma ThreeSteps(E: Env, s: State, a: Event, b: Event, c: Event)
    ensures Steps(E, s, [a, b, c]) == Step(E, Step(E, Step(E, s, a), b), c)
  {
    hide Step;
    assert [a, b, c][..2] == [a, b];
    TwoSteps(E, s, a, b);
  }

  // ----- the signing loop -----

  function SignEvents(order: seq<Bytes>, sigs: map<Bytes, Option<Bytes>>): seq<Event> {
    seq(|order|, i requires 0 <= i < |order| => Sign(order[i], SigFor(sigs, order[i])))
  }

  ghost predicate Distinct(order: seq<Bytes>) {
    forall i, j :: 0 <= i < j < |order| ==> order[i] != order[j]
  }

  /** In whatever order the loop visits the batch, the machine reaches the state of the loop. */
  lemma {:induction false} SigningLoopIsARun(E: Env, s: State, order: seq<Bytes>, sigs: map<Bytes, Option<Bytes>>)
    requires s.v.Up? && s.v.run.phase.Signing? && PoolsResolve(s.v.run) && s.v.run.phase.todo == s.v.run.sequencing.Keys
    requires s.v.run.phase.updates == map[] && !s.v.run.phase.failed
    requires Distinct(order) && forall o :: o in order ==> o in s.v.run.sequencing
    ensures Steps(E, s, SignEvents(order, sigs)).v == Up(SignedState(s.v.run, sigs, set o | o in order))
    ensures Steps(E, s, SignEvents(order, sigs)).d == s.d && Steps(E, s, SignEvents(order, sigs)).releases == s.releases
    decreases |order|
  {
    hide SignEntry, SignedState, PoolsResolve, Outcome, Step;
    var u := s.v.run;
    var events := SignEvents(order, sigs);
    if order == [] {
      NothingSigned(u, sigs);
      assert (set o | o in order) == {};
    } else {
      var init, last := order[..|order| - 1], order[|order| - 1];
      assert events[..|events| - 1] == SignEvents(init, sigs);
      SigningLoopIsARun(E, s, init, sigs);
      var done := set o | o in init;
      assert (set o | o in order) == done + {last} by {
        assert order == init + [last];
      }
      assert last in order && last !in done;
      SignTurn(u, sigs, done, last);
      StillToDo(u, sigs, done, last);
      SignStep(E, Steps(E, s, SignEvents(init, sigs)), last, SigFor(sigs, last));
    }
  }

  lemma SignStep(E: Env, s: State, o: Bytes, sig: Option<Bytes>)
    requires s.v.Up? && s.v.run.phase.Signing? && o in s.v.run.phase.todo
    requires o in s.v.run.sequencing && s.v.run.sequencing[o] in s.v.run.entries
    ensures Step(E, s, Sign(o, sig)).v == Up(SignEntry(s.v.run, o, sig)) && Step(E, s, Sign(o, sig)).d == s.d
    ensures Step(E, s, Sign(o, sig)).releases == s.releases
  {
    hide SignEntry;
  }

  lemma StillToDo(u: Running, sigs: map<Bytes, Option<Bytes>>, done: set<Bytes>, o: Bytes)
    requires u.phase.Signing? && PoolsResolve(u) && done <= u.sequencing.Keys && o in u.sequencing && o !in done
    ensures var v := SignedState(u, sigs, done);
            && v.phase.Signing? && o in v.phase.todo && v.sequencing == u.sequencing && v.sequencing[o] in v.entries
  {
  }

  // ----- the byte-level store -----

  /** What a machine state shows of its store. */
  function ShownBy(s: State): Shown
    requires s.v.Up?
  {
    Shown(s.v.run.ram, s.d.slot0, s.d.slot1, Some(s.d.anchor))
  }

  /** The machine state shows what the store object shows: both slots as they parse, the anchor
      sector as it decodes, and RAM. */
  ghost predicate Mirrors(s: State, st: RollbackStore)
    reads st, st.mem, st.dev, st.anchor
  {
    st.Valid() && s.v.Up? && st.View() == ShownBy(s)
  }

  ghost predicate Unused(sealed: set<Blob>, hash: Digest) {
    forall b :: b in sealed ==> b.hash != hash
  }

  lemma RefusedRun(E: Env, s: State, hash: Digest)
    requires s.v.Up? && s.v.run.phase.Writing?
    ensures var u, t := s.v.run, Steps(E, s, [WriteSlot(false, hash, Completed)]);
            && t.d == s.d && t.releases == s.releases
            && t.v == Up(CommitFailed(if u.ram.gen == MAX_GEN && !u.ram.halted then Halt(u) else u))
  {
    hide CommitFailed;
    OneStep(E, s, WriteSlot(false, hash, Completed));
  }

  lemma SlotErrorRun(E: Env, s: State, hash: Digest, w: WriteOutcome)
    requires s.v.Up? && s.v.run.phase.Writing? && !s.v.run.ram.halted && s.v.run.ram.gen != MAX_GEN
    requires Unused(s.d.sealed, hash) && (w.ErrorTorn? || w.ErrorWritten?)
    ensures var u, t := s.v.run, Steps(E, s, [WriteSlot(true, hash, w)]);
            var b := NextBlob(u.ram, u.phase.updates, hash);
            && t.v == Up(CommitFailed(Halt(u))) && t.d.anchor == s.d.anchor
            && t.d.commits == s.d.commits && t.releases == s.releases
            && Slot(t.d, b.gen) == (if w.ErrorTorn? then None else Some(b)) && Slot(t.d, b.gen + 1) == Slot(s.d, b.gen + 1)
            && t.d.sealed == s.d.sealed + {b}
  {
    hide NextStates, CommitFailed;
    OneStep(E, s, WriteSlot(true, hash, w));
  }

  lemma TornThenTampered(E: Env, s: State, hash: Digest, content: Blob)
    requires s.v.Up? && s.v.run.phase.Writing? && !s.v.run.ram.halted && s.v.run.ram.gen != MAX_GEN
    requires Unused(s.d.sealed, hash) && content in s.d.sealed
    ensures var gen := s.v.run.ram.gen + 1;
            var t := Steps(E, s, [WriteSlot(true, hash, ErrorTorn), Tamper(gen, Some(content))]);
            && t.v == Up(CommitFailed(Halt(s.v.run))) && t.d.anchor == s.d.anchor && t.releases == s.releases
            && Slot(t.d, gen) == Some(content) && Slot(t.d, gen + 1) == Slot(s.d, gen + 1)
  {
    hide NextStates, CommitFailed;
    var gen := s.v.run.ram.gen + 1;
    SlotErrorRun(E, s, hash, ErrorTorn);
    OneStep(E, s, WriteSlot(true, hash, ErrorTorn));
    TwoSteps(E, s, WriteSlot(true, hash, ErrorTorn), Tamper(gen, Some(content)));
  }

  /** What a failed write leaves in the slot opens only if it was sealed, earlier or just now. */
  ghost predicate Authentic(sealed: set<Blob>, ram: Ram, updates: Mem, view: Option<Blob>) {
    view.Some? ==>
      view.value in sealed || (view.value == NextBlob(ram, updates, view.value.hash) && Unused(sealed, view.value.hash))
  }

  /** Whatever authentic contents a failed slot write leaves, some run of the machine leaves them. */
  lemma FailedWriteRun(E: Env, s: State, hash: Digest, view: Option<Blob>) returns (events: seq<Event>)
    requires s.v.Up? && s.v.run.phase.Writing? && !s.v.run.ram.halted && s.v.run.ram.gen != MAX_GEN
    requires Unused(s.d.sealed, hash) && Authentic(s.d.sealed, s.v.run.ram, s.v.run.phase.updates, view)
    ensures var u, t := s.v.run, Steps(E, s, events);
            && t.v == Up(CommitFailed(Halt(u))) && t.d.anchor == s.d.anchor && t.releases == s.releases
            && Slot(t.d, u.ram.gen + 1) == view && Slot(t.d, u.ram.gen + 2) == Slot(s.d, u.ram.gen + 2)
  {
    hide Steps, NextBlob, Unused, CommitFailed;
    var ram, updates := s.v.run.ram, s.v.run.phase.updates;
    if view.None? {
      events := [WriteSlot(true, hash, ErrorTorn)];
      SlotErrorRun(E, s, hash, ErrorTorn);
      NextGeneration(ram, updates, hash);
    } else if view.value in s.d.sealed {
      events := [WriteSlot(true, hash, ErrorTorn), Tamper(ram.gen + 1, view)];
      TornThenTampered(E, s, hash, view.value);
    } else {
      events := [WriteSlot(true, view.value.hash, ErrorWritten)];
      SlotErrorRun(E, s, view.value.hash, ErrorWritten);
      NextGeneration(ram, updates, view.value.hash);
    }
  }

  function CommitEvents(hash: Digest, outcome: AnchorOutcome, ok: bool): seq<Event> {
    if ok then [WriteSlot(true, hash, Completed), WriteAnchor(outcome), Publish]
    else [WriteSlot(true, hash, Completed), WriteAnchor(outcome)]
  }

  lemma CommitRun(E: Env, s: State, hash: Digest, outcome: AnchorOutcome)
    requires s.v.Up? && s.v.run.phase.Writing? && !s.v.run.ram.halted && s.v.run.ram.gen != MAX_GEN
    requires Unused(s.d.sealed, hash)
    ensures var u := s.v.run;
            var b := NextBlob(u.ram, u.phase.updates, hash);
            var (anchor, ok) := SetAnchor(s.d.anchor, AnchorFor(b), outcome);
            var t := Steps(E, s, CommitEvents(hash, outcome, ok));
            && t.d.anchor == anchor && t.releases == s.releases
            && Slot(t.d, b.gen) == Some(b) && Slot(t.d, b.gen + 1) == Slot(s.d, b.gen + 1)
            && t.v == Up(if ok then Commit(u, u.phase.updates) else CommitFailed(Halt(u)))
  {
    hide NextBlob, Step, SetAnchor, CommitFailed, Commit;
    var u := s.v.run;
    WrittenStep(E, s, hash);
    var t1 := Step(E, s, WriteSlot(true, hash, Completed));
    AnchorStep(E, t1, outcome);
    var t2 := Step(E, t1, WriteAnchor(outcome));
    if SetAnchor(s.d.anchor, AnchorFor(t1.v.run.phase.blob), outcome).1 {
      PublishStep(E, t2, u);
    } else {
      FailureForgetsPhase(Halt(t1.v.run), Halt(u));
    }
    NextGeneration(u.ram, u.phase.updates, hash);
    TwoSteps(E, s, WriteSlot(true, hash, Completed), WriteAnchor(outcome));
    ThreeSteps(E, s, WriteSlot(true, hash, Completed), WriteAnchor(outcome), Publish);
  }

  lemma WrittenStep(E: Env, s: State, hash: Digest)
    requires s.v.Up? && s.v.run.phase.Writing? && !s.v.run.ram.halted && s.v.run.ram.gen != MAX_GEN
    requires Unused(s.d.sealed, hash)
    ensures var u, t := s.v.run, Step(E, s, WriteSlot(true, hash, Completed));
            var b := NextBlob(u.ram, u.phase.updates, hash);
            && t.d == WithSlot(s.d.(sealed := s.d.sealed + {b}), b.gen, Some(b))
            && t.v == Up(u.(phase := Anchoring(u.phase.updates, b))) && t.releases == s.releases
  {
    hide NextStates;
  }

  lemma AnchorStep(E: Env, s: State, outcome: AnchorOutcome)
    requires s.v.Up? && s.v.run.phase.Anchoring?
    ensures var u, t := s.v.run, Step(E, s, WriteAnchor(outcome));
            var (anchor, ok) := SetAnchor(s.d.anchor, AnchorFor(u.phase.blob), outcome);
            && t.d.anchor == anchor && t.d.slot0 == s.d.slot0 && t.d.slot1 == s.d.slot1 && t.v.Up?
            && t.releases == s.releases && t.d.sealed == s.d.sealed
            && (ok ==> t.v == Up(u.(phase := Publishing(u.phase.updates, u.phase.blob))) && t.d.commits == s.d.commits + [u.phase.blob])
            && (!ok ==> t.v == Up(CommitFailed(Halt(u))))
  {
    hide CommitFailed;
  }

  lemma PublishStep(E: Env, s: State, u: Running)
    requires u.phase.Writing? && s.v.Up? && s.v.run.phase.Publishing?
    requires s.v.run == u.(phase := s.v.run.phase) && s.v.run.phase.updates == u.phase.updates
    ensures Step(E, s, Publish) == s.(v := Up(Commit(u, u.phase.updates)))
  {
  }

  /** A failed batch does not depend on how far it had come. */
  lemma FailureForgetsPhase(u: Running, v: Running)
    requires u == v.(phase := u.phase)
    ensures CommitFailed(u) == CommitFailed(v)
  {
  }

  /** The ideal seal: a new seal has an unused digest, and what a failed write leaves in the slot
      authenticates only if it was sealed. */
  ghost predicate SealIsIdeal(s: State, after: Shown, r: PutResult)
    requires s.v.Up? && s.v.run.phase.Writing?
  {
    var view := ShownSlot(after, s.v.run.ram.gen + 1);
    && (r == SlotError ==> Authentic(s.d.sealed, s.v.run.ram, s.v.run.phase.updates, view))
    && (r == Committed || r == AnchorError ==> view.Some? && Unused(s.d.sealed, view.value.hash))
  }

  /** Every ending of PutBatch is a run of the machine. */
  lemma PutRun(E: Env, s: State, after: Shown, r: PutResult, outcome: AnchorOutcome, h: Digest) returns (events: seq<Event>)
    requires s.v.Up? && s.v.run.phase.Writing? && Unused(s.d.sealed, h)
    requires PutEnds(ShownBy(s), after, s.v.run.phase.updates, r, outcome) && SealIsIdeal(s, after, r)
    ensures var u, t := s.v.run, Steps(E, s, events);
            && t.v == Up(if r == Committed then Commit(u, u.phase.updates) else CommitFailed(u.(ram := after.ram)))
            && ShownBy(t) == after && t.releases == s.releases
  {
    hide NextBlob, NextStates, Steps, CommitEvents, SetAnchor, Unused, Authentic, CommitFailed;
    var u := s.v.run;
    FailureFrame(u);
    FailureFrame(Halt(u));
    var view := ShownSlot(after, u.ram.gen + 1);
    assert u.ram.gen % 2 == (u.ram.gen + 2) % 2;
    match r {
      case RefusedHalted =>
        events := [WriteSlot(false, h, Completed)];
        RefusedRun(E, s, h);
      case RefusedEarly =>
        events := [WriteSlot(false, h, Completed)];
        RefusedRun(E, s, h);
      case SlotError =>
        events := FailedWriteRun(E, s, h, view);
      case _ =>
        var b := view.value;
        events := CommitEvents(b.hash, outcome, SetAnchor(s.d.anchor, AnchorFor(b), outcome).1);
        CommitRun(E, s, b.hash, outcome);
        NextGeneration(u.ram, u.phase.updates, b.hash);
    }
  }

  /** Every PutBatch of the byte-level store, with any faults, is a run of the machine: the store
      object mirrors the state after the run as it mirrored the state before. */
  method PutBatchSimulates(st: RollbackStore, updates: Mem, nonce: Option<Bytes>, fault: WriteFault, outcome: AnchorOutcome,
                           ghost s: State, ghost h: Digest)
    returns (r: PutResult, ghost events: seq<Event>)
    requires Mirrors(s, st) && s.v.run.phase == Writing(updates) && (nonce.Some? ==> |nonce.value| == NONCE_LEN)
    requires Unused(s.d.sealed, h)
    modifies st, st.mem, st.dev, st.anchor
    ensures st.Valid() && (SealIsIdeal(s, st.View(), r) ==> Mirrors(Steps(st.E, s, events), st))
  {
    hide ParseSlot, ReadBlob, SlotBytes, DecodeRecord, Lawful, Steps, PutEnds, SealIsIdeal, Unused, CommitFailed;
    r := PutBatchSeen(st, updates, nonce, fault, outcome);
    events := [];
    if SealIsIdeal(s, st.View(), r) {
      events := PutRun(st.E, s, st.View(), r, outcome, h);
    }
  }

  lemma NextGeneration(ram: Ram, updates: Mem, hash: Digest)
    ensures NextBlob(ram, updates, hash).gen == ram.gen + 1
  {
  }

  lemma BootRun(E: Env, s: State, a: bool, r0: bool, r1: bool, outcome: AnchorOutcome)
    requires s.v.Off?
    ensures var t := Steps(E, s, [OpenStart(a, r0), OpenFinish(r1, outcome)]);
            if !a then t == s
            else
              && t.v.Up? && t.d.slot0 == s.d.slot0 && t.d.slot1 == s.d.slot1
              && match Decide(E, s.d.anchor, Newest(if r0 then s.d.slot0 else None, if r1 then s.d.slot1 else None))
                 case Done(ram) => t.v.run.ram == ram && t.d.anchor == s.d.anchor
                 case Reanchor(ram, b) =>
                   var (anchor, ok) := SetAnchor(s.d.anchor, AnchorFor(b), outcome);
                   t.d.anchor == anchor && t.v.run.ram == if ok then ram else ram.(halted := true)
  {
    hide Decide;
    TwoSteps(E, s, OpenStart(a, r0), OpenFinish(r1, outcome));
  }

  /** Recovery re-anchors the newest blob. */
  lemma ReanchorsNewest(E: Env, anchored: Anchor, newest: Option<Blob>)
    ensures Decide(E, anchored, newest).Reanchor? ==> newest == Some(Decide(E, anchored, newest).blob)
  {
    hide Admissible;
  }

  /** Every Open of the byte-level store is a boot of the machine. */
  method OpenSimulates(E: Env, c: Crypto, dev: Disk, off: int, key: Bytes, anchor: RPMBAnchor, wide: bool,
                       anchorReadable: bool, slotReadable: seq<bool>, outcome: AnchorOutcome, ghost s: State)
    returns (st: RollbackStore?, crashed: bool)
    requires anchor.Valid() && Lawful(c) && -TWO_63 <= off < TWO_63 && |slotReadable| == 2
    requires s.v.Off? && anchor.State() == Some(s.d.anchor)
    requires s.d.slot0 == dev.SlotView(c, key, off, 0, wide) && s.d.slot1 == dev.SlotView(c, key, off, 1, wide)
    modifies anchor
    ensures var t := Steps(E, s, [OpenStart(anchorReadable, slotReadable[0]), OpenFinish(slotReadable[1], outcome)]);
            && (crashed <==> anchorReadable
                             && exists slot :: 0 <= slot < 2 && slotReadable[slot] && dev.Panics(c, key, off, slot, wide))
            && (crashed ==> st == null && !wide)
            && (!crashed ==> if anchorReadable then st != null && Mirrors(t, st) else st == null && t == s)
  {
    hide ParseSlot, ReadBlob, SlotBytes, SectorOp, DecodeRecord, Lawful, Decide, Step, SetAnchor, Booted;
    PanicsOnlyNarrow(c, key, dev, off, 0, wide);
    PanicsOnlyNarrow(c, key, dev, off, 1, wide);
    BootRun(E, s, anchorReadable, slotReadable[0], slotReadable[1], outcome);
    SlotViewFits(c, key, dev, off, 0, wide);
    SlotViewFits(c, key, dev, off, 1, wide);
    ghost var newest := Newest(if slotReadable[0] then s.d.slot0 else None, if slotReadable[1] then s.d.slot1 else None);
    ReanchorsNewest(E, s.d.anchor, newest);
    if newest.Some? {
      SectorMatches(anchor.sector, s.d.anchor, newest.value, outcome);
    }
    st, crashed := RollbackStore.Open(E, c, dev, off, key, anchor, wide, anchorReadable, slotReadable, outcome);
  }
}
