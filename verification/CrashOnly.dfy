/** Runs without tampering: power cuts, torn writes and write errors at any point, but nobody
    replaces what the unit wrote. Such a unit always comes back and never loses a commit. */
module CrashOnly {
  import opened Common
  import opened Merkle
  import opened Notes
  import opened StoreModel
  import opened Sequencer
  import opened System
  import opened Frames
  import opened Invariants
  import opened Preservation
  import opened Theorems

  ghost predicate NoTampering(events: seq<Event>) {
    forall i :: 0 <= i < |events| ==> !events[i].Tamper?
  }

  /** Power cycle, with working reads and a working anchor. */
  function Reboot(E: Env, s: State): State {
    Step(E, Step(E, Step(E, s, PowerCut), OpenStart(true, true)), OpenFinish(true, Acked))
  }

  /** Blobs sit in the slot of their parity, and the pinned blob is in its slot. */
  ghost predicate SlotsInOrder(d: Durable) {
    && (d.slot0.Some? ==> d.slot0.value.gen % 2 == 0)
    && (d.slot1.Some? ==> d.slot1.value.gen % 2 == 1)
    && (d.commits != [] ==> Slot(d, |d.commits|) == Some(Head(d)))
  }

  ghost predicate CrashInv(s: State) {
    && SlotsInOrder(s.d)
    && (s.v.Opening? ==> s.v.first.None? || s.v.first == s.d.slot0)
    && (s.v.Up? && s.v.run.phase.Anchoring? ==> Slot(s.d, s.v.run.phase.blob.gen) == Some(s.v.run.phase.blob))
  }

  lemma RecordKeepsOrder(E: Env, d: Durable, b: Blob, outcome: AnchorOutcome)
    requires DurableInv(E, d) && SlotsInOrder(d) && b in d.sealed && b.gen == |d.commits| + 1
    requires Slot(d, b.gen) == Some(b)
    ensures SlotsInOrder(WriteRecord(d, b, outcome).0)
  {
    hide Extends, Admissible;
    RecordKeeps(E, d, b, outcome);
    var e := WriteRecord(d, b, outcome).0;
    assert e.slot0 == d.slot0 && e.slot1 == d.slot1;
  }

  lemma OpenKeepsOrder(E: Env, s: State, r: bool, w: AnchorOutcome)
    requires Inv(E, s) && CrashInv(s)
    ensures CrashInv(DoOpenFinish(E, s, r, w))
  {
    hide RunInv, HistoryInv, Decide, MemRestores, WriteRecord, CommitsOk, SealedOk;
    if s.v.Opening? {
      var newest := Newest(s.v.first, if r then s.d.slot1 else None);
      DecisionIsSafe(E, s.d, newest);
      var boot := Decide(E, s.v.anchored, newest);
      if boot.Reanchor? {
        AnchorsWhatItRead(E, s.v.anchored, newest);
        RecordKeepsOrder(E, s.d, boot.blob, w);
      }
    }
  }

  lemma AnchorsWhatItRead(E: Env, anchored: Anchor, newest: Option<Blob>)
    requires Decide(E, anchored, newest).Reanchor?
    ensures newest == Some(Decide(E, anchored, newest).blob)
  {
    hide Admissible;
  }

  lemma WriteSlotKeepsOrder(E: Env, s: State, u: Running, fits: bool, hash: Digest, w: WriteOutcome)
    requires Inv(E, s) && CrashInv(s) && s.v == Up(u)
    ensures CrashInv(DoWriteSlot(s, u, fits, hash, w))
  {
    hide RunInv, HistoryInv, DurableInv, NextStates, CommitFailed;
    FailureFrame(u);
    FailureFrame(Halt(u));
    if u.phase.Writing? && !u.ram.halted {
      WritingIsCurrent(E, s, u);
    }
  }

  lemma WritingIsCurrent(E: Env, s: State, u: Running)
    requires RunInv(E, s.d.sealed, s.d.commits, s.signatures, u) && u.phase.Writing? && !u.ram.halted
    ensures u.ram.gen == |s.d.commits|
  {
    hide PoolInv, EntryInv, ChannelInv, Fresh, BatchInv, SignedInv, GrantInv, ThreadInv, KeyInv, CountInv, MemRestores, StatesAt, NextStates;
  }

  lemma WriteAnchorKeepsOrder(E: Env, s: State, u: Running, w: AnchorOutcome)
    requires Inv(E, s) && CrashInv(s) && s.v == Up(u)
    ensures CrashInv(DoWriteAnchor(s, u, w))
  {
    hide RunInv, HistoryInv, DurableInv, WriteRecord, WithResults;
    if u.phase.Anchoring? {
      AnchoringIsOneAhead(E, s, u);
      RecordKeepsOrder(E, s.d, u.phase.blob, w);
    }
  }

  lemma OtherStepsKeepOrder(E: Env, s: State, u: Running, ev: Event)
    requires CrashInv(s) && s.v == Up(u)
    requires !ev.Tamper? && !ev.PowerCut? && !ev.OpenStart? && !ev.OpenFinish? && !ev.WriteSlot? && !ev.WriteAnchor?
    ensures CrashInv(ServingStep(E, s, u, ev))
  {
    hide SlotsInOrder, Decision, Prepare, WithResults, WithClosed, SignResult;
  }

  lemma CrashStepKeeps(E: Env, s: State, ev: Event)
    requires Inv(E, s) && CrashInv(s) && !ev.Tamper?
    ensures CrashInv(Step(E, s, ev))
  {
    hide Inv, SlotsInOrder, DoOpenFinish, ServingStep;
    if ev.OpenFinish? {
      OpenKeepsOrder(E, s, ev.slotReadable, ev.anchorWrite);
    } else if !ev.OpenStart? && !ev.PowerCut? && s.v.Up? {
      if ev.WriteSlot? {
        WriteSlotKeepsOrder(E, s, s.v.run, ev.fits, ev.hash, ev.slotWrite);
        ServingWrites(E, s, s.v.run, ev);
      } else if ev.WriteAnchor? {
        WriteAnchorKeepsOrder(E, s, s.v.run, ev.anchorWrite);
        ServingWrites(E, s, s.v.run, ev);
      } else {
        OtherStepsKeepOrder(E, s, s.v.run, ev);
      }
    }
  }

  lemma ServingWrites(E: Env, s: State, u: Running, ev: Event)
    ensures ev.WriteSlot? ==> ServingStep(E, s, u, ev) == DoWriteSlot(s, u, ev.fits, ev.hash, ev.slotWrite)
    ensures ev.WriteAnchor? ==> ServingStep(E, s, u, ev) == DoWriteAnchor(s, u, ev.anchorWrite)
  {
    hide DoWriteSlot, DoWriteAnchor;
  }

  lemma {:induction false} CrashRunKeeps(E: Env, events: seq<Event>)
    requires NoTampering(events)
    ensures CrashInv(Run(E, events))
  {
    if events != [] {
      hide Inv, CrashInv, Step;
      var init := events[..|events| - 1];
      CrashRunKeeps(E, init);
      RunKeeps(E, init);
      CrashStepKeeps(E, Run(E, init), events[|events| - 1]);
    } else {
      hide Inv, Step;
    }
  }

  /** The blob in the slot that the next commit writes, if it is one ahead of the anchor. */
  predicate Ahead(d: Durable) {
    var next := Slot(d, |d.commits| + 1);
    next.Some? && next.value.gen == |d.commits| + 1
  }

  lemma OrderedSlotsOpen(E: Env, d: Durable)
    requires DurableInv(E, d) && SlotsInOrder(d)
    ensures var newest := Newest(d.slot0, d.slot1);
            if Ahead(d) then newest == Slot(d, |d.commits| + 1)
            else newest == if d.commits == [] then None else Some(Head(d))
  {
    hide Extends, Admissible, Lineage;
  }

  /** After any crash, at any point of any commit, the next boot is not halted and serves exactly
      the pinned state, or the one-ahead commit that was interrupted, which it anchors. */
  lemma CrashedUnitRecovers(E: Env, events: seq<Event>)
    requires NoTampering(events)
    ensures var s := Run(E, events);
            var t := Reboot(E, s);
            && t.v.Up? && !t.v.run.ram.halted
            && if Ahead(s.d) then
                 var b := Slot(s.d, |s.d.commits| + 1).value;
                 && t.d.commits == s.d.commits + [b] && t.v.run.ram.gen == b.gen && NotesOf(t.v.run.ram.mem) == b.states
               else
                 && t.d == s.d && t.v.run.ram.gen == |s.d.commits|
                 && NotesOf(t.v.run.ram.mem) == StatesAt(s.d.commits, |s.d.commits|)
  {
    hide RunInv, HistoryInv, Run, WriteRecord, SealedOk, Lineage, MemRestores, SlotsInOrder, Decide;
    RunKeeps(E, events);
    CrashRunKeeps(E, events);
    var s := Run(E, events);
    RebootOrdered(E, s.d);
    RebootIsOpen(E, s);
    if Ahead(s.d) {
      RecordKeeps(E, s.d, Slot(s.d, |s.d.commits| + 1).value, Acked);
    }
  }

  lemma RebootIsOpen(E: Env, s: State)
    ensures Reboot(E, s)
         == DoOpenFinish(E, s.(v := Opening(s.d.anchor, s.d.slot0)), true, Acked)
  {
    hide DoOpenFinish;
  }

  lemma RebootOrdered(E: Env, d: Durable)
    requires DurableInv(E, d) && SlotsInOrder(d)
    ensures var newest := Newest(d.slot0, d.slot1);
            if Ahead(d) then
              var b := Slot(d, |d.commits| + 1).value;
              && newest == Some(b) && b in d.sealed && b.gen == |d.commits| + 1 && Admissible(E, b.states)
              && Decide(E, d.anchor, newest) == Reanchor(Ram(b.gen, false, Admitted(E, b.states)), b)
            else
              var states := StatesAt(d.commits, |d.commits|);
              Admissible(E, states) && Decide(E, d.anchor, newest) == Done(Ram(|d.commits|, false, Admitted(E, states)))
  {
    hide Extends, Lineage, Restore;
    OrderedSlotsOpen(E, d);
  }

  /** What an interrupted commit leaves behind, outcome by outcome: once the slot write has
      landed, the batch is never lost, whatever happens to the anchor write; if the slot write was
      torn, the unit serves the state before the batch. */
  lemma InterruptedCommit(E: Env, events: seq<Event>, hash: Digest, w: WriteOutcome)
    requires NoTampering(events)
    requires var s := Run(E, events);
             && s.v.Up? && s.v.run.phase.Writing? && !s.v.run.ram.halted && s.v.run.ram.gen < MAX_GEN
             && !(exists b :: b in s.d.sealed && b.hash == hash)
    ensures var s := Run(E, events);
            var b := NextBlob(s.v.run.ram, s.v.run.phase.updates, hash);
            var ram := Reboot(E, Step(E, s, WriteSlot(true, hash, w))).v.run.ram;
            && Reboot(E, Step(E, s, WriteSlot(true, hash, w))).v.Up? && !ram.halted
            && (w.Completed? || w.ErrorWritten? ==> ram.gen == b.gen && NotesOf(ram.mem) == b.states)
            && (w.ErrorTorn? ==> ram.gen == s.v.run.ram.gen && NotesOf(ram.mem) == NotesOf(s.v.run.ram.mem))
  {
    hide Inv, Run, Reboot, Step, NextBlob, Ahead, NoTampering, NotesOf, StatesAt;
    RunKeeps(E, events);
    SlotAfterWrite(E, Run(E, events), Run(E, events).v.run, hash, w);
    ExtendRun(E, events, WriteSlot(true, hash, w));
    CrashedUnitRecovers(E, events + [WriteSlot(true, hash, w)]);
  }

  /** If the write left the slot as it was, what was there decides. */
  lemma UntouchedSlotDecides(E: Env, events: seq<Event>, hash: Digest)
    requires NoTampering(events)
    requires var s := Run(E, events);
             && s.v.Up? && s.v.run.phase.Writing? && !s.v.run.ram.halted && s.v.run.ram.gen < MAX_GEN
             && !(exists b :: b in s.d.sealed && b.hash == hash)
    ensures var s := Run(E, events);
            var t := Reboot(E, Step(E, s, WriteSlot(true, hash, ErrorKept)));
            && t.v.Up? && !t.v.run.ram.halted
            && if Ahead(s.d) then
                 t.v.run.ram.gen == |s.d.commits| + 1 && NotesOf(t.v.run.ram.mem) == Slot(s.d, |s.d.commits| + 1).value.states
               else t.v.run.ram.gen == |s.d.commits| && NotesOf(t.v.run.ram.mem) == StatesAt(s.d.commits, |s.d.commits|)
  {
    hide Inv, Run, Reboot, Step, NextBlob, NoTampering, NotesOf, StatesAt;
    RunKeeps(E, events);
    SlotAfterWrite(E, Run(E, events), Run(E, events).v.run, hash, ErrorKept);
    ExtendRun(E, events, WriteSlot(true, hash, ErrorKept));
    CrashedUnitRecovers(E, events + [WriteSlot(true, hash, ErrorKept)]);
  }

  lemma SlotAfterWrite(E: Env, s: State, u: Running, hash: Digest, w: WriteOutcome)
    requires Inv(E, s) && s.v == Up(u) && u.phase.Writing? && !u.ram.halted && u.ram.gen < MAX_GEN
    requires !(exists b :: b in s.d.sealed && b.hash == hash)
    ensures var t := Step(E, s, WriteSlot(true, hash, w));
            && t.d.commits == s.d.commits && |s.d.commits| == u.ram.gen
            && NotesOf(u.ram.mem) == StatesAt(t.d.commits, |t.d.commits|)
            && (w.Completed? || w.ErrorWritten? ==>
                  Ahead(t.d) && Slot(t.d, |t.d.commits| + 1) == Some(NextBlob(u.ram, u.phase.updates, hash)))
            && (w.ErrorTorn? ==> !Ahead(t.d))
            && (w.ErrorKept? ==> (Ahead(t.d) <==> Ahead(s.d)) && Slot(t.d, |t.d.commits| + 1) == Slot(s.d, |t.d.commits| + 1))
            && NextBlob(u.ram, u.phase.updates, hash).gen == |s.d.commits| + 1
  {
    hide HistoryInv, DurableInv, PoolInv, EntryInv, ChannelInv, Fresh, BatchInv, SignedInv, GrantInv, ThreadInv, KeyInv,
         CountInv, NextStates, WithResults, MemRestores, StatesAt, NotesOf;
  }

  lemma ExtendRun(E: Env, events: seq<Event>, ev: Event)
    requires NoTampering(events) && !ev.Tamper?
    ensures NoTampering(events + [ev]) && Run(E, events + [ev]) == Step(E, Run(E, events), ev)
  {
    hide Step;
    assert (events + [ev])[..|events|] == events;
  }

  /** The anchor write decides nothing about survival: acknowledged, lost or landed unseen, the
      batch whose blob is on the card is what the next boot serves. */
  lemma AnchoringSurvives(E: Env, events: seq<Event>, w: AnchorOutcome)
    requires NoTampering(events) && Run(E, events).v.Up? && Run(E, events).v.run.phase.Anchoring?
    ensures var b := Run(E, events).v.run.phase.blob;
            var t := Reboot(E, Step(E, Run(E, events), WriteAnchor(w)));
            && t.v.Up? && !t.v.run.ram.halted && t.v.run.ram.gen == b.gen && NotesOf(t.v.run.ram.mem) == b.states
  {
    hide Inv, CrashInv, Run, Reboot, NoTampering, WriteRecord, Ahead, NotesOf, StatesAt, FailBatch;
    RunKeeps(E, events);
    CrashRunKeeps(E, events);
    var s := Run(E, events);
    SlotsAfterAnchor(E, s, s.v.run, w);
    ExtendRun(E, events, WriteAnchor(w));
    CrashedUnitRecovers(E, events + [WriteAnchor(w)]);
  }

  lemma SlotsAfterAnchor(E: Env, s: State, u: Running, w: AnchorOutcome)
    requires Inv(E, s) && CrashInv(s) && s.v == Up(u) && u.phase.Anchoring?
    ensures var d := WriteRecord(s.d, u.phase.blob, w).0;
            if w.ErrorLost? then Ahead(d) && Slot(d, |d.commits| + 1) == Some(u.phase.blob)
            else !Ahead(d) && |d.commits| == u.phase.blob.gen && StatesAt(d.commits, |d.commits|) == u.phase.blob.states
    ensures u.phase.blob.gen == |s.d.commits| + 1
  {
    hide RunInv, HistoryInv, Lineage, Extends, Admissible;
    AnchoringIsOneAhead(E, s, u);
    RecordKeeps(E, s.d, u.phase.blob, w);
  }

  /** With the pinned blob in its slot and arbitrary authentic contents in the other, the next boot
      halts exactly when that is a different blob of the pinned generation in the slot that is read
      first. Otherwise it serves the contents if they are one ahead, having anchored them, and the
      pinned state if not. */
  lemma OtherSlotExactly(E: Env, events: seq<Event>, content: Option<Blob>)
    requires var d := Run(E, events).d;
             d.commits != [] && Slot(d, |d.commits|) == Some(Head(d)) && (content.Some? ==> content.value in d.sealed)
    ensures var s := Run(E, events);
            var t := Reboot(E, Step(E, s, Tamper(|s.d.commits| + 1, content)));
            && t.v.Up?
            && (t.v.run.ram.halted <==>
                  |s.d.commits| % 2 == 1 && content.Some? && content.value.gen == |s.d.commits| && content.value != Head(s.d))
            && (!t.v.run.ram.halted ==>
                  var b := if content.Some? && content.value.gen == |s.d.commits| + 1 then content.value else Head(s.d);
                  && t.v.run.ram.gen == b.gen && NotesOf(t.v.run.ram.mem) == b.states
                  && t.d.anchor == AnchorFor(b))
  {
    hide RunInv, HistoryInv, Run, WriteRecord, Decide, DoOpenFinish, Step, Lineage, SealedOk, Admissible;
    RunKeeps(E, events);
    var s := Run(E, events);
    var d := WithSlot(s.d, |s.d.commits| + 1, content);
    TamperKeeps(E, s, |s.d.commits| + 1, content);
    TamperedSlots(E, s, content);
    RebootIsOpen(E, Step(E, s, Tamper(|s.d.commits| + 1, content)));
    OtherSlotDecides(E, d, content);
    OpensOn(E, Step(E, s, Tamper(|s.d.commits| + 1, content)).(v := Opening(d.anchor, d.slot0)));
  }

  lemma TamperedSlots(E: Env, s: State, content: Option<Blob>)
    requires content.Some? ==> content.value in s.d.sealed
    ensures var i := |s.d.commits| + 1;
            Step(E, s, Tamper(i, content)) == DoTamper(s, i, content) == s.(d := WithSlot(s.d, i, content))
  {
  }

  /** What the boot decision makes of the pinned blob and the contents of the other slot. */
  lemma OtherSlotDecides(E: Env, d: Durable, content: Option<Blob>)
    requires DurableInv(E, d) && d.commits != [] && Slot(d, |d.commits|) == Some(Head(d)) && Slot(d, |d.commits| + 1) == content
    ensures var decision := Decide(E, d.anchor, Newest(d.slot0, d.slot1));
            if content.Some? && content.value.gen == |d.commits| + 1 then
              && Admissible(E, content.value.states)
              && decision == Reanchor(Ram(content.value.gen, false, Admitted(E, content.value.states)), content.value)
            else if |d.commits| % 2 == 1 && content.Some? && content.value.gen == |d.commits| && content.value != Head(d) then
              decision == Done(Halted(0))
            else
              Admissible(E, Head(d).states) && decision == Done(Ram(Head(d).gen, false, Admitted(E, Head(d).states)))
    ensures d.anchor == AnchorFor(Head(d))
  {
    hide Extends, Lineage, Restore;
  }

  /** Booting with working reads and a working anchor carries the decision out. */
  lemma OpensOn(E: Env, s: State)
    requires s.v.Opening? && s.v.first == s.d.slot0
    ensures var t := DoOpenFinish(E, s, true, Acked);
            t.v.Up? && match Decide(E, s.v.anchored, Newest(s.d.slot0, s.d.slot1))
                       case Done(ram) => t.v.run.ram == ram && t.d == s.d
                       case Reanchor(ram, b) =>
                         b.gen > s.d.anchor.gen ==> t.v.run.ram == ram && t.d.anchor == AnchorFor(b)
  {
    hide Decide;
  }

  // ----- every boot -----

  /** Of two slots, the newest is a valid one that the other does not exceed; the first wins ties. */
  lemma NewestIs(first: Option<Blob>, second: Option<Blob>)
    ensures var r := Newest(first, second);
            && (r.None? <==> first.None? && second.None?)
            && (r == first || r == second)
            && (first.Some? ==> r.value.gen >= first.value.gen)
            && (second.Some? ==> r.value.gen >= second.value.gen)
            && (first.Some? && r.value.gen == first.value.gen ==> r == first)
  {
  }

  /** Whatever was done to the card, a boot serves if and only if the newest valid blob is the pinned
      one, or there is none and nothing was ever committed, or it is one ahead and anchoring it is
      acknowledged; and then it serves exactly that blob. Every other boot is halted, empty unless
      the anchor write of a one-ahead blob failed. */
  lemma BootServesExactly(E: Env, events: seq<Event>, slotReadable: bool, w: AnchorOutcome)
    requires Run(E, events).v.Opening?
    ensures var s, t := Run(E, events), Step(E, Run(E, events), OpenFinish(slotReadable, w));
            var newest, n := Newest(s.v.first, if slotReadable then s.d.slot1 else None), |s.d.commits|;
            var pinned := newest.Some? && n > 0 && newest.value == Head(s.d);
            var ahead := newest.Some? && newest.value.gen == n + 1;
            && t.v.Up? && t.v.run == Booted(t.v.run.ram)
            && var ram := t.v.run.ram;
               && (!ram.halted <==> (newest.None? && n == 0) || pinned || (ahead && w.Acked?))
               && (pinned || ahead ==> ram.gen == newest.value.gen && NotesOf(ram.mem) == newest.value.states)
               && (!pinned && !ahead ==> ram.gen == 0 && ram.mem == map[])
               && t.d.commits == (if ahead && !w.ErrorLost? then s.d.commits + [newest.value] else s.d.commits)
               && t.d.slot0 == s.d.slot0 && t.d.slot1 == s.d.slot1
  {
    hide Run, Inv, Decide, WriteRecord, Step, Admissible;
    RunKeeps(E, events);
    var s := Run(E, events);
    var newest := Newest(s.v.first, if slotReadable then s.d.slot1 else None);
    OpenStep(E, s, slotReadable, w);
    HeadGeneration(E, s);
    AnyDecision(E, s, newest, slotReadable);
    if newest.Some? {
      AdmittedNotes(E, newest.value.states);
      if newest.value.gen == |s.d.commits| + 1 {
        RecordOf(E, s, newest.value, w);
      }
    }
  }

  lemma HeadGeneration(E: Env, s: State)
    requires Inv(E, s)
    ensures s.d.commits != [] ==> Head(s.d).gen == |s.d.commits|
  {
    hide RunInv, HistoryInv, SealedOk, Lineage;
  }

  lemma AdmittedNotes(E: Env, states: States)
    requires Admissible(E, states)
    ensures NotesOf(Admitted(E, states)) == states
  {
  }

  lemma OpenStep(E: Env, s: State, slotReadable: bool, w: AnchorOutcome)
    ensures Step(E, s, OpenFinish(slotReadable, w)) == DoOpenFinish(E, s, slotReadable, w)
  {
    hide DoOpenFinish;
  }

  lemma RecordOf(E: Env, s: State, b: Blob, w: AnchorOutcome)
    requires Inv(E, s) && b in s.d.sealed && b.gen == |s.d.commits| + 1
    ensures var (d, ok) := WriteRecord(s.d, b, w);
            && (ok <==> w.Acked?) && d.commits == (if w.ErrorLost? then s.d.commits else s.d.commits + [b])
            && d.slot0 == s.d.slot0 && d.slot1 == s.d.slot1
  {
    hide RunInv, HistoryInv, SealedOk, Lineage;
  }

  /** The boot decision on any observation of a reachable card. */
  lemma AnyDecision(E: Env, s: State, newest: Option<Blob>, slotReadable: bool)
    requires Inv(E, s) && s.v.Opening? && newest == Newest(s.v.first, if slotReadable then s.d.slot1 else None)
    ensures newest.Some? ==> newest.value in s.d.sealed && Admissible(E, newest.value.states)
    ensures Decide(E, s.v.anchored, newest)
         == if newest.None? then Done(Ram(0, s.d.commits != [], map[]))
            else if newest.value.gen == |s.d.commits| + 1 then
              Reanchor(Ram(newest.value.gen, false, Admitted(E, newest.value.states)), newest.value)
            else if s.d.commits != [] && newest.value == Head(s.d) then
              Done(Ram(newest.value.gen, false, Admitted(E, newest.value.states)))
            else Done(Ram(0, true, map[]))
  {
    hide RunInv, HistoryInv, Lineage, Extends, Restore;
  }
}
