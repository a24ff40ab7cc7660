/** RollbackStore over the bytes of the card and the anchor sector. Every method is specified by
    the functions of StoreModel that the machine's steps are made of. */
module Store {
  import opened Common
  import opened Merkle
  import opened Notes
  import opened StoreModel
  import opened Slots
  import Payload
  import opened Anchors

  /** The in-RAM store of the witness package. */
  class MemStore {
    var states: Mem

    constructor ()
      ensures states == map[]
    {
      states := map[];
    }

    method Get(origin: Bytes) returns (r: Option<LogState>)
      ensures r == if origin in states then Some(states[origin]) else None
    {
      return if origin in states then Some(states[origin]) else None;
    }

    method PutBatch(updates: Mem)
      modifies this
      ensures states == old(states) + updates
    {
      var rest := updates.Keys;
      while rest != {}
        invariant rest <= updates.Keys
        invariant states == old(states) + (map o | o in updates && o !in rest :: updates[o])
        decreases rest
      {
        var o :| o in rest;
        states := states[o := updates[o]];
        rest := rest - {o};
      }
      assert (map o | o in updates && o !in rest :: updates[o]) == updates;
    }
  }

  /** What a store shows: RAM, both slots as they load, the anchor as it decodes. */
  datatype Shown = Shown(ram: Ram, slot0: Option<Blob>, slot1: Option<Blob>, anchor: Option<Anchor>)

  function ShownSlot(v: Shown, i: nat): Option<Blob> {
    if i % 2 == 0 then v.slot0 else v.slot1
  }

  /** How PutBatch ends. Errors before the slot write is issued leave the store serving. */
  datatype PutResult = Committed | RefusedHalted | RefusedEarly | SlotError | AnchorError

  class RollbackStore {
    const E: Env
    const c: Crypto
    const wide: bool
    const dev: Disk
    const off: int
    const key: Bytes
    const anchor: RPMBAnchor
    const mem: MemStore
    var gen: nat
    var halted: bool

    ghost predicate Valid()
      reads this, anchor
    {
      anchor.Valid() && Lawful(c) && -TWO_63 <= off < TWO_63 && gen <= MAX_GEN
    }

    function Ram(): Ram
      reads this, mem
    {
      StoreModel.Ram(gen, halted, mem.states)
    }

    /** The blob in slot i, as the next boot would see it. */
    function SlotView(i: nat): Option<Blob>
      reads this, dev
    {
      dev.SlotView(c, key, off, i % 2, wide)
    }

    function View(): Shown
      requires anchor.Valid()
      reads this, mem, dev, anchor
    {
      Shown(Ram(), SlotView(0), SlotView(1), anchor.State())
    }

    constructor (E: Env, c: Crypto, dev: Disk, off: int, key: Bytes, anchor: RPMBAnchor, wide: bool)
      requires anchor.Valid() && Lawful(c) && -TWO_63 <= off < TWO_63
      ensures Valid() && Ram() == StoreModel.Ram(0, false, map[]) && fresh(mem)
      ensures this.E == E && this.c == c && this.dev == dev && this.off == off && this.key == key
      ensures this.anchor == anchor && this.wide == wide
    {
      this.E, this.c, this.dev, this.off, this.key, this.anchor, this.wide := E, c, dev, off, key, anchor, wide;
      this.gen, this.halted := 0, false;
      this.mem := new MemStore();
    }

    method Halt()
      modifies this`halted
      ensures halted
    {
      halted := true;
    }

    /** admit: every persisted note is validated before any state is restored. */
    method Admit(states: States) returns (ok: bool)
      requires mem.states == map[]
      modifies mem
      ensures ok <==> Admissible(E, states)
      ensures mem.states == if ok then Admitted(E, states) else map[]
    {
      hide Restore;
      var restored: Mem := map[];
      var rest := states.Keys;
      while rest != {}
        invariant rest <= states.Keys
        invariant restored.Keys == states.Keys - rest
        invariant forall o :: o in restored ==> Restore(E, states[o]) == Some((o, restored[o]))
        decreases rest
      {
        var o :| o in rest;
        var r := Restore(E, states[o]);
        if r.None? || r.value.0 != o {
          return false;
        }
        restored := restored[o := r.value.1];
        rest := rest - {o};
      }
      mem.PutBatch(restored);
      assert restored == Admitted(E, states);
      return true;
    }

    /** Take the generation of a blob and restore its states, or halt. */
    method Adopt(b: Blob) returns (ok: bool)
      requires mem.states == map[] && !halted
      modifies this, mem
      ensures ok <==> Admissible(E, b.states)
      ensures Ram() == StoreModel.Ram(b.gen, !ok, if ok then Admitted(E, b.states) else map[])
    {
      hide Admissible, Admitted;
      gen := b.gen;
      ok := Admit(b.states);
      if !ok {
        Halt();
      }
    }

    /** Open: the boot decision, over what the anchor and the slots read as. A failing or
        unintelligible anchor read yields no store; neither does a panic of the decoder. */
    static method Open(E: Env, c: Crypto, dev: Disk, off: int, key: Bytes, anchor: RPMBAnchor, wide: bool,
                       anchorReadable: bool, slotReadable: seq<bool>, outcome: AnchorOutcome)
      returns (s: RollbackStore?, crashed: bool)
      requires anchor.Valid() && Lawful(c) && -TWO_63 <= off < TWO_63 && |slotReadable| == 2
      modifies anchor
      ensures s == null <==> crashed || !anchorReadable || old(anchor.State()).None?
      ensures crashed <==> anchorReadable && old(anchor.State()).Some?
                           && exists slot :: 0 <= slot < 2 && slotReadable[slot] && dev.Panics(c, key, off, slot, wide)
      ensures s == null ==> anchor.sector == old(anchor.sector)
      ensures s != null ==> fresh(s) && s.Valid() && s.anchor == anchor && s.dev == dev
      ensures s != null ==> s.E == E && s.c == c && s.off == off && s.key == key && s.wide == wide
      ensures s != null ==>
                match Decide(E, old(anchor.State()).value,
                             Newest(if slotReadable[0] then dev.SlotView(c, key, off, 0, wide) else None,
                                    if slotReadable[1] then dev.SlotView(c, key, off, 1, wide) else None))
                case Done(ram) => s.Ram() == ram && anchor.sector == old(anchor.sector)
                case Reanchor(ram, b) =>
                  var (sector, reply) := SectorOp(old(anchor.sector), Write(AnchorFor(b), outcome));
                  anchor.sector == sector && s.Ram() == if reply == Stored then ram else ram.(halted := true)
    {
      hide Restore, ParseSlot, ReadBlob, SlotBytes, SectorOp, DecodeRecord, Lawful, Admissible, Admitted;
      var anchored := anchor.Get(anchorReadable);
      if anchored.None? {
        return null, false;
      }
      s := new RollbackStore(E, c, dev, off, key, anchor, wide);
      var a := anchored.value;
      var blob, panic := Load(c, dev, off, key, slotReadable, wide);
      crashed := panic;
      if crashed {
        return null, true;
      }
      if blob.None? {
        if !(a.gen == 0 && !a.bound) {
          s.Halt();
        }
        return s, false;
      }
      var b := blob.value;
      SlotViewFits(c, key, dev, off, 0, wide);
      SlotViewFits(c, key, dev, off, 1, wide);
      if b.gen == a.gen {
        if !a.bound || b.hash != a.hash {
          s.Halt();
          return s, false;
        }
        var _ := s.Adopt(b);
      } else if a.gen != MAX_GEN && b.gen == a.gen + 1 {
        var ok := s.Adopt(b);
        if !ok {
          return s, false;
        }
        var anchoredNow := anchor.Set(AnchorFor(b), outcome);
        if !anchoredNow {
          s.Halt();
        }
      } else {
        s.Halt();
      }
    }

    /** PutBatch: S1 write the blob, S2 bind it in the anchor, S3 make it visible. */
    method PutBatch(updates: Mem, nonce: Option<Bytes>, fault: WriteFault, outcome: AnchorOutcome) returns (r: PutResult)
      requires Valid() && (nonce.Some? ==> |nonce.value| == NONCE_LEN)
      modifies this, mem, dev, anchor
      ensures Valid()
      ensures r == RefusedHalted <==> old(halted) || old(gen) == MAX_GEN
      ensures r == RefusedHalted ==> Ram() == old(Ram()).(halted := true)
      ensures r == RefusedEarly <==>
                !old(halted) && old(gen) != MAX_GEN
                && !Writable(dev, off, key, old(gen) + 1, old(NextStates(mem.states, updates)), nonce)
      ensures r == RefusedEarly ==> Ram() == old(Ram())
      ensures r == RefusedHalted || r == RefusedEarly ==> dev.data == old(dev.data) && anchor.sector == old(anchor.sector)
      ensures r == SlotError ==>
                fault.Fault? || SlotBytes(dev.blockSize, dev.blocks, old(dev.data), off, (old(gen) + 1) % 2).None?
      ensures r == SlotError ==> Ram() == old(Ram()).(halted := true) && anchor.sector == old(anchor.sector)
      ensures SlotView(old(gen)) == old(SlotView(gen))
      ensures dev.Panics(c, key, off, old(gen) % 2, wide) == old(dev.Panics(c, key, off, gen % 2, wide))
      ensures r == AnchorError || r == Committed ==>
                && SlotView(old(gen) + 1).Some?
                && var b := SlotView(old(gen) + 1).value;
                   && b == NextBlob(old(Ram()), updates, b.hash)
                   && var (sector, reply) := SectorOp(old(anchor.sector), Write(AnchorFor(b), outcome));
                      anchor.sector == sector && (r == Committed <==> reply == Stored)
      ensures r == AnchorError ==> Ram() == old(Ram()).(halted := true)
      ensures r == Committed ==> Ram() == Published(old(Ram()), updates)
    {
      hide Restore, ParseSlot, ReadBlob, SlotBytes, SectorOp, DecodeRecord, Lawful, Writable;
      if halted {
        return RefusedHalted;
      }
      if gen == MAX_GEN {
        Halt();
        return RefusedHalted;
      }
      var next := gen + 1;
      var states := NotesOf(mem.states + updates);
      var saved := Save(c, dev, off, key, next, states, nonce, fault);
      assert (next + 1) % 2 == gen % 2;
      match saved {
        case Rejected =>
          return RefusedEarly;
        case WriteFailed =>
          Halt();
          return SlotError;
        case Saved(hash) =>
          var ok := anchor.Set(Anchor(next, hash, true), outcome);
          if !ok {
            Halt();
            return AnchorError;
          }
          mem.PutBatch(updates);
          gen := next;
          return Committed;
      }
    }
  }

  /** The endings of PutBatch over a decodable anchor record, on what the store shows. */
  ghost predicate PutEnds(before: Shown, after: Shown, updates: Mem, r: PutResult, outcome: AnchorOutcome)
    requires before.anchor.Some?
  {
    var gen := before.ram.gen;
    && ShownSlot(after, gen) == ShownSlot(before, gen)
    && (r == RefusedHalted <==> before.ram.halted || gen == MAX_GEN)
    && match r
       case RefusedHalted => after == before.(ram := before.ram.(halted := true))
       case RefusedEarly => after == before
       case SlotError => after.anchor == before.anchor && after.ram == before.ram.(halted := true)
       case _ =>
         && ShownSlot(after, gen + 1).Some?
         && var b := ShownSlot(after, gen + 1).value;
            && b == NextBlob(before.ram, updates, b.hash)
            && var (anchor, ok) := SetAnchor(before.anchor.value, AnchorFor(b), outcome);
               && after.anchor == Some(anchor) && (r == Committed <==> ok)
               && after.ram == if ok then Published(before.ram, updates) else before.ram.(halted := true)
  }

  /** A sector write is the register write on the decoded states. */
  lemma SectorMatches(sector: Bytes, cur: Anchor, b: Blob, outcome: AnchorOutcome)
    requires |sector| == RECORD_LEN && DecodeRecord(sector) == Some(cur) && b.gen <= MAX_GEN && |b.hash| == 32
    ensures var (after, reply) := SectorOp(sector, Write(AnchorFor(b), outcome));
            var (next, ok) := SetAnchor(cur, AnchorFor(b), outcome);
            |after| == RECORD_LEN && DecodeRecord(after) == Some(next) && (reply == Stored <==> ok)
  {
    RecordRoundTrip(AnchorFor(b));
  }

  /** PutBatch, stated on what the store shows. */
  method PutBatchSeen(st: RollbackStore, updates: Mem, nonce: Option<Bytes>, fault: WriteFault, outcome: AnchorOutcome)
    returns (r: PutResult)
    requires st.Valid() && (nonce.Some? ==> |nonce.value| == NONCE_LEN)
    modifies st, st.mem, st.dev, st.anchor
    ensures st.Valid()
    ensures old(st.View()).anchor.Some? ==> PutEnds(old(st.View()), st.View(), updates, r, outcome)
    ensures r == Committed ==> st.Ram() == Published(old(st.Ram()), updates)
  {
    hide ParseSlot, ReadBlob, SlotBytes, SectorOp, DecodeRecord, Lawful, Writable, NextStates, SetAnchor;
    ghost var before, sector := st.View(), st.anchor.sector;
    r := st.PutBatch(updates, nonce, fault, outcome);
    assert before.ram.gen % 2 == (before.ram.gen + 2) % 2;
    if before.anchor.Some? && (r == Committed || r == AnchorError) {
      SlotViewFits(st.c, st.key, st.dev, st.off, (before.ram.gen + 1) % 2, st.wide);
      SectorMatches(sector, before.anchor.value, st.SlotView(before.ram.gen + 1).value, outcome);
    }
  }

  /** A unit in working order commits: a serving store with a generation left, a slot on the card, a
      payload that fits, and an anchor not ahead of RAM. */
  method SoundPutCommits(st: RollbackStore, updates: Mem, nonce: Bytes, ghost payload: Bytes) returns (r: PutResult)
    requires st.Valid() && !st.halted && st.gen < MAX_GEN && |st.key| == 32 && |nonce| == NONCE_LEN
    requires 0 <= st.off && st.off + 2 * 65536 < TWO_63 && |st.dev.data| == st.dev.blocks * st.dev.blockSize
    requires Fits(st.dev.blockSize, st.dev.blocks, st.off, (st.gen + 1) % 2)
    requires Payload.IsPayload(NextStates(st.mem.states, updates), payload) && |payload| <= 65536 - 48
    requires forall o :: o in NextStates(st.mem.states, updates) ==>
               |o| < 65536 && |NextStates(st.mem.states, updates)[o]| < 0x1_0000_0000
    requires st.anchor.State().Some? && st.anchor.State().value.gen <= st.gen
    modifies st, st.mem, st.dev, st.anchor
    ensures st.Valid() && r == Committed && st.Ram() == Published(old(st.Ram()), updates)
    ensures st.anchor.State().Some? && st.anchor.State().value.gen == old(st.gen) + 1
    ensures st.SlotView(old(st.gen) + 1).Some?
    ensures st.SlotView(old(st.gen) + 1).value.states == old(NextStates(st.mem.states, updates))
  {
    hide Restore, ParseSlot, ReadBlob, SectorOp, DecodeRecord, Lawful, Writable, SlotBytes, NextStates, Payload.IsPayload, Fits;
    ghost var gen, sector, cur := st.gen, st.anchor.sector, st.anchor.State().value;
    WritableExactly(st.dev, st.off, st.key, gen + 1, NextStates(st.mem.states, updates), Some(nonce), payload);
    FittingSlotReads(st.dev, st.off, (gen + 1) % 2);
    r := st.PutBatch(updates, Some(nonce), NoFault, Acked);
    SlotViewFits(st.c, st.key, st.dev, st.off, (gen + 1) % 2, st.wide);
    ghost var b := st.SlotView(gen + 1).value;
    SectorMatches(sector, cur, b, Acked);
  }

  lemma FittingSlotReads(dev: Disk, off: int, slot: nat)
    requires 0 <= off && slot < 2 && off + (slot + 1) * 65536 < TWO_63 && |dev.data| == dev.blocks * dev.blockSize
    requires Fits(dev.blockSize, dev.blocks, off, slot)
    ensures SlotBytes(dev.blockSize, dev.blocks, dev.data, off, slot).Some?
  {
    hide SlotLBA;
    SlotAcceptedExactly(dev.blockSize, dev.blocks, off, slot);
    SlotStart(dev.blockSize, dev.blocks, off, slot);
  }

  /** A boot that finds the pinned blob newest restores the RAM it was made from. */
  lemma ReopenDecision(E: Env, mem: Mem, gen: nat, hash: Digest)
    requires MemRestores(E, mem)
    ensures Decide(E, Anchor(gen, hash, true), Some(Blob(gen, NotesOf(mem), hash))) == Done(StoreModel.Ram(gen, false, mem))
  {
    hide Restore;
    MemViewsAreNoteViews(E, mem, []);
  }

  lemma OverlayRestores(E: Env, mem: Mem, updates: Mem)
    requires MemRestores(E, mem) && MemRestores(E, updates)
    ensures MemRestores(E, mem + updates)
  {
    hide Restore;
  }

  /** An acknowledged anchor write reads back as the state written. */
  lemma AckedReadsBack(sector: Bytes, b: Blob)
    requires |sector| == RECORD_LEN && b.gen <= MAX_GEN && |b.hash| == 32
    requires SectorOp(sector, Write(AnchorFor(b), Acked)).1 == Stored
    ensures var after := SectorOp(sector, Write(AnchorFor(b), Acked)).0;
            |after| == RECORD_LEN && DecodeRecord(after) == Some(AnchorFor(b))
  {
    RecordRoundTrip(AnchorFor(b));
  }

  /** Commit, power-cycle, open: the new boot serves exactly the RAM the old one had. */
  method CommitAndReopen(s: RollbackStore, updates: Mem, nonce: Bytes) returns (r: PutResult, t: RollbackStore?)
    requires s.Valid() && |nonce| == NONCE_LEN
    requires MemRestores(s.E, s.mem.states) && MemRestores(s.E, updates)
    requires s.SlotView(s.gen).Some? ==> s.SlotView(s.gen).value.gen <= s.gen
    requires !s.dev.Panics(s.c, s.key, s.off, s.gen % 2, s.wide)
    modifies s, s.mem, s.dev, s.anchor
    ensures r == Committed ==> s.Ram() == Published(old(s.Ram()), updates)
    ensures r == Committed ==> t != null && t.Ram() == s.Ram()
  {
    hide Restore, ParseSlot, ReadBlob, SlotBytes, SectorOp, DecodeRecord, Lawful, Writable, Decide, MemRestores;
    t := null;
    ghost var mem, was := s.mem.states, s.anchor.sector;
    r := s.PutBatch(updates, Some(nonce), NoFault, Acked);
    if r == Committed {
      OverlayRestores(s.E, mem, updates);
      SlotViewFits(s.c, s.key, s.dev, s.off, s.gen % 2, s.wide);
      PanicsOnlyNarrow(s.c, s.key, s.dev, s.off, s.gen % 2, s.wide);
      assert s.gen % 2 != (s.gen - 1) % 2;
      ghost var b := s.SlotView(s.gen).value;
      AckedReadsBack(was, b);
      ReopenDecision(s.E, mem + updates, b.gen, b.hash);
      var crashed;
      t, crashed := RollbackStore.Open(s.E, s.c, s.dev, s.off, s.key, s.anchor, s.wide, true, [true, true], Acked);
    }
  }
}
