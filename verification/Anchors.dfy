/** The monotonic anchor: the plain in-memory register and the RPMB sector record that refines it. */
module Anchors {
  import opened Common
  import opened Merkle
  import opened StoreModel
  import Slots

  const ANCHOR_MAGIC: Bytes := [86, 73, 84, 82, 85, 77, 65, 50]
  const RECORD_LEN := 44

  /** What an anchor can hold: a fresh state, or a bound one with a uint32 generation and a SHA-256. */
  ghost predicate WellFormed(a: Anchor) {
    if a.bound then a.gen <= MAX_GEN && |a.hash| == 32 else a == FRESH_ANCHOR
  }

  function EncodeRecord(a: Anchor): Bytes {
    PutBE(a.gen, 4) + ANCHOR_MAGIC + a.hash
  }

  /** None: a record of unknown format. */
  function DecodeRecord(buf: Bytes): Option<Anchor>
    requires |buf| == RECORD_LEN
  {
    if buf == Zeros(RECORD_LEN) then Some(FRESH_ANCHOR)
    else if buf[4..12] != ANCHOR_MAGIC then None
    else Some(Anchor(GetBE(buf[..4]), buf[12..], true))
  }

  /** The sector contents that stand for a state. */
  function Sector(a: Anchor): Bytes {
    if a.bound then EncodeRecord(a) else Zeros(RECORD_LEN)
  }

  /** A record reads back as what was written, and never as fresh. */
  lemma RecordRoundTrip(a: Anchor)
    requires WellFormed(a)
    ensures |Sector(a)| == RECORD_LEN && DecodeRecord(Sector(a)) == Some(a)
    ensures a.bound ==> Sector(a) != Zeros(RECORD_LEN)
  {
    hide PutBE, GetBE;
    if a.bound {
      Pow256Values();
      BERoundTrip(a.gen, 4);
      var buf := EncodeRecord(a);
      assert buf[..4] == PutBE(a.gen, 4) && buf[4..12] == ANCHOR_MAGIC && buf[12..] == a.hash;
      assert buf[4] == 86;
    }
  }

  // ----- refinement over op sequences -----

  /** A read, or a write with the way the medium ends it. */
  datatype Op = Read | Write(next: Anchor, outcome: AnchorOutcome)

  datatype Reply = Value(state: Anchor) | Stored | Refused | BadRecord

  function MemOp(state: Anchor, op: Op): (Anchor, Reply) {
    match op
    case Read => (state, Value(state))
    case Write(next, outcome) =>
      var (after, ok) := SetAnchor(state, next, outcome);
      (after, if ok then Stored else Refused)
  }

  function SectorOp(sector: Bytes, op: Op): (Bytes, Reply)
    requires |sector| == RECORD_LEN
  {
    match DecodeRecord(sector)
    case None => (sector, BadRecord)
    case Some(cur) =>
      match op
      case Read => (sector, Value(cur))
      case Write(next, outcome) =>
        if !next.bound || next.gen <= cur.gen then (sector, Refused)
        else (if outcome.ErrorLost? then sector else EncodeRecord(next), if outcome.Acked? then Stored else Refused)
  }

  ghost predicate OpOk(op: Op) {
    op.Write? && op.next.bound ==> WellFormed(op.next)
  }

  lemma OpRefines(state: Anchor, op: Op)
    requires WellFormed(state) && OpOk(op)
    ensures |Sector(state)| == RECORD_LEN
    ensures var (after, reply) := MemOp(state, op);
            WellFormed(after) && SectorOp(Sector(state), op) == (Sector(after), reply)
    ensures MemOp(state, op).0 == state || MemOp(state, op).0.gen > state.gen
  {
    RecordRoundTrip(state);
  }

  function MemRun(state: Anchor, ops: seq<Op>): seq<Reply>
    decreases |ops|
  {
    if ops == [] then [] else [MemOp(state, ops[0]).1] + MemRun(MemOp(state, ops[0]).0, ops[1..])
  }

  ghost function SectorRun(sector: Bytes, ops: seq<Op>): seq<Reply>
    requires |sector| == RECORD_LEN && forall i :: 0 <= i < |ops| ==> OpOk(ops[i])
    decreases |ops|
  {
    if ops == [] then []
    else
      assert OpOk(ops[0]);
      [SectorOp(sector, ops[0]).1] + SectorRun(SectorOp(sector, ops[0]).0, ops[1..])
  }

  /** Over any sequence of reads and writes, errors with either outcome included, the sector
      anchor answers exactly as the in-memory register does. */
  lemma {:induction false} SectorRefinesMemory(state: Anchor, ops: seq<Op>)
    requires WellFormed(state) && forall i :: 0 <= i < |ops| ==> OpOk(ops[i])
    ensures |Sector(state)| == RECORD_LEN && SectorRun(Sector(state), ops) == MemRun(state, ops)
    decreases |ops|
  {
    RecordRoundTrip(state);
    if ops != [] {
      hide DecodeRecord, EncodeRecord;
      OpRefines(state, ops[0]);
      SectorRefinesMemory(MemOp(state, ops[0]).0, ops[1..]);
    }
  }

  /** The state after a sequence of operations. */
  function MemState(state: Anchor, ops: seq<Op>): Anchor
    decreases |ops|
  {
    if ops == [] then state else MemState(MemOp(state, ops[0]).0, ops[1..])
  }

  /** The register never steps back, and a generation, once held, is held with one digest for good. */
  lemma {:induction false} GenerationsAdvance(state: Anchor, ops: seq<Op>)
    ensures MemState(state, ops).gen >= state.gen
    ensures MemState(state, ops).gen == state.gen ==> MemState(state, ops) == state
    decreases |ops|
  {
    if ops != [] {
      GenerationsAdvance(MemOp(state, ops[0]).0, ops[1..]);
    }
  }

  // ----- the two anchors -----

  class MemAnchor {
    var state: Anchor

    constructor ()
      ensures state == FRESH_ANCHOR
    {
      state := FRESH_ANCHOR;
    }

    method Get() returns (a: Anchor)
      ensures a == MemOp(state, Read).1.state
    {
      return state;
    }

    method Set(next: Anchor) returns (ok: bool)
      modifies this
      ensures (state, if ok then Stored else Refused) == MemOp(old(state), Write(next, Acked))
    {
      if !next.bound || next.gen <= state.gen {
        return false;
      }
      state := next;
      return true;
    }
  }

  /** The anchor over an RPMB sector, treated as a register whose failed write has either outcome. */
  class RPMBAnchor {
    var sector: Bytes

    ghost predicate Valid()
      reads this
    {
      |sector| == RECORD_LEN
    }

    function State(): Option<Anchor>
      requires Valid()
      reads this
    {
      DecodeRecord(sector)
    }

    constructor (sector: Bytes)
      requires |sector| == RECORD_LEN
      ensures Valid() && this.sector == sector
    {
      this.sector := sector;
    }

    /** None: the read failed or the record has an unknown format. */
    method Get(readable: bool) returns (a: Option<Anchor>)
      requires Valid()
      ensures a == if readable then State() else None
    {
      if !readable {
        return None;
      }
      var buf := sector;
      if buf == Zeros(RECORD_LEN) {
        return Some(FRESH_ANCHOR);
      }
      if buf[4..12] != ANCHOR_MAGIC {
        return None;
      }
      return Some(Anchor(GetBE(buf[..4]), buf[12..], true));
    }

    method Set(next: Anchor, outcome: AnchorOutcome) returns (ok: bool)
      requires Valid() && next.gen <= MAX_GEN && |next.hash| == 32
      modifies this
      ensures Valid()
      ensures (sector, ok) == var (after, reply) := SectorOp(old(sector), Write(next, outcome)); (after, reply == Stored)
    {
      hide PutBE, GetBE;
      var cur := Get(true);
      if cur.None? || !next.bound || next.gen <= cur.value.gen {
        return false;
      }
      var buf := new Byte[RECORD_LEN](_ => 0);
      Slots.Copy(buf, 0, PutBE(next.gen, 4));
      Slots.Copy(buf, 4, ANCHOR_MAGIC);
      Slots.Copy(buf, 12, next.hash);
      assert buf[..] == EncodeRecord(next);
      if !outcome.ErrorLost? {
        sector := buf[..];
      }
      return outcome.Acked?;
    }
  }

  /** A write is acknowledged if and only if it binds a blob, advances the generation and the medium
      reports no error; the state changes exactly if the first two hold and the record lands. */
  lemma WriteExactly(state: Anchor, next: Anchor, outcome: AnchorOutcome)
    ensures var (after, reply) := MemOp(state, Write(next, outcome));
            && (reply == Stored <==> next.bound && next.gen > state.gen && outcome == Acked)
            && after == if next.bound && next.gen > state.gen && outcome != ErrorLost then next else state
  {
  }
}
