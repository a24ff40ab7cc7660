/** The rollback-protected store as values: what a blob and an anchor hold, the boot decision,
    and the three effects of a commit (slot, anchor, RAM). */
module StoreModel {
  import opened Common
  import opened Merkle
  import opened Notes

  /** The generation counter is a uint32. */
  const MAX_GEN := 0xFFFF_FFFF

  type States = map<Bytes, Bytes>
  type Mem = map<Bytes, LogState>

  /** A blob that authenticates: its generation, its decoded payload and the digest of its bytes. */
  datatype Blob = Blob(gen: nat, states: States, hash: Digest)

  datatype Anchor = Anchor(gen: nat, hash: Digest, bound: bool)

  /** How an issued anchor write ends: acknowledged, or with an error and either durable result. */
  datatype AnchorOutcome = Acked | ErrorLost | ErrorLanded

  /** The volatile half of a RollbackStore. */
  datatype Ram = Ram(gen: nat, halted: bool, mem: Mem)

  const FRESH_ANCHOR := Anchor(0, Zeros(32), false)

  function AnchorFor(b: Blob): Anchor {
    Anchor(b.gen, b.hash, true)
  }

  /** The monotonic register: refuses unbound or non-advancing states. */
  function SetAnchor(cur: Anchor, next: Anchor, outcome: AnchorOutcome): (Anchor, bool) {
    if !next.bound || next.gen <= cur.gen then (cur, false)
    else
      match outcome
      case Acked => (next, true)
      case ErrorLost => (cur, false)
      case ErrorLanded => (next, false)
  }

  /** load: the valid slot with the highest generation; on a tie the first slot wins. */
  function Newest(first: Option<Blob>, second: Option<Blob>): Option<Blob> {
    if first.None? then second
    else if second.Some? && second.value.gen > first.value.gen then second
    else first
  }

  predicate Admissible(E: Env, states: States) {
    forall o :: o in states ==> Restore(E, states[o]).Some? && Restore(E, states[o]).value.0 == o
  }

  function Admitted(E: Env, states: States): (mem: Mem)
    requires Admissible(E, states)
    ensures NotesOf(mem) == states
  {
    map o | o in states :: Restore(E, states[o]).value.1
  }

  function NotesOf(mem: Mem): States {
    map o | o in mem :: mem[o].note
  }

  /** What Open does with the anchor record and the newest valid blob: it is done, or it must
      re-anchor the blob before it may serve. */
  datatype Boot = Done(ram: Ram) | Reanchor(ram: Ram, blob: Blob)

  function Halted(gen: nat): Ram {
    Ram(gen, true, map[])
  }

  function Decide(E: Env, anchored: Anchor, newest: Option<Blob>): Boot {
    match newest
    case None =>
      if anchored.gen == 0 && !anchored.bound then Done(Ram(0, false, map[])) else Done(Halted(0))
    case Some(b) =>
      if b.gen == anchored.gen then
        if !anchored.bound || b.hash != anchored.hash then Done(Halted(0))
        else if !Admissible(E, b.states) then Done(Halted(b.gen))
        else Done(Ram(b.gen, false, Admitted(E, b.states)))
      else if anchored.gen != MAX_GEN && b.gen == anchored.gen + 1 then
        if !Admissible(E, b.states) then Done(Halted(b.gen))
        else Reanchor(Ram(b.gen, false, Admitted(E, b.states)), b)
      else Done(Halted(0))
  }

  /** The payload of the next generation: every known note, overlaid with the batch. */
  function NextStates(mem: Mem, updates: Mem): States {
    NotesOf(mem + updates)
  }

  function NextBlob(ram: Ram, updates: Mem, hash: Digest): Blob {
    Blob(ram.gen + 1, NextStates(ram.mem, updates), hash)
  }

  function Published(ram: Ram, updates: Mem): Ram {
    ram.(gen := ram.gen + 1, mem := ram.mem + updates)
  }

  // ----- lineage -----

  function ViewIn(E: Env, states: States, o: Bytes): Option<View> {
    if o in states && Restore(E, states[o]).Some? then Some(ViewOf(Restore(E, states[o]).value.1)) else None
  }

  function MemView(mem: Mem, o: Bytes): Option<View> {
    if o in mem then Some(ViewOf(mem[o])) else None
  }

  /** Nothing is forgotten and every origin moves by a legal step. */
  ghost predicate Extends(E: Env, before: States, after: States) {
    && (forall o :: o in before ==> o in after)
    && (forall o :: o in after ==> ViewIn(E, after, o).Some?)
    && (forall o :: o in after ==> Follows(E, ViewIn(E, before, o), ViewIn(E, after, o).value))
  }

  /** The committed payload at generation i. */
  function StatesAt(commits: seq<Blob>, i: nat): States
    requires i <= |commits|
  {
    if i == 0 then map[] else commits[i - 1].states
  }

  /** Each anchored payload extends the one before it. */
  ghost predicate Lineage(E: Env, commits: seq<Blob>) {
    forall i {:trigger StatesAt(commits, i)} :: 0 <= i < |commits| ==>
      Extends(E, StatesAt(commits, i), commits[i].states)
  }

  ghost predicate MemRestores(E: Env, mem: Mem) {
    forall o :: o in mem ==> Restore(E, mem[o].note) == Some((o, mem[o]))
  }

  /** The views in RAM are the views of the notes in RAM. */
  lemma MemViewsAreNoteViews(E: Env, mem: Mem, o: Bytes)
    requires MemRestores(E, mem)
    ensures ViewIn(E, NotesOf(mem), o) == MemView(mem, o)
    ensures Admissible(E, NotesOf(mem)) && Admitted(E, NotesOf(mem)) == mem
  {
  }

  /** A batch of legal successors yields a payload that extends the committed one. */
  lemma NextStatesExtend(E: Env, mem: Mem, updates: Mem)
    requires MemRestores(E, mem) && MemRestores(E, updates)
    requires forall o :: o in updates ==> Follows(E, MemView(mem, o), ViewOf(updates[o]))
    ensures MemRestores(E, mem + updates)
    ensures Extends(E, NotesOf(mem), NextStates(mem, updates))
  {
    var after := NextStates(mem, updates);
    forall o | o in after
      ensures ViewIn(E, after, o).Some? && Follows(E, ViewIn(E, NotesOf(mem), o), ViewIn(E, after, o).value)
    {
      MemViewsAreNoteViews(E, mem, o);
      MemViewsAreNoteViews(E, mem + updates, o);
    }
  }
}
