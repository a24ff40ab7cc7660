/** The whole machine: the storage card, the anchor, the store, the sequencer, the requests in
    flight and the provisioning server, driven by events. An event carries every choice the
    environment makes; an event that is not enabled changes nothing. A run is any sequence of
    events from a factory-fresh unit. */
module System {
  import opened Common
  import opened Merkle
  import opened Notes
  import opened StoreModel
  import opened Sequencer

  /** State that survives power loss. `sealed` is every blob ever sealed under the device key and
      `commits` every blob ever anchored, in order; neither is stored by the device. */
  datatype Durable = Durable(slot0: Option<Blob>, slot1: Option<Blob>, anchor: Anchor, sealed: set<Blob>, commits: seq<Blob>)

  datatype Volatile =
    | Off
    | Opening(anchored: Anchor, first: Option<Blob>)
    | Up(run: Running)

  /** A signature and the circumstances in which it was made. */
  datatype Signature = Signature(signer: Signer, text: Bytes, sig: Bytes, installed: Option<Signer>, zeroed: set<Signer>,
                                 admitted: nat, epoch: nat)

  /** A 200 handed to a client: `gen` is the generation in RAM at that moment, `since` how many
      releases had been handed out when its request was enqueued. */
  datatype Release = Release(cp: Checkpoint, text: Bytes, resp: Bytes, gen: nat, since: nat)

  datatype State = State(d: Durable, v: Volatile, signatures: seq<Signature>, releases: seq<Release>)

  /** How an issued slot write ends: completed, or with an error and the slot unchanged, fully
      written, or left with contents that do not authenticate. */
  datatype WriteOutcome = Completed | ErrorKept | ErrorWritten | ErrorTorn

  datatype Event =
    | Tamper(slot: nat, content: Option<Blob>)
    | PowerCut
    | OpenStart(anchorReadable: bool, slotReadable: bool)
    | OpenFinish(slotReadable: bool, anchorWrite: AnchorOutcome)
    | Provision(key: Signer)
    | Deprovision
    | DestroyKey
    | Reinstall(key: Signer)
    | BumpEpoch
    | Submit(tid: nat, body: Bytes)
    | ReadEpoch(tid: nat)
    | Enqueue(tid: nat, id: nat)
    | RotatePool
    | LockSigner
    | Sign(origin: Bytes, sig: Option<Bytes>)
    | SigningDone
    | WriteSlot(fits: bool, hash: Digest, slotWrite: WriteOutcome)
    | WriteAnchor(anchorWrite: AnchorOutcome)
    | Publish
    | RetirePool
    | Stop
    | Answer(tid: nat)

  const INITIAL := State(Durable(None, None, FRESH_ANCHOR, {}, []), Off, [], [])

  function Slot(d: Durable, i: nat): Option<Blob> {
    if i % 2 == 0 then d.slot0 else d.slot1
  }

  function WithSlot(d: Durable, i: nat, content: Option<Blob>): Durable {
    if i % 2 == 0 then d.(slot0 := content) else d.(slot1 := content)
  }

  /** An anchor write; a record that lands extends the commit history. */
  function WriteRecord(d: Durable, b: Blob, outcome: AnchorOutcome): (Durable, bool) {
    var (anchor, ok) := SetAnchor(d.anchor, AnchorFor(b), outcome);
    (if anchor == d.anchor then d else d.(anchor := anchor, commits := d.commits + [b]), ok)
  }

  function WithRun(s: State, u: Running): State {
    s.(v := Up(u))
  }

  // ----- storage and boot -----

  /** The holder of the card may put garbage or any authentic blob into a slot, at any time. */
  function DoTamper(s: State, i: nat, content: Option<Blob>): State {
    if content.Some? && content.value !in s.d.sealed then s else s.(d := WithSlot(s.d, i, content))
  }

  function DoOpenStart(s: State, anchorReadable: bool, slotReadable: bool): State {
    if !s.v.Off? || !anchorReadable then s
    else s.(v := Opening(s.d.anchor, if slotReadable then s.d.slot0 else None))
  }

  function DoOpenFinish(E: Env, s: State, slotReadable: bool, outcome: AnchorOutcome): State {
    if !s.v.Opening? then s
    else
      match Decide(E, s.v.anchored, Newest(s.v.first, if slotReadable then s.d.slot1 else None))
      case Done(ram) => WithRun(s, Booted(ram))
      case Reanchor(ram, b) =>
        var (d, ok) := WriteRecord(s.d, b, outcome);
        WithRun(s.(d := d), Booted(if ok then ram else ram.(halted := true)))
  }

  // ----- provisioning -----

  /** The signer mutex is free: neither the sequencer nor a signer change holds it. */
  predicate SignerMutexFree(u: Running) {
    !SignerMutexHeld(u.phase) && !u.keys.bumping
  }

  /** The first half of SetSigner and ClearSigner. */
  function DoSetSigner(s: State, u: Running, signer: Option<Signer>, stage: Stage): State {
    WithRun(s, u.(signer := signer, keys := u.keys.(stage := stage, bumping := true)))
  }

  /** The second half. */
  function DoBumpEpoch(s: State, u: Running): State {
    if u.keys.bumping then WithRun(s, u.(epoch := u.epoch + 1, keys := u.keys.(bumping := false))) else s
  }

  function DoProvision(s: State, u: Running, key: Signer): State {
    if u.keys.stage.Resting? && SignerMutexFree(u) && key !in u.keys.zeroed && u.keys.priv != Some(key)
    then DoSetSigner(s, u, Some(key), Swapping(Some(key))) else s
  }

  function DoDeprovision(s: State, u: Running): State {
    if u.keys.stage.Resting? && SignerMutexFree(u) then DoSetSigner(s, u, None, Swapping(None)) else s
  }

  function DoDestroyKey(s: State, u: Running): State {
    if u.keys.stage.Resting? || u.keys.bumping then s
    else
      var dead := if u.keys.priv.Some? then {u.keys.priv.value} else {};
      WithRun(s, u.(keys := Keys(u.keys.stage.next, u.keys.zeroed + dead, Resting, false)))
  }

  /** SetSigner called directly, with any live key, the previous one included. */
  function DoReinstall(s: State, u: Running, key: Signer): State {
    if u.keys.stage.Resting? && SignerMutexFree(u) && key !in u.keys.zeroed
    then DoSetSigner(s, u, Some(key), Resting) else s
  }

  // ----- requests -----

  function DoSubmit(E: Env, s: State, u: Running, tid: nat, body: Bytes): State {
    if tid in u.threads || u.signer.None? || StoreMutexHeld(u.phase) || u.ram.halted then s
    else
      match Prepare(E, body)
      case None => s
      case Some(prep) =>
        if prep.proof !in E.proofs then s
        else WithRun(s, u.(threads := u.threads[tid := Loaded(u.signer.value, prep)]))
  }

  function DoReadEpoch(s: State, u: Running, tid: nat): State {
    if tid in u.threads && u.threads[tid].Loaded? then
      var t := u.threads[tid];
      WithRun(s, u.(threads := u.threads[tid := Stamped(t.prep, Candidate(t.prep.cp, t.prep.text, t.signer, u.epoch))]))
    else s
  }

  function DoEnqueue(E: Env, s: State, u: Running, tid: nat, id: nat): State {
    if tid in u.threads && u.threads[tid].Stamped? && id !in u.entries && PoolsResolve(u) then
      var t := u.threads[tid];
      match Decision(E.hasher, u, t.prep.size, t.prep.proof, t.cand)
      case Refuse(_) => WithRun(s, u.(threads := u.threads - {tid}))
      case Join(e) => WithRun(s, u.(threads := u.threads[tid := Waiting(e, t.cand, |s.releases|)]))
      case Admit => WithRun(s, Admission(u, id, t.cand).(threads := u.threads[tid := Waiting(id, t.cand, |s.releases|)]))
    else s
  }

  function DoAnswer(s: State, u: Running, tid: nat): State {
    if tid in u.threads && u.threads[tid].Waiting? && u.threads[tid].entry in u.entries then
      var e := u.entries[u.threads[tid].entry];
      var t := WithRun(s, u.(threads := u.threads - {tid}));
      if e.closed == 0 then s
      else if e.result.Some? && e.result.value.code == OK then
        var c := u.threads[tid].cand;
        t.(releases := t.releases + [Release(c.cp, c.text, e.result.value.resp, u.ram.gen, u.threads[tid].since)])
      else t
    else s
  }

  // ----- the sequencer -----

  function DoSign(s: State, u: Running, o: Bytes, sig: Option<Bytes>): State {
    if u.phase.Signing? && o in u.phase.todo && o in u.sequencing && u.sequencing[o] in u.entries then
      var e := u.entries[u.sequencing[o]];
      var t := WithRun(s, SignEntry(u, o, sig));
      if e.cand.signer == u.phase.signer && e.cand.epoch == u.phase.epoch && sig.Some? then
        t.(signatures := t.signatures
             + [Signature(u.phase.signer, e.cand.text, sig.value, u.signer, u.keys.zeroed, e.admitted, u.epoch)])
      else t
    else s
  }

  /** S1. A fresh nonce gives every seal a digest no earlier blob has. */
  function DoWriteSlot(s: State, u: Running, fits: bool, hash: Digest, outcome: WriteOutcome): State {
    if !u.phase.Writing? then s
    else if u.ram.halted then WithRun(s, CommitFailed(u))
    else if u.ram.gen == MAX_GEN then WithRun(s, CommitFailed(Halt(u)))
    else if !fits then WithRun(s, CommitFailed(u))
    else if exists b :: b in s.d.sealed && b.hash == hash then s
    else
      var b := NextBlob(u.ram, u.phase.updates, hash);
      var sealed := s.(d := s.d.(sealed := s.d.sealed + {b}));
      var slot := match outcome
                  case Completed => Some(b)
                  case ErrorKept => Slot(s.d, b.gen)
                  case ErrorWritten => Some(b)
                  case ErrorTorn => None;
      var t := sealed.(d := WithSlot(sealed.d, b.gen, slot));
      if outcome.Completed? then WithRun(t, u.(phase := Anchoring(u.phase.updates, b)))
      else WithRun(t, CommitFailed(Halt(u)))
  }

  /** S2. */
  function DoWriteAnchor(s: State, u: Running, outcome: AnchorOutcome): State {
    if !u.phase.Anchoring? then s
    else
      var (d, ok) := WriteRecord(s.d, u.phase.blob, outcome);
      var t := s.(d := d);
      if ok then WithRun(t, u.(phase := Publishing(u.phase.updates, u.phase.blob)))
      else WithRun(t, CommitFailed(Halt(u)))
  }

  /** One step of the machine. */
  function Step(E: Env, s: State, ev: Event): State {
    match ev
    case Tamper(i, content) => DoTamper(s, i, content)
    case PowerCut => s.(v := Off)
    case OpenStart(a, r) => DoOpenStart(s, a, r)
    case OpenFinish(r, w) => DoOpenFinish(E, s, r, w)
    case _ => if s.v.Up? then ServingStep(E, s, s.v.run, ev) else s
  }

  function ServingStep(E: Env, s: State, u: Running, ev: Event): State {
    match ev
    case Provision(k) => DoProvision(s, u, k)
    case Deprovision => DoDeprovision(s, u)
    case DestroyKey => DoDestroyKey(s, u)
    case Reinstall(k) => DoReinstall(s, u, k)
    case BumpEpoch => DoBumpEpoch(s, u)
    case Submit(tid, body) => DoSubmit(E, s, u, tid, body)
    case ReadEpoch(tid) => DoReadEpoch(s, u, tid)
    case Enqueue(tid, id) => DoEnqueue(E, s, u, tid, id)
    case Answer(tid) => DoAnswer(s, u, tid)
    case RotatePool => if u.phase.Idle? then WithRun(s, Rotate(u)) else s
    case LockSigner => if u.phase.Rotated? && (u.sequencing == map[] || !u.keys.bumping) then WithRun(s, BeginPass(u)) else s
    case Sign(o, sig) => DoSign(s, u, o, sig)
    case SigningDone => if u.phase.Signing? && u.phase.todo == {} then WithRun(s, EndSigning(u)) else s
    case WriteSlot(fits, hash, w) => DoWriteSlot(s, u, fits, hash, w)
    case WriteAnchor(w) => DoWriteAnchor(s, u, w)
    case Publish => if u.phase.Publishing? then WithRun(s, Commit(u, u.phase.updates)) else s
    case RetirePool => if u.phase.Finished? then WithRun(s, Retire(u)) else s
    case Stop => if u.phase.Idle? then WithRun(s, StopPools(u)) else s
    case _ => s
  }

  function Run(E: Env, events: seq<Event>): State {
    if events == [] then INITIAL
    else Step(E, Run(E, events[..|events| - 1]), events[|events| - 1])
  }
}
