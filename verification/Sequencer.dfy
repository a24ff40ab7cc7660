/** The witness: pools, candidates and the mutex regions of internal/witness/witness.go, each as
    one function on the witness state. */
module Sequencer {
  import opened Common
  import opened Merkle
  import opened Notes
  import opened StoreModel
  import Wire

  const MAX_POOL := 256

  const OK := 200
  const BAD_REQUEST := 400
  const CONFLICT := 409
  const UNPROCESSABLE := 422
  const TOO_MANY := 429
  const SERVER_ERROR := 500
  const UNAVAILABLE := 503

  /** A signer is named by the key slice it closes over. */
  type Signer = nat

  datatype Candidate = Candidate(cp: Checkpoint, text: Bytes, signer: Signer, epoch: nat)

  datatype Result = Result(code: nat, resp: Bytes)

  /** A pool entry: `closed` counts the close operations on its channel, `admitted` is the signer
      epoch at the moment the entry joined a pool. */
  datatype Entry = Entry(cand: Candidate, result: Option<Result>, closed: nat, admitted: nat)

  type Entries = map<nat, Entry>
  type Pool = map<Bytes, nat>

  /** A request that passed the stateless checks of AddCheckpoint. */
  datatype Prepared = Prepared(size: nat, proof: seq<Digest>, cp: Checkpoint, text: Bytes)

  /** A request in flight, between the unlocked reads and regions of AddCheckpoint; `since` is how
      many 200s had been handed out when it was enqueued. */
  datatype Thread =
    | Loaded(signer: Signer, prep: Prepared)
    | Stamped(prep: Prepared, cand: Candidate)
    | Waiting(entry: nat, cand: Candidate, since: nat)

  /** Where the sequencer goroutine stands. Signing, Writing, Anchoring and Publishing hold the
      signer mutex; the last three are inside Store.PutBatch. */
  datatype Phase =
    | Idle
    | Rotated
    | Signing(signer: Signer, epoch: nat, todo: set<Bytes>, updates: Mem, failed: bool)
    | Writing(updates: Mem)
    | Anchoring(updates: Mem, blob: Blob)
    | Publishing(updates: Mem, blob: Blob)
    | Finished

  /** The provisioning server: it owns `priv`, and between swapping the signer and storing the
      new key it is about to destroy the old one. `bumping` is the moment inside SetSigner and
      ClearSigner, signer mutex held, when the signer is stored and the epoch is still the old one:
      submissions read both without the mutex. */
  datatype Stage = Resting | Swapping(next: Option<Signer>)
  datatype Keys = Keys(priv: Option<Signer>, zeroed: set<Signer>, stage: Stage, bumping: bool)

  datatype Running = Running(
    ram: Ram,
    signer: Option<Signer>,
    epoch: nat,
    entries: Entries,
    current: Pool,
    sequencing: Pool,
    phase: Phase,
    threads: map<nat, Thread>,
    committed: nat,
    failed: nat,
    passes: nat,
    bootGen: nat,
    bootHalted: bool,
    keys: Keys)

  function Booted(ram: Ram): Running {
    Running(ram, None, 0, map[], map[], map[], Idle, map[], 0, 0, 0, ram.gen, ram.halted, Keys(None, {}, Resting, false))
  }

  predicate SignerMutexHeld(p: Phase) {
    p.Signing? || p.Writing? || p.Anchoring? || p.Publishing?
  }

  predicate StoreMutexHeld(p: Phase) {
    p.Anchoring? || p.Publishing?
  }

  // ----- AddCheckpoint -----

  /** Parse the body, cut the note, parse the checkpoint; None is a 400. */
  function Prepare(E: Env, body: Bytes): (r: Option<Prepared>)
    ensures r.Some? ==> IsText(r.value.text) && E.parse(r.value.text) == Some(r.value.cp)
    ensures r.Some? ==> r.value.size <= r.value.cp.n
  {
    match Wire.ParseBody(body)
    case None => None
    case Some(req) =>
      match CutText(req.note)
      case None => None
      case Some(text) =>
        match E.parse(text)
        case None => None
        case Some(cp) => if req.size > cp.n then None else Some(Prepared(req.size, req.proof, cp, text))
  }

  datatype Verdict = Admit | Join(entry: nat) | Refuse(result: Result)

  function Conflict(mem: Mem, o: Bytes): Verdict {
    Refuse(Result(CONFLICT, Decimal(Latest(MemView(mem, o))) + [NEWLINE]))
  }

  /** The consistency checks of addToPool, against the stored view and never against client input. */
  function Judge(h: Hasher, mem: Mem, size: nat, proof: seq<Digest>, cp: Checkpoint): Verdict {
    var prev := MemView(mem, cp.origin);
    if size != Latest(prev) then Conflict(mem, cp.origin)
    else if
      (if cp.n == 0 then proof == [] && cp.hash == h.empty
       else if size == cp.n then proof == [] && (prev.Some? && cp.hash == prev.value.hash)
       else if size == 0 then proof == []
       else prev.Some? && CheckTree(h, proof, cp.n, cp.hash, size, prev.value.hash))
    then Admit
    else Refuse(Result(UNPROCESSABLE, []))
  }

  /** matchPending: share the entry if the submission is the pending one, else conflict. */
  function MatchPending(entries: Entries, e: nat, mem: Mem, c: Candidate): Verdict
    requires e in entries
  {
    var p := entries[e].cand;
    if p.signer == c.signer && p.epoch == c.epoch && p.cp.n == c.cp.n && p.cp.hash == c.cp.hash && p.text == c.text
    then Join(e) else Conflict(mem, c.cp.origin)
  }

  /** A pool maps origins to entries of their own. */
  predicate OwnPool(entries: Entries, p: Pool) {
    forall o :: o in p ==> p[o] in entries && entries[p[o]].cand.cp.origin == o
  }

  predicate PoolsResolve(u: Running) {
    OwnPool(u.entries, u.current) && OwnPool(u.entries, u.sequencing)
  }

  function Decision(h: Hasher, u: Running, size: nat, proof: seq<Digest>, c: Candidate): Verdict
    requires PoolsResolve(u)
  {
    var o := c.cp.origin;
    if o in u.current then MatchPending(u.entries, u.current[o], u.ram.mem, c)
    else if o in u.sequencing then MatchPending(u.entries, u.sequencing[o], u.ram.mem, c)
    else if |u.current| >= MAX_POOL then Refuse(Result(TOO_MANY, []))
    else Judge(h, u.ram.mem, size, proof, c.cp)
  }

  function Admission(u: Running, id: nat, c: Candidate): Running {
    u.(entries := u.entries[id := Entry(c, None, 0, u.epoch)], current := u.current[c.cp.origin := id])
  }

  // ----- the sequencer -----

  predicate InPool(p: Pool, entries: Entries, e: nat)
    requires e in entries
  {
    var o := entries[e].cand.cp.origin;
    o in p && p[o] == e
  }

  function WithResults(entries: Entries, p: Pool, r: Result): (es: Entries)
    ensures es.Keys == entries.Keys
  {
    map e | e in entries :: if InPool(p, entries, e) then entries[e].(result := Some(r)) else entries[e]
  }

  function WithClosed(entries: Entries, p: Pool): (es: Entries)
    ensures es.Keys == entries.Keys
  {
    map e | e in entries ::
      if InPool(p, entries, e) then entries[e].(closed := entries[e].closed + 1) else entries[e]
  }

  function Rotate(u: Running): Running {
    u.(current := map[], sequencing := u.current, phase := Rotated)
  }

  /** setPoolResult over the whole batch, and the batch counted as failed. */
  function FailBatch(u: Running, r: Result): Running {
    u.(entries := WithResults(u.entries, u.sequencing, r), failed := u.failed + 1, phase := Finished)
  }

  /** The head of sequencePool. */
  function BeginPass(u: Running): Running {
    if u.sequencing == map[] then u.(phase := Finished)
    else
      var v := u.(passes := u.passes + 1);
      if u.signer.None? || u.ram.halted then FailBatch(v, Result(UNAVAILABLE, []))
      else v.(phase := Signing(u.signer.value, u.epoch, u.sequencing.Keys, map[], false))
  }

  function Resolve(u: Running, e: nat, r: Result, p: Phase): Running
    requires e in u.entries
  {
    u.(entries := u.entries[e := u.entries[e].(result := Some(r))], phase := p)
  }

  /** The result one turn of the signing loop gives an entry; `sig` is the signature, or None for
      a signing error. An entry admitted under another signer or epoch is never signed. */
  function SignResult(p: Phase, c: Candidate, sig: Option<Bytes>): Result
    requires p.Signing?
  {
    if c.signer != p.signer || c.epoch != p.epoch then Result(UNAVAILABLE, [])
    else if sig.None? then Result(SERVER_ERROR, [])
    else Result(OK, sig.value)
  }

  function SignPhase(p: Phase, o: Bytes, c: Candidate, r: Result): Phase
    requires p.Signing?
  {
    var updates := if r.code == OK then p.updates[o := LogState(c.cp.n, c.cp.hash, SignedNote(c.text, r.resp))] else p.updates;
    Signing(p.signer, p.epoch, p.todo - {o}, updates, p.failed || r.code == SERVER_ERROR)
  }

  /** One turn of the signing loop. */
  function SignEntry(u: Running, o: Bytes, sig: Option<Bytes>): Running
    requires u.phase.Signing? && o in u.sequencing && u.sequencing[o] in u.entries
  {
    var c := u.entries[u.sequencing[o]].cand;
    var r := SignResult(u.phase, c, sig);
    Resolve(u, u.sequencing[o], r, SignPhase(u.phase, o, c, r))
  }

  function SigFor(sigs: map<Bytes, Option<Bytes>>, o: Bytes): Option<Bytes> {
    if o in sigs then sigs[o] else None
  }

  /** The result the signing loop leaves for an origin of the batch. */
  function Outcome(u: Running, sigs: map<Bytes, Option<Bytes>>, o: Bytes): Result
    requires u.phase.Signing? && PoolsResolve(u) && o in u.sequencing
  {
    SignResult(u.phase, u.entries[u.sequencing[o]].cand, SigFor(sigs, o))
  }

  function SignedEntries(u: Running, sigs: map<Bytes, Option<Bytes>>, done: set<Bytes>): Entries
    requires u.phase.Signing? && PoolsResolve(u)
  {
    map e | e in u.entries ::
      if InPool(u.sequencing, u.entries, e) && u.entries[e].cand.cp.origin in done
      then u.entries[e].(result := Some(Outcome(u, sigs, u.entries[e].cand.cp.origin)))
      else u.entries[e]
  }

  function SignedUpdates(u: Running, sigs: map<Bytes, Option<Bytes>>, done: set<Bytes>): Mem
    requires u.phase.Signing? && PoolsResolve(u) && done <= u.sequencing.Keys
  {
    map o | o in done && Outcome(u, sigs, o).code == OK ::
      var c := u.entries[u.sequencing[o]].cand;
      LogState(c.cp.n, c.cp.hash, SignedNote(c.text, Outcome(u, sigs, o).resp))
  }

  predicate SigningFails(u: Running, sigs: map<Bytes, Option<Bytes>>, done: set<Bytes>)
    requires u.phase.Signing? && PoolsResolve(u) && done <= u.sequencing.Keys
  {
    exists o :: o in done && Outcome(u, sigs, o).code == SERVER_ERROR
  }

  /** A batch whose signing loop has visited the origins in `done`, in whatever order. */
  function SignedState(u: Running, sigs: map<Bytes, Option<Bytes>>, done: set<Bytes>): Running
    requires u.phase.Signing? && PoolsResolve(u) && done <= u.sequencing.Keys
  {
    u.(entries := SignedEntries(u, sigs, done),
       phase := Signing(u.phase.signer, u.phase.epoch, u.sequencing.Keys - done,
                        SignedUpdates(u, sigs, done), SigningFails(u, sigs, done)))
  }

  /** Before the loop nothing has changed. */
  lemma NothingSigned(u: Running, sigs: map<Bytes, Option<Bytes>>)
    requires u.phase.Signing? && PoolsResolve(u) && u.phase.todo == u.sequencing.Keys
    requires u.phase.updates == map[] && !u.phase.failed
    ensures SignedState(u, sigs, {}) == u
  {
    hide SignedEntries, SignedUpdates, SigningFails;
    NoEntrySigned(u, sigs);
    NoUpdateYet(u, sigs);
    assert u.sequencing.Keys - {} == u.phase.todo;
  }

  lemma NoEntrySigned(u: Running, sigs: map<Bytes, Option<Bytes>>)
    requires u.phase.Signing? && PoolsResolve(u)
    ensures SignedEntries(u, sigs, {}) == u.entries
  {
    hide SignResult;
  }

  lemma NoUpdateYet(u: Running, sigs: map<Bytes, Option<Bytes>>)
    requires u.phase.Signing? && PoolsResolve(u)
    ensures SignedUpdates(u, sigs, {}) == map[] && !SigningFails(u, sigs, {})
  {
    hide Outcome, SignedNote;
  }

  lemma SignTurnEntries(u: Running, sigs: map<Bytes, Option<Bytes>>, done: set<Bytes>, o: Bytes)
    requires u.phase.Signing? && PoolsResolve(u) && o in u.sequencing
    ensures var es, e := SignedEntries(u, sigs, done), u.sequencing[o];
            && e in es && es[e].cand == u.entries[e].cand
            && es[e := es[e].(result := Some(Outcome(u, sigs, o)))] == SignedEntries(u, sigs, done + {o})
  {
    hide SignResult;
  }

  lemma SignTurnUpdates(u: Running, sigs: map<Bytes, Option<Bytes>>, done: set<Bytes>, o: Bytes)
    requires u.phase.Signing? && PoolsResolve(u) && done <= u.sequencing.Keys && o in u.sequencing && o !in done
    ensures var r, c := Outcome(u, sigs, o), u.entries[u.sequencing[o]].cand;
            var updates := SignedUpdates(u, sigs, done);
            SignedUpdates(u, sigs, done + {o})
              == if r.code == OK then updates[o := LogState(c.cp.n, c.cp.hash, SignedNote(c.text, r.resp))] else updates
  {
    hide Outcome, SignedNote;
  }

  lemma SignTurnFails(u: Running, sigs: map<Bytes, Option<Bytes>>, done: set<Bytes>, o: Bytes)
    requires u.phase.Signing? && PoolsResolve(u) && done <= u.sequencing.Keys && o in u.sequencing
    ensures SigningFails(u, sigs, done + {o}) <==> SigningFails(u, sigs, done) || Outcome(u, sigs, o).code == SERVER_ERROR
  {
    hide Outcome;
    assert o in done + {o};
  }

  /** One more turn of the loop, at any origin not yet visited. */
  lemma SignTurn(u: Running, sigs: map<Bytes, Option<Bytes>>, done: set<Bytes>, o: Bytes)
    requires u.phase.Signing? && PoolsResolve(u) && done <= u.sequencing.Keys && o in u.sequencing && o !in done
    ensures u.sequencing[o] in SignedState(u, sigs, done).entries
    ensures SignEntry(SignedState(u, sigs, done), o, SigFor(sigs, o)) == SignedState(u, sigs, done + {o})
  {
    hide SignedNote, SignedEntries, SignedUpdates, SigningFails, OwnPool;
    SignTurnEntries(u, sigs, done, o);
    SignTurnUpdates(u, sigs, done, o);
    SignTurnFails(u, sigs, done, o);
    assert u.sequencing.Keys - done - {o} == u.sequencing.Keys - (done + {o});
  }

  function EndSigning(u: Running): Running
    requires u.phase.Signing?
  {
    if u.phase.failed then FailBatch(u, Result(SERVER_ERROR, []))
    else if u.phase.updates == map[] then u.(failed := u.failed + 1, phase := Finished)
    else u.(phase := Writing(u.phase.updates))
  }

  function Halt(u: Running): Running {
    u.(ram := u.ram.(halted := true))
  }

  function CommitFailed(u: Running): Running {
    FailBatch(u, Result(SERVER_ERROR, []))
  }

  function Commit(u: Running, updates: Mem): Running {
    u.(ram := Published(u.ram, updates), committed := u.committed + 1, phase := Finished)
  }

  function Retire(u: Running): Running {
    u.(entries := WithClosed(u.entries, u.sequencing), sequencing := map[], phase := Idle)
  }

  /** stopPools. */
  function StopPools(u: Running): Running {
    u.(entries := WithClosed(WithResults(u.entries, u.current, Result(UNAVAILABLE, [])), u.current), current := map[])
  }
}
