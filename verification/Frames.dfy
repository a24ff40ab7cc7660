/** What the steps of the sequencer and of the provisioning server leave alone. */
module Frames {
  import opened Common
  import opened Merkle
  import opened Notes
  import opened StoreModel
  import opened Sequencer
  import opened System

  predicate SameSigner(u: Running, v: Running) {
    v.signer == u.signer && v.epoch == u.epoch && v.keys == u.keys
  }

  predicate SameRest(u: Running, v: Running) {
    v.ram == u.ram && v.threads == u.threads && v.bootHalted == u.bootHalted
  }

  /** RAM serves the same states at the same generation, and a halted store stays halted. */
  predicate SameStore(u: Running, v: Running) {
    && v.ram.gen == u.ram.gen && v.ram.mem == u.ram.mem && (u.ram.halted ==> v.ram.halted)
    && v.bootHalted == u.bootHalted
  }

  lemma PassFrame(u: Running)
    ensures SameRest(u, BeginPass(u)) && SameSigner(u, BeginPass(u))
    ensures u.phase.Signing? ==> SameRest(u, EndSigning(u)) && SameSigner(u, EndSigning(u))
  {
    hide FailBatch;
    FailFrame(u.(passes := u.passes + 1), Result(UNAVAILABLE, []));
    FailFrame(u, Result(SERVER_ERROR, []));
  }

  lemma FailFrame(u: Running, r: Result)
    ensures SameRest(u, FailBatch(u, r)) && SameSigner(u, FailBatch(u, r)) && FailBatch(u, r).phase.Finished?
    ensures FailBatch(u, r).sequencing == u.sequencing && FailBatch(u, r).current == u.current
  {
    hide WithResults;
  }

  lemma PoolFrames(u: Running)
    ensures SameRest(u, Rotate(u)) && SameRest(u, Retire(u)) && SameRest(u, StopPools(u))
    ensures SameSigner(u, Rotate(u)) && SameSigner(u, Retire(u)) && SameSigner(u, StopPools(u))
  {
    hide WithResults, WithClosed;
  }

  lemma FailureFrame(u: Running)
    ensures SameRest(u, CommitFailed(u)) && SameSigner(u, CommitFailed(u)) && CommitFailed(u).phase.Finished?
  {
    FailFrame(u, Result(SERVER_ERROR, []));
  }

  lemma KeyFrame(s: State, u: Running, ev: Event)
    requires s.v == Up(u)
    ensures var t := match ev
                     case Provision(k) => DoProvision(s, u, k)
                     case Deprovision => DoDeprovision(s, u)
                     case DestroyKey => DoDestroyKey(s, u)
                     case Reinstall(k) => DoReinstall(s, u, k)
                     case BumpEpoch => DoBumpEpoch(s, u)
                     case _ => s;
            t.v.Up? && t.d == s.d && t.releases == s.releases && SameRest(u, t.v.run)
  {
  }

  lemma SignFrame(s: State, u: Running, o: Bytes, sig: Option<Bytes>)
    requires s.v == Up(u)
    ensures var t := DoSign(s, u, o, sig);
            t.v.Up? && t.d == s.d && t.releases == s.releases && SameRest(u, t.v.run) && SameSigner(u, t.v.run)
  {
    hide SignResult, SignPhase;
  }

  lemma WriteSlotFrame(s: State, u: Running, fits: bool, hash: Digest, w: WriteOutcome)
    requires s.v == Up(u)
    ensures var t := DoWriteSlot(s, u, fits, hash, w);
            && t.v.Up? && t.d.commits == s.d.commits && t.d.anchor == s.d.anchor && t.releases == s.releases
            && SameStore(u, t.v.run) && SameSigner(u, t.v.run) && t.v.run.threads == u.threads
  {
    hide CommitFailed, NextBlob, WithSlot;
    FailureFrame(u);
    FailureFrame(Halt(u));
    SlotFrame();
  }

  lemma SlotFrame()
    ensures forall d: Durable, i: nat, content: Option<Blob> {:trigger WithSlot(d, i, content)} ::
              WithSlot(d, i, content).commits == d.commits && WithSlot(d, i, content).anchor == d.anchor
  {
  }

  lemma WriteAnchorFrame(s: State, u: Running, w: AnchorOutcome)
    requires s.v == Up(u)
    ensures var t := DoWriteAnchor(s, u, w);
            && t.v.Up? && t.releases == s.releases
            && SameStore(u, t.v.run) && SameSigner(u, t.v.run) && t.v.run.threads == u.threads
  {
    hide CommitFailed, WriteRecord;
    FailureFrame(Halt(u));
  }
}
