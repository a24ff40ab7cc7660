/** The life of a key: installed, swapped out, destroyed, and never used again. */
module KeyLife {
  import opened Common
  import opened Notes
  import opened StoreModel
  import opened Sequencer
  import opened System
  import opened Frames
  import opened Invariants
  import opened Preservation
  import opened Theorems
  import opened Refinement
  import opened Progress
  import opened WitnessService
  import opened Provision

  function RotationEvents(key: Signer): seq<Event> {
    [Event.Provision(key), BumpEpoch, DestroyKey]
  }

  const DEPROVISION := [Event.Deprovision, BumpEpoch, DestroyKey]

  function Owned(priv: Option<Signer>): set<Signer> {
    if priv.Some? then {priv.value} else {}
  }

  /** The witness after a key change that ends with `key` installed, or none. */
  function Swapped(u: Running, key: Option<Signer>): Running {
    u.(signer := key, epoch := u.epoch + 1, keys := Keys(key, u.keys.zeroed + Owned(u.keys.priv), Resting, false))
  }

  /** The provisioning server may start a key change. */
  predicate MaySwap(u: Running) {
    u.keys.stage.Resting? && SignerMutexFree(u)
  }

  lemma RotationRun(E: Env, s: State, key: Signer)
    requires s.v.Up? && MaySwap(s.v.run) && key !in s.v.run.keys.zeroed && s.v.run.keys.priv != Some(key)
    ensures Steps(E, s, RotationEvents(key)) == s.(v := Up(Swapped(s.v.run, Some(key))))
  {
    ThreeSteps(E, s, Event.Provision(key), BumpEpoch, DestroyKey);
  }

  lemma DeprovisionRun(E: Env, s: State)
    requires s.v.Up? && MaySwap(s.v.run)
    ensures Steps(E, s, DEPROVISION) == s.(v := Up(Swapped(s.v.run, None)))
  {
    ThreeSteps(E, s, Event.Deprovision, BumpEpoch, DestroyKey);
  }

  ghost predicate NoPowerCut(more: seq<Event>) {
    forall i :: 0 <= i < |more| ==> !more[i].PowerCut?
  }

  ghost predicate SignsNoMore(s: State, t: State, key: Signer) {
    && s.signatures <= t.signatures
    && forall i :: |s.signatures| <= i < |t.signatures| ==> t.signatures[i].signer != key
  }

  /** Rotation installs the new key in a new epoch and destroys the old one, which makes no
      signature in any continuation of the boot. */
  lemma RotatedKeyIsGone(E: Env, events: seq<Event>, gone: Signer, key: Signer, more: seq<Event>)
    requires var s := Run(E, events);
             && s.v.Up? && MaySwap(s.v.run) && s.v.run.keys.priv == Some(gone) && key != gone && key !in s.v.run.keys.zeroed
    requires NoPowerCut(more)
    ensures var s, t := Run(E, events), Run(E, events + RotationEvents(key));
            && t.v.Up? && gone in t.v.run.keys.zeroed && t.v.run.keys.priv == Some(key) && t.v.run.signer == Some(key)
            && t.v.run.epoch == s.v.run.epoch + 1 && key !in t.v.run.keys.zeroed
            && SignsNoMore(s, Run(E, events + RotationEvents(key) + more), gone)
  {
    hide Run, Step, Steps, Inv;
    var s := Run(E, events);
    RotationRun(E, s, key);
    StepsContinueRuns(E, events, RotationEvents(key));
    DestroyedForGood(E, events + RotationEvents(key), more, gone);
  }

  /** Deprovisioning leaves no signer, starts a new epoch and destroys the key for good. */
  lemma DeprovisionedKeyIsGone(E: Env, events: seq<Event>, gone: Signer, more: seq<Event>)
    requires var s := Run(E, events);
             s.v.Up? && MaySwap(s.v.run) && s.v.run.keys.priv == Some(gone)
    requires NoPowerCut(more)
    ensures var s, t := Run(E, events), Run(E, events + DEPROVISION);
            && t.v.Up? && gone in t.v.run.keys.zeroed && t.v.run.keys.priv == None && t.v.run.signer == None
            && t.v.run.epoch == s.v.run.epoch + 1
            && SignsNoMore(s, Run(E, events + DEPROVISION + more), gone)
  {
    hide Run, Step, Steps, Inv;
    var s := Run(E, events);
    DeprovisionRun(E, s);
    StepsContinueRuns(E, events, DEPROVISION);
    DestroyedForGood(E, events + DEPROVISION, more, gone);
  }

  // ----- the same key again -----

  function ReinstallEvents(key: Signer): seq<Event> {
    [Reinstall(key), BumpEpoch]
  }

  lemma ReinstallRun(E: Env, s: State, key: Signer)
    requires s.v.Up? && MaySwap(s.v.run) && key !in s.v.run.keys.zeroed
    ensures Steps(E, s, ReinstallEvents(key)) == s.(v := Up(s.v.run.(signer := Some(key), epoch := s.v.run.epoch + 1)))
  {
    TwoSteps(E, s, Reinstall(key), BumpEpoch);
  }

  /** A-B-A: with any two living keys, the first can be put back after the second; the signer is then
      the same as before, the epoch is not, and every request that was pending without a grant stays
      without one for the rest of the boot. */
  lemma SameKeyIsANewInstallation(E: Env, events: seq<Event>, a: Signer, b: Signer, e: nat, more: seq<Event>)
    requires var s := Run(E, events);
             && s.v.Up? && MaySwap(s.v.run) && s.v.run.signer == Some(a) && a !in s.v.run.keys.zeroed && b !in s.v.run.keys.zeroed
             && e in s.v.run.entries && !Granted(s.v.run.entries[e])
    requires NoPowerCut(more)
    ensures var s, t := Run(E, events), Run(E, events + (ReinstallEvents(b) + ReinstallEvents(a)));
            && t.v.Up? && t.v.run.signer == s.v.run.signer && t.v.run.epoch == s.v.run.epoch + 2 && t.v.run.entries == s.v.run.entries
            && var z := Run(E, events + (ReinstallEvents(b) + ReinstallEvents(a)) + more);
               z.v.Up? && e in z.v.run.entries && !Granted(z.v.run.entries[e])
  {
    hide Run, Step, Steps, Inv, ReinstallEvents;
    var s := Run(E, events);
    RunKeeps(E, events);
    AdmittedBefore(E, s, s.v.run, e);
    ReinstallRun(E, s, b);
    var s1 := Steps(E, s, ReinstallEvents(b));
    ReinstallRun(E, s1, a);
    StepsCompose(E, s, ReinstallEvents(b), ReinstallEvents(a));
    StepsContinueRuns(E, events, ReinstallEvents(b) + ReinstallEvents(a));
    StaleIsNeverGranted(E, events + (ReinstallEvents(b) + ReinstallEvents(a)), more, e);
  }

  lemma AdmittedBefore(E: Env, s: State, u: Running, e: nat)
    requires Inv(E, s) && s.v == Up(u) && e in u.entries
    ensures u.entries[e].admitted <= u.epoch
  {
    hide DurableInv, HistoryInv, RunInv, TextOk;
    EntriesOk(E, s, u);
  }

  // ----- with anything in between -----

  predicate SameSwap(u: Running, v: Running) {
    v.keys.stage == u.keys.stage && v.keys.priv == u.keys.priv && v.keys.zeroed == u.keys.zeroed && (v.keys.bumping ==> u.keys.bumping)
  }

  lemma SwapStays(E: Env, s: State, u: Running, ev: Event)
    requires s.v == Up(u) && u.keys.stage.Swapping? && !ev.PowerCut? && !ev.DestroyKey?
    ensures var t := Step(E, s, ev);
            t.v.Up? && SameSwap(u, t.v.run)
  {
    hide DoSign, DoWriteSlot, DoWriteAnchor, Rotate, BeginPass, EndSigning, Retire, StopPools, DoSubmit, DoReadEpoch, DoEnqueue, DoAnswer,
         DoOpenFinish, DoProvision, DoDeprovision, DoReinstall, DoBumpEpoch, DoDestroyKey, DoTamper, DoOpenStart, Commit, SameSwap;
    match ev {
      case Sign(o, sig) => SignFrame(s, u, o, sig);
      case WriteSlot(fits, hash, w) => WriteSlotFrame(s, u, fits, hash, w);
      case WriteAnchor(w) => WriteAnchorFrame(s, u, w);
      case Submit(tid, _) => RequestsKeepKeys(E, s, u, ev, tid);
      case ReadEpoch(tid) => RequestsKeepKeys(E, s, u, ev, tid);
      case Enqueue(tid, _) => RequestsKeepKeys(E, s, u, ev, tid);
      case Answer(tid) => RequestsKeepKeys(E, s, u, ev, tid);
      case OpenFinish(r, w) => BootedAlready(E, s, r, w);
      case Provision(_) => SwapBlocksChanges(s, u, ev);
      case Deprovision => SwapBlocksChanges(s, u, ev);
      case Reinstall(_) => SwapBlocksChanges(s, u, ev);
      case BumpEpoch => SwapBlocksChanges(s, u, ev);
      case Publish => CommitKeepsKeys(u);
      case Tamper(i, content) => CardKeepsKeys(s, i, content);
      case OpenStart(a, r) => CardKeepsKeys(s, 0, None);
      case _ => PassFrame(u); PoolFrames(u);
    }
    SameKeysSwap();
  }

  lemma SameKeysSwap()
    ensures forall u: Running, v: Running {:trigger SameSwap(u, v)} :: v.keys == u.keys ==> SameSwap(u, v)
  {
  }

  /** While the server is about to destroy a key, no other change of key begins. */
  lemma SwapBlocksChanges(s: State, u: Running, ev: Event)
    requires s.v == Up(u) && u.keys.stage.Swapping?
    ensures ev.Provision? ==> DoProvision(s, u, ev.key) == s
    ensures ev.Reinstall? ==> DoReinstall(s, u, ev.key) == s
    ensures DoDeprovision(s, u) == s
    ensures DoBumpEpoch(s, u).v.Up? && SameSwap(u, DoBumpEpoch(s, u).v.run)
  {
  }

  lemma CommitKeepsKeys(u: Running)
    ensures forall updates: Mem :: Commit(u, updates).keys == u.keys
  {
  }

  lemma CardKeepsKeys(s: State, i: nat, content: Option<Blob>)
    requires s.v.Up?
    ensures DoTamper(s, i, content).v == s.v
    ensures forall a: bool, r: bool :: DoOpenStart(s, a, r) == s
  {
  }

  lemma RequestsKeepKeys(E: Env, s: State, u: Running, ev: Event, tid: nat)
    requires s.v == Up(u)
    ensures ev.Submit? ==> var t := DoSubmit(E, s, u, tid, ev.body); t.v.Up? && t.v.run.keys == u.keys
    ensures ev.Enqueue? ==> var t := DoEnqueue(E, s, u, tid, ev.id); t.v.Up? && t.v.run.keys == u.keys
    ensures var t := DoReadEpoch(s, u, tid); t.v.Up? && t.v.run.keys == u.keys
    ensures var t := DoAnswer(s, u, tid); t.v.Up? && t.v.run.keys == u.keys
  {
    hide Decision, Prepare, PoolsResolve;
  }

  lemma {:induction false} SwapLasts(E: Env, events: seq<Event>, mid: seq<Event>)
    requires Run(E, events).v.Up? && Run(E, events).v.run.keys.stage.Swapping?
    requires forall i :: 0 <= i < |mid| ==> !mid[i].PowerCut? && !mid[i].DestroyKey?
    ensures var s, t := Run(E, events), Run(E, events + mid);
            t.v.Up? && SameSwap(s.v.run, t.v.run)
    decreases |mid|
  {
    hide Step;
    if mid == [] {
      assert events + mid == events;
    } else {
      var init := mid[..|mid| - 1];
      SwapLasts(E, events, init);
      var t := Run(E, events + init);
      SwapStays(E, t, t.v.run, mid[|mid| - 1]);
      assert (events + mid)[..|events + mid| - 1] == events + init;
    }
  }

  /** Once the signer is swapped and the epoch bumped, whatever else happens first, the server's next
      step destroys exactly the key it owned and takes the new one. */
  lemma SwapEndsInDestruction(E: Env, events: seq<Event>, mid: seq<Event>)
    requires var s := Run(E, events);
             s.v.Up? && s.v.run.keys.stage.Swapping? && !s.v.run.keys.bumping
    requires forall i :: 0 <= i < |mid| ==> !mid[i].PowerCut? && !mid[i].DestroyKey?
    ensures var u, t := Run(E, events).v.run, Run(E, events + mid + [DestroyKey]);
            && t.v.Up? && t.v.run.keys.stage.Resting?
            && t.v.run.keys.zeroed == u.keys.zeroed + Owned(u.keys.priv) && t.v.run.keys.priv == u.keys.stage.next
  {
    SwapLasts(E, events, mid);
    assert (events + mid + [DestroyKey])[..|events + mid|] == events + mid;
    hide Run;
    RunSnoc(E, events + mid, DestroyKey);
  }

  lemma RunSnoc(E: Env, events: seq<Event>, ev: Event)
    ensures Run(E, events + [ev]) == Step(E, Run(E, events), ev)
  {
    hide Step;
    assert (events + [ev])[..|events|] == events;
  }

  // ----- the server object -----

  /** The machine state mirrors the server at rest: the same owner, signer and epoch, and every key
      it counts as destroyed is a slice of zeros. */
  ghost predicate ServerMirrors(s: State, srv: Server)
    reads srv, srv.w, srv.material.Values
  {
    && srv.Valid() && s.v.Up? && s.v.run.keys.stage.Resting? && !s.v.run.keys.bumping
    && s.v.run.keys.priv == srv.priv && s.v.run.signer == srv.w.signer && s.v.run.epoch == srv.w.epoch
    && (forall k :: k in s.v.run.keys.zeroed ==> k in srv.material && Destroyed(srv.material[k]))
  }

  /** provision on the object is the rotation run of the machine. */
  method InstallSimulates(srv: Server, signer: Signer, key: array<Byte>, ghost E: Env, ghost s: State)
    requires ServerMirrors(s, srv) && !SignerMutexHeld(s.v.run.phase)
    requires signer !in srv.material && key !in srv.material.Values
    modifies srv, srv.w, srv.Live()
    ensures ServerMirrors(Steps(E, s, RotationEvents(signer)), srv)
  {
    hide Steps, RotationEvents;
    RotationRun(E, s, signer);
    srv.Install(signer, key);
  }

  /** deprovision on the object is the deprovisioning run of the machine. */
  method DeprovisionSimulates(srv: Server, ghost E: Env, ghost s: State)
    requires ServerMirrors(s, srv) && !SignerMutexHeld(s.v.run.phase)
    modifies srv, srv.w, srv.Live()
    ensures ServerMirrors(Steps(E, s, DEPROVISION), srv)
  {
    hide Steps;
    DeprovisionRun(E, s);
    srv.Deprovision();
  }
}
