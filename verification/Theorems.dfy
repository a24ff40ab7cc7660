/** What holds of every run: any interleaving of submissions, passes, signer changes, write errors
    with either outcome, power cuts, reboots and slot replacement. */
module Theorems {
  import opened Common
  import opened Merkle
  import opened Notes
  import opened StoreModel
  import opened Sequencer
  import opened System
  import opened Frames
  import opened Chains
  import Wire
  import opened Invariants
  import opened Preservation

  /** The last blob anchored. */
  function Head(d: Durable): Blob
    requires d.commits != []
  {
    d.commits[|d.commits| - 1]
  }

  function ReleasedView(r: Release): View {
    View(r.cp.n, r.cp.hash)
  }

  // ----- no split view -----

  /** A released checkpoint is the view some anchored blob holds for its origin. */
  lemma ReleaseIsCommitted(E: Env, commits: seq<Blob>, signatures: seq<Signature>, r: Release) returns (i: nat)
    requires ReleaseOk(E, commits, signatures, r)
    ensures i < r.gen && i < |commits| && ViewIn(E, commits[i].states, r.cp.origin) == Some(ReleasedView(r))
  {
    hide IsText;
    var note := SignedNote(r.text, r.resp);
    var o := r.cp.origin;
    var k :| 0 <= k < r.gen && k < |commits| && o in commits[k].states && commits[k].states[o] == note;
    PersistedNoteReadmits(E, r.text, r.resp, r.cp);
    i := k;
  }

  /** The checkpoints released for an origin all lie on one chain: its committed views, in commit
      order, each equal to its predecessor, opening the log, or checked against it. */
  lemma NoSplitView(E: Env, events: seq<Event>, o: Bytes)
    ensures var s := Run(E, events);
            && Chain(E, Views(E, s.d.commits, o))
            && forall i :: 0 <= i < |s.releases| && s.releases[i].cp.origin == o ==>
                 ReleasedView(s.releases[i]) in Views(E, s.d.commits, o)
  {
    hide RunInv, SealedOk, ViewIn, Run, Chain, ReleaseOk;
    RunKeeps(E, events);
    var s := Run(E, events);
    ViewsFormChain(E, s.d.commits, o);
    forall i | 0 <= i < |s.releases| && s.releases[i].cp.origin == o
      ensures ReleasedView(s.releases[i]) in Views(E, s.d.commits, o)
    {
      var k := ReleaseIsCommitted(E, s.d.commits, s.signatures, s.releases[i]);
      ViewsContain(E, s.d.commits, o, k);
    }
  }

  /** Two releases of one size for one origin carry one hash. */
  lemma SameSizeSameHash(E: Env, events: seq<Event>, i: nat, j: nat)
    requires var rs := Run(E, events).releases;
             i < |rs| && j < |rs| && rs[i].cp.origin == rs[j].cp.origin && rs[i].cp.n == rs[j].cp.n
    ensures Run(E, events).releases[i].cp == Run(E, events).releases[j].cp
  {
    hide Run, Chain, Views;
    var s := Run(E, events);
    var o := s.releases[i].cp.origin;
    NoSplitView(E, events, o);
    var views := Views(E, s.d.commits, o);
    var a :| 0 <= a < |views| && views[a] == ReleasedView(s.releases[i]);
    var b :| 0 <= b < |views| && views[b] == ReleasedView(s.releases[j]);
    if a <= b {
      ChainIsMonotone(E, views, a, b);
    } else {
      ChainIsMonotone(E, views, b, a);
    }
  }

  /** If the larger of two released roots is the tree hash of d, the smaller one is the tree hash
      of a prefix of d. The exception is an explicit collision: between two consecutive committed
      views of the origin, a proof that a client sent parts from the tree over a prefix of d at a
      node where two different inputs, both computed from that proof and d, have one hash. */
  lemma ReleasedRootsArePrefixes(E: Env, events: seq<Event>, i: nat, j: nat, d: seq<Leaf>)
    requires var rs := Run(E, events).releases;
             && i < |rs| && j < |rs| && rs[i].cp.origin == rs[j].cp.origin && rs[i].cp.n <= rs[j].cp.n
             && |d| == rs[j].cp.n && rs[j].cp.hash == TreeHash(E.hasher, d)
    ensures var r := Run(E, events).releases[i];
            r.cp.hash == TreeHash(E.hasher, d[..r.cp.n]) || ChainClashes(E, Views(E, Run(E, events).d.commits, r.cp.origin), d)
  {
    hide Run, Chain, Views, TreeHash, ChainClashes;
    var s := Run(E, events);
    var o := s.releases[i].cp.origin;
    NoSplitView(E, events, o);
    var views := Views(E, s.d.commits, o);
    var a :| 0 <= a < |views| && views[a] == ReleasedView(s.releases[i]);
    var b :| 0 <= b < |views| && views[b] == ReleasedView(s.releases[j]);
    if a <= b {
      ChainMeansPrefixes(E, views, a, b, d);
    } else {
      ChainIsMonotone(E, views, b, a);
      assert d[..|d|] == d;
    }
  }

  /** The proofs that the requests of a run carry. */
  function Sent(E: Env, events: seq<Event>): set<seq<Digest>> {
    if events == [] then {}
    else
      var ev := events[|events| - 1];
      Sent(E, events[..|events| - 1])
      + if ev.Submit? && Prepare(E, ev.body).Some? then {Prepare(E, ev.body).value.proof} else {}
  }

  lemma PrepareIgnoresProofs(E: Env, proofs: set<seq<Digest>>, body: Bytes)
    ensures Prepare(E.(proofs := proofs), body) == Prepare(E, body)
  {
    hide Wire.ParseBody, CutText;
  }

  lemma DecideIgnoresProofs(E: Env, proofs: set<seq<Digest>>, anchored: Anchor, newest: Option<Blob>)
    ensures Decide(E.(proofs := proofs), anchored, newest) == Decide(E, anchored, newest)
  {
    var F := E.(proofs := proofs);
    if newest.Some? {
      var states := newest.value.states;
      RestoreIgnoresProofs(E, proofs, states);
      if Admissible(E, states) {
        assert Admitted(F, states) == Admitted(E, states);
      }
    }
  }

  lemma RestoreIgnoresProofs(E: Env, proofs: set<seq<Digest>>, states: States)
    ensures forall o :: o in states ==> Restore(E.(proofs := proofs), states[o]) == Restore(E, states[o])
    ensures Admissible(E.(proofs := proofs), states) <==> Admissible(E, states)
  {
    hide CutText;
  }

  lemma StepIgnoresProofs(E: Env, p: set<seq<Digest>>, q: set<seq<Digest>>, s: State, ev: Event)
    requires ev.Submit? && Prepare(E, ev.body).Some? ==> Prepare(E, ev.body).value.proof in p * q
    ensures Step(E.(proofs := p), s, ev) == Step(E.(proofs := q), s, ev)
  {
    hide Decide, Prepare, Decision, DoProvision, DoDeprovision, DoDestroyKey, DoReinstall, DoBumpEpoch, DoReadEpoch, DoAnswer, Rotate,
         BeginPass, DoSign, EndSigning, DoWriteSlot, DoWriteAnchor, Commit, Retire, StopPools, DoTamper, DoOpenStart, WriteRecord, Booted;
    if ev.Submit? {
      PrepareIgnoresProofs(E, p, ev.body);
      PrepareIgnoresProofs(E, q, ev.body);
    } else if ev.OpenFinish? && s.v.Opening? {
      var newest := Newest(s.v.first, if ev.slotReadable then s.d.slot1 else None);
      DecideIgnoresProofs(E, p, s.v.anchored, newest);
      DecideIgnoresProofs(E, q, s.v.anchored, newest);
    }
  }

  /** Naming the proofs costs no generality: every set that covers the requests of a run gives the
      same run, the set of exactly those proofs included. */
  lemma {:induction false} OnlySentProofsMatter(E: Env, events: seq<Event>, p: set<seq<Digest>>, q: set<seq<Digest>>)
    requires Sent(E, events) <= p && Sent(E, events) <= q
    ensures Run(E.(proofs := p), events) == Run(E.(proofs := q), events)
  {
    hide Step, Prepare;
    if events != [] {
      var init, ev := events[..|events| - 1], events[|events| - 1];
      OnlySentProofsMatter(E, init, p, q);
      StepIgnoresProofs(E, p, q, Run(E.(proofs := p), init), ev);
    }
  }

  // ----- lineage of blobs -----

  /** No blob is ever sealed more than one generation ahead of the anchor, every blob one ahead
      extends the state the anchor pins, and the anchored digest selects one sealed blob. */
  lemma BlobLineage(E: Env, events: seq<Event>, b: Blob)
    requires b in Run(E, events).d.sealed
    ensures var d := Run(E, events).d;
            && 1 <= b.gen <= d.anchor.gen + 1
            && |d.commits| == d.anchor.gen
            && (b.gen == d.anchor.gen + 1 ==> Extends(E, StatesAt(d.commits, d.anchor.gen), b.states))
            && (d.anchor.bound ==> d.commits != [] && (b.hash == d.anchor.hash ==> b == Head(d)))
            && Admissible(E, b.states)
  {
    hide RunInv, HistoryInv, Extends, Admissible, Run;
    RunKeeps(E, events);
  }

  /** The boot branch for a blob two or more generations ahead is never taken. */
  lemma TwoAheadIsUnreachable(E: Env, events: seq<Event>, slotReadable: bool)
    requires Run(E, events).v.Opening?
    ensures var s := Run(E, events);
            var newest := Newest(s.v.first, if slotReadable then s.d.slot1 else None);
            newest.Some? ==> newest.value.gen <= s.v.anchored.gen + 1 && Admissible(E, newest.value.states)
  {
    hide RunInv, HistoryInv, Extends, Admissible, Run;
    RunKeeps(E, events);
  }

  /** A blob that Open may adopt ahead of the anchor extends everything ever released. */
  lemma OneAheadExtendsReleases(E: Env, events: seq<Event>, b: Blob, i: nat)
    requires b in Run(E, events).d.sealed && b.gen == Run(E, events).d.anchor.gen + 1
    requires i < |Run(E, events).releases|
    ensures var r := Run(E, events).releases[i];
            var v := ViewIn(E, b.states, r.cp.origin);
            v.Some? && Reaches(E, ReleasedView(r), v.value)
  {
    hide RunInv, ViewIn, Run, Follows, Reaches, Extends;
    RunKeeps(E, events);
    var s := Run(E, events);
    var r := s.releases[i];
    var o := r.cp.origin;
    var k := ReleaseIsCommitted(E, s.d.commits, s.signatures, r);
    ViewsFrom(E, s.d.commits, o, k);
    var last := s.d.commits[|s.d.commits| - 1].states;
    ViewsOnlyMove(E, last, b.states, o);
    ReachesMore(E, ReleasedView(r), ViewIn(E, last, o).value, ViewIn(E, b.states, o).value);
  }

  lemma ReachesMore(E: Env, from: View, mid: View, to: View)
    requires Reaches(E, from, mid) && Follows(E, Some(mid), to)
    ensures Reaches(E, from, to)
  {
    hide Follows, Path;
    var path :| Path(E, path, from, mid);
    PathGrows(E, path, from, mid, to);
  }

  // ----- release after commit -----

  /** When a 200 is handed out the anchor already binds a sealed blob that holds the origin at the
      released checkpoint or a checked extension of it, and the answer is a signature over the
      text the client sent, made by the signer its candidate named. */
  lemma ReleaseAfterCommit(E: Env, events: seq<Event>, tid: nat)
    requires Step(E, Run(E, events), Answer(tid)).releases != Run(E, events).releases
    ensures var s := Run(E, events);
            var t := Step(E, s, Answer(tid));
            && s.v.Up? && tid in s.v.run.threads && s.v.run.threads[tid].Waiting?
            && |t.releases| == |s.releases| + 1 && t.releases[..|s.releases|] == s.releases
            && var r, c := t.releases[|s.releases|], s.v.run.threads[tid].cand;
               && r.cp == c.cp && r.text == c.text && Signed(s.signatures, c, r.resp)
               && s.d.anchor.bound && s.d.commits != []
               && var b := Head(s.d);
                  && b in s.d.sealed && b.hash == s.d.anchor.hash && b.gen == s.d.anchor.gen
                  && ViewIn(E, b.states, r.cp.origin).Some?
                  && Reaches(E, ReleasedView(r), ViewIn(E, b.states, r.cp.origin).value)
  {
    hide RunInv, ViewIn, Run, Follows, Reaches, Extends, Signed, SealedOk, TextOk, InHistory;
    RunKeeps(E, events);
    var s := Run(E, events);
    var t := Step(E, s, Answer(tid));
    var u := s.v.run;
    AnswerKeeps(E, s, u, tid);
    var r := t.releases[|s.releases|];
    var k := ReleaseIsCommitted(E, t.d.commits, t.signatures, r);
    ViewsFrom(E, s.d.commits, r.cp.origin, k);
    ThreadsOk(E, s, u);
    AnswerIsAnchored(E, s, u, u.threads[tid].entry);
  }

  // ----- RAM, anchor and disk -----

  /** RAM is exactly the payload of the blob the anchor pins, or all is empty and unbound. */
  ghost predicate Agrees(E: Env, d: Durable, ram: Ram) {
    && ram.gen == d.anchor.gen && d.anchor.bound == (ram.gen > 0)
    && (ram.gen == 0 ==> ram.mem == map[])
    && (ram.gen > 0 ==>
          && d.commits != []
          && var b := Head(d);
             b in d.sealed && b.hash == d.anchor.hash && Admissible(E, b.states) && ram.mem == Admitted(E, b.states))
  }

  lemma SettledAgrees(E: Env, s: State)
    requires Inv(E, s) && s.v.Up? && !s.v.run.ram.halted && !s.v.run.phase.Publishing?
    ensures Agrees(E, s.d, s.v.run.ram)
  {
    hide HistoryInv, Extends, PoolInv, EntryInv, ChannelInv, Fresh, BatchInv, SignedInv, GrantInv, ThreadInv, KeyInv, CountInv, Restore;
    MemViewsAreNoteViews(E, s.v.run.ram.mem, []);
    if s.v.run.ram.gen == 0 {
      assert NotesOf(s.v.run.ram.mem).Keys == s.v.run.ram.mem.Keys;
    }
  }

  lemma PublishingLags(E: Env, s: State, u: Running)
    requires Inv(E, s) && s.v == Up(u) && u.phase.Publishing?
    ensures s.d.anchor.gen == u.ram.gen + 1 == |s.d.commits|
    ensures Head(s.d) == u.phase.blob && u.phase.blob.states == NextStates(u.ram.mem, u.phase.updates) && !u.ram.halted
  {
    hide HistoryInv, SealedOk, Lineage, PoolInv, EntryInv, ChannelInv, Fresh, BatchInv, SignedInv, GrantInv, ThreadInv, KeyInv, CountInv,
         MemRestores, StatesAt, NextStates;
  }

  /** A store that is not halted agrees with its anchor if and only if it is not between anchoring
      and publication. In that window, which unlocked reads of RAM can observe, RAM is one
      generation behind: the anchor pins exactly RAM overlaid with the batch, and publication
      restores agreement. */
  lemma RamAgreesWithAnchor(E: Env, events: seq<Event>)
    requires Run(E, events).v.Up? && !Run(E, events).v.run.ram.halted
    ensures var s := Run(E, events);
            var u := s.v.run;
            && (Agrees(E, s.d, u.ram) <==> !u.phase.Publishing?)
            && (u.phase.Publishing? ==>
                  && s.d.anchor.gen == u.ram.gen + 1 && s.d.commits != []
                  && Head(s.d) == u.phase.blob && u.phase.blob.states == NextStates(u.ram.mem, u.phase.updates)
                  && Agrees(E, s.d, Published(u.ram, u.phase.updates)))
  {
    hide Run, Inv, NextStates, Admissible;
    RunKeeps(E, events);
    var s := Run(E, events);
    var u := s.v.run;
    if u.phase.Publishing? {
      PublishingLags(E, s, u);
      StepKeeps(E, s, Publish);
      SettledAgrees(E, Step(E, s, Publish));
    } else {
      SettledAgrees(E, s);
    }
  }

  /** No step of a halted unit changes the card, the anchor or RAM. */
  lemma HaltedIsFrozen(E: Env, events: seq<Event>, ev: Event)
    requires Run(E, events).v.Up? && Run(E, events).v.run.ram.halted
    requires !ev.Tamper? && !ev.PowerCut?
    ensures var s := Run(E, events);
            var t := Step(E, s, ev);
            t.d == s.d && t.v.Up? && t.v.run.ram == s.v.run.ram
  {
    hide HistoryInv, DurableInv, Run, PoolInv, EntryInv, ChannelInv, Fresh, BatchInv, SignedInv, GrantInv, ThreadInv, KeyInv, CountInv,
         MemRestores, StatesAt, NextStates, WithResults, WithClosed, Decision, Prepare, SignEntry;
    RunKeeps(E, events);
    var s := Run(E, events);
    if ev.Sign? {
      SignFrame(s, s.v.run, ev.origin, ev.sig);
    }
  }

  /** Once halted, the card, the anchor and RAM stay as they are for the rest of the boot. */
  lemma {:induction false} HaltedForGood(E: Env, events: seq<Event>, more: seq<Event>)
    requires Run(E, events).v.Up? && Run(E, events).v.run.ram.halted
    requires forall i :: 0 <= i < |more| ==> !more[i].Tamper? && !more[i].PowerCut?
    ensures var s, t := Run(E, events), Run(E, events + more);
            t.d == s.d && t.v.Up? && t.v.run.ram == s.v.run.ram
    decreases |more|
  {
    hide Step;
    if more == [] {
      assert events + more == events;
    } else {
      var init := more[..|more| - 1];
      HaltedForGood(E, events, init);
      HaltedIsFrozen(E, events + init, more[|more| - 1]);
      assert (events + more)[..|events + more| - 1] == events + init;
    }
  }

  // ----- pools and answers -----

  /** The pools never share an origin, never outgrow their bound, and every pending candidate may
      follow the view the store holds now. */
  lemma PendingStaysLegal(E: Env, events: seq<Event>, o: Bytes)
    requires Run(E, events).v.Up?
    ensures var u := Run(E, events).v.run;
            && u.current.Keys !! u.sequencing.Keys && |u.current| <= 256 && |u.sequencing| <= 256
            && (o in u.current ==>
                  u.current[o] in u.entries && Follows(E, MemView(u.ram.mem, o), CandView(u.entries[u.current[o]].cand)))
            && (o in u.sequencing ==>
                  u.sequencing[o] in u.entries && Follows(E, MemView(u.ram.mem, o), CandView(u.entries[u.sequencing[o]].cand)))
  {
    hide HistoryInv, DurableInv, Run, StoreInv, EntryInv, ChannelInv, Fresh, BatchInv, SignedInv, GrantInv, ThreadInv, KeyInv, CountInv, Follows;
    RunKeeps(E, events);
  }

  /** The channel of an entry is closed at most once, exactly when the entry has left the pools,
      and then with a final answer; a visible 200 is in the anchored history under its own note. */
  lemma AnsweredExactlyOnce(E: Env, events: seq<Event>, e: nat)
    requires Run(E, events).v.Up? && e in Run(E, events).v.run.entries
    ensures var s := Run(E, events);
            var u := s.v.run;
            var x := u.entries[e];
            && x.closed <= 1
            && (x.closed == 1 <==> !Pending(u.entries, u.current, u.sequencing, e))
            && (x.closed == 1 ==> x.result.Some? && x.result.value.code in {200, 500, 503})
            && (x.closed == 1 && Granted(x) ==>
                  && InHistory(s.d.commits, u.ram.gen, x.cand.cp.origin, GrantedNote(x))
                  && Signed(s.signatures, x.cand, x.result.value.resp))
  {
    hide HistoryInv, DurableInv, Run, StoreInv, PoolInv, Fresh, BatchInv, ThreadInv, KeyInv, CountInv, InHistory, Signed, TextOk, SignedNote;
    RunKeeps(E, events);
  }

  /** Retiring a batch closes every channel in it. */
  lemma RetirementAnswersAll(E: Env, events: seq<Event>, o: Bytes)
    requires var s := Run(E, events);
             s.v.Up? && s.v.run.phase.Finished? && o in s.v.run.sequencing
    ensures var u := Run(E, events).v.run;
            var t := Step(E, Run(E, events), RetirePool);
            && u.sequencing[o] in u.entries && t.v.Up? && u.sequencing[o] in t.v.run.entries
            && t.v.run.entries[u.sequencing[o]].closed == 1
            && t.v.run.entries[u.sequencing[o]].result == u.entries[u.sequencing[o]].result
            && t.v.run.entries[u.sequencing[o]].result.Some?
  {
    hide HistoryInv, DurableInv, Run, StoreInv, SignedInv, GrantInv, ThreadInv, KeyInv, CountInv, EntryInv, Follows;
    RunKeeps(E, events);
  }

  /** A batch that fails, at whatever stage, grants none of its entries. */
  lemma FailedBatchGrantsNothing(E: Env, events: seq<Event>, ev: Event, o: Bytes)
    requires var s := Run(E, events);
             s.v.Up? && (s.v.run.phase.Rotated? || SignerMutexHeld(s.v.run.phase)) && o in s.v.run.sequencing
    requires var t := Step(E, Run(E, events), ev);
             t.v.Up? && t.v.run.failed > Run(E, events).v.run.failed
    ensures var u := Run(E, events).v.run;
            var t := Step(E, Run(E, events), ev);
            && u.sequencing[o] in t.v.run.entries
            && !Granted(t.v.run.entries[u.sequencing[o]])
            && t.v.run.ram.mem == u.ram.mem && t.v.run.ram.gen == u.ram.gen
  {
    hide Inv, Run, FailBatch, PoolOk, BatchInv, WriteRecord, NextBlob, Decision, Prepare, WithClosed, SignEntry;
    RunKeeps(E, events);
    var s := Run(E, events);
    var u := s.v.run;
    BatchFacts(E, s, u, o);
    FailBatchGrantsNone(u, Result(SERVER_ERROR, []), o);
    FailBatchGrantsNone(Halt(u), Result(SERVER_ERROR, []), o);
    FailBatchGrantsNone(u.(passes := u.passes + 1), Result(UNAVAILABLE, []), o);
    OtherEventsFailNothing(E, s, u, ev);
  }

  lemma BatchFacts(E: Env, s: State, u: Running, o: Bytes)
    requires Inv(E, s) && s.v == Up(u) && o in u.sequencing
    ensures u.sequencing[o] in u.entries && u.entries[u.sequencing[o]].cand.cp.origin == o
    ensures u.phase.Signing? && u.phase.todo == {} && u.phase.updates == map[] ==> !Granted(u.entries[u.sequencing[o]])
  {
    hide HistoryInv, DurableInv, StoreInv, SignedInv, GrantInv, ThreadInv, KeyInv, CountInv, EntryInv, Follows, ChannelInv, Fresh;
  }

  lemma FailBatchGrantsNone(u: Running, r: Result, o: Bytes)
    requires o in u.sequencing && u.sequencing[o] in u.entries && u.entries[u.sequencing[o]].cand.cp.origin == o
    requires r.code != OK
    ensures var v := FailBatch(u, r);
            && u.sequencing[o] in v.entries && !Granted(v.entries[u.sequencing[o]])
            && v.ram == u.ram && v.failed == u.failed + 1
  {
  }

  lemma OtherEventsFailNothing(E: Env, s: State, u: Running, ev: Event)
    requires s.v == Up(u)
    ensures ev.LockSigner? || ev.SigningDone? || ev.WriteSlot? || ev.WriteAnchor? || ev.PowerCut? || ev.OpenStart? || ev.OpenFinish?
         || (Step(E, s, ev).v.Up? && Step(E, s, ev).v.run.failed == u.failed)
  {
    hide Decision, Prepare, NextBlob, WithResults, WithClosed, WriteRecord, SignResult, SignPhase;
  }

  // ----- keys -----

  /** Every signature was made with the key installed at that moment, which was not destroyed, for
      an entry admitted under that very installation. */
  lemma SignaturesAreCurrent(E: Env, events: seq<Event>, i: nat)
    requires i < |Run(E, events).signatures|
    ensures var x := Run(E, events).signatures[i];
            x.installed == Some(x.signer) && x.signer !in x.zeroed && x.admitted == x.epoch
  {
    hide RunInv, DurableInv, Run, ReleaseOk;
    RunKeeps(E, events);
  }

  /** Every signer change, reinstalling the same key included, starts a new epoch before any batch
      can be locked; nothing else changes signer or epoch. */
  lemma EpochCountsSignerChanges(E: Env, s: State, ev: Event)
    requires s.v.Up? && Step(E, s, ev).v.Up?
    ensures var u, v := s.v.run, Step(E, s, ev).v.run;
            || (v.epoch == u.epoch && v.signer == u.signer && v.keys.bumping == u.keys.bumping)
            || (v.epoch == u.epoch && !u.keys.bumping && v.keys.bumping && (ev.Provision? || ev.Deprovision? || ev.Reinstall?))
            || (v.epoch == u.epoch + 1 && v.signer == u.signer && u.keys.bumping && !v.keys.bumping && ev.BumpEpoch?)
  {
    hide Decision, Prepare, DoSign, DoWriteSlot, DoWriteAnchor, BeginPass, EndSigning, WithClosed, WithResults;
    SequencerKeepsSigner(s, s.v.run, ev);
  }

  lemma SequencerKeepsSigner(s: State, u: Running, ev: Event)
    requires s.v == Up(u)
    ensures ev.Sign? ==> var t := DoSign(s, u, ev.origin, ev.sig); t.v.Up? && SameSigner(u, t.v.run)
    ensures ev.WriteSlot? ==>
              var t := DoWriteSlot(s, u, ev.fits, ev.hash, ev.slotWrite); t.v.Up? && SameSigner(u, t.v.run)
    ensures ev.WriteAnchor? ==> var t := DoWriteAnchor(s, u, ev.anchorWrite); t.v.Up? && SameSigner(u, t.v.run)
    ensures SameSigner(u, BeginPass(u)) && (u.phase.Signing? ==> SameSigner(u, EndSigning(u)))
  {
    hide DoSign, DoWriteSlot, DoWriteAnchor, BeginPass, EndSigning;
    PassFrame(u);
    match ev {
      case Sign(o, sig) => SignFrame(s, u, o, sig);
      case WriteSlot(fits, hash, w) => WriteSlotFrame(s, u, fits, hash, w);
      case WriteAnchor(w) => WriteAnchorFrame(s, u, w);
      case _ =>
    }
  }

  /** No batch is locked for signing between the two halves of a signer change. */
  lemma LockWaitsForEpoch(E: Env, events: seq<Event>)
    requires Run(E, events).v.Up? && SignerMutexHeld(Run(E, events).v.run.phase)
    ensures !Run(E, events).v.run.keys.bumping
  {
    hide DurableInv, HistoryInv, Run, RunInv;
    RunKeeps(E, events);
    KeysOk(E, Run(E, events), Run(E, events).v.run);
  }

  /** An entry admitted before a signer change is answered 503, never signed. */
  lemma PendingDiesWithItsSigner(E: Env, events: seq<Event>, o: Bytes, sig: Option<Bytes>)
    requires var s := Run(E, events);
             && s.v.Up? && s.v.run.phase.Signing? && o in s.v.run.phase.todo && PoolsResolve(s.v.run)
             && o in s.v.run.sequencing && s.v.run.entries[s.v.run.sequencing[o]].admitted < s.v.run.epoch
    ensures var s := Run(E, events);
            var t := Step(E, s, Sign(o, sig));
            && t.signatures == s.signatures && t.v.Up? && s.v.run.sequencing[o] in t.v.run.entries
            && t.v.run.entries[s.v.run.sequencing[o]].result == Some(Result(503, []))
  {
    hide HistoryInv, DurableInv, Run, StoreInv, SignedInv, GrantInv, ThreadInv, CountInv, PoolInv, BatchInv, ChannelInv, Fresh, TextOk;
    RunKeeps(E, events);
  }

  /** An entry that outlived its signer. */
  predicate Stale(u: Running, e: nat) {
    e in u.entries && u.entries[e].admitted < u.epoch && !Granted(u.entries[e])
  }

  lemma StaleStaysStale(E: Env, s: State, u: Running, ev: Event, e: nat)
    requires Inv(E, s) && s.v == Up(u) && Stale(u, e) && !ev.PowerCut?
    ensures var t := Step(E, s, ev);
            t.v.Up? && Stale(t.v.run, e)
  {
    hide Inv, DoSign, DoWriteSlot, DoWriteAnchor, BeginPass, EndSigning, StopPools, Retire, DoSubmit, DoReadEpoch, DoEnqueue, DoAnswer,
         DoProvision, DoDeprovision, DoDestroyKey, DoReinstall, DoBumpEpoch, DoOpenFinish, Rotate, Commit, Stale;
    if ev.OpenFinish? {
      BootedAlready(E, s, ev.slotReadable, ev.anchorWrite);
      return;
    }
    match ev {
      case Sign(o, sig) => SignKeepsStale(E, s, u, o, sig, e);
      case WriteSlot(_, _, _) => WritesKeepStale(s, u, e, ev);
      case WriteAnchor(_) => WritesKeepStale(s, u, e, ev);
      case Submit(tid, _) => RequestsKeepStale(E, s, u, e, ev, tid);
      case ReadEpoch(tid) => RequestsKeepStale(E, s, u, e, ev, tid);
      case Enqueue(tid, id) => EnqueueKeepsStale(E, s, u, e, tid, id);
      case Answer(tid) => RequestsKeepStale(E, s, u, e, ev, tid);
      case Provision(_) => KeysKeepStale(s, u, e, ev);
      case Deprovision => KeysKeepStale(s, u, e, ev);
      case DestroyKey => KeysKeepStale(s, u, e, ev);
      case Reinstall(_) => KeysKeepStale(s, u, e, ev);
      case BumpEpoch => KeysKeepStale(s, u, e, ev);
      case _ => PassKeepsStale(u, e); RetirementKeepsStale(u, e);
    }
  }

  lemma RequestsKeepStale(E: Env, s: State, u: Running, e: nat, ev: Event, tid: nat)
    requires s.v == Up(u) && Stale(u, e)
    ensures ev.Submit? ==> var t := DoSubmit(E, s, u, tid, ev.body); t.v.Up? && Stale(t.v.run, e)
    ensures var t := DoReadEpoch(s, u, tid); t.v.Up? && Stale(t.v.run, e)
    ensures var t := DoAnswer(s, u, tid); t.v.Up? && Stale(t.v.run, e)
  {
    hide Prepare;
  }

  lemma EnqueueKeepsStale(E: Env, s: State, u: Running, e: nat, tid: nat, id: nat)
    requires s.v == Up(u) && Stale(u, e)
    ensures var t := DoEnqueue(E, s, u, tid, id); t.v.Up? && Stale(t.v.run, e)
  {
    hide Decision, PoolsResolve;
  }

  lemma KeysKeepStale(s: State, u: Running, e: nat, ev: Event)
    requires s.v == Up(u) && Stale(u, e)
    ensures ev.Provision? ==> var t := DoProvision(s, u, ev.key); t.v.Up? && Stale(t.v.run, e)
    ensures ev.Reinstall? ==> var t := DoReinstall(s, u, ev.key); t.v.Up? && Stale(t.v.run, e)
    ensures var t := DoDeprovision(s, u); t.v.Up? && Stale(t.v.run, e)
    ensures var t := DoDestroyKey(s, u); t.v.Up? && Stale(t.v.run, e)
    ensures var t := DoBumpEpoch(s, u); t.v.Up? && Stale(t.v.run, e)
  {
  }

  lemma PassKeepsStale(u: Running, e: nat)
    requires Stale(u, e)
    ensures Stale(BeginPass(u), e) && (u.phase.Signing? ==> Stale(EndSigning(u), e))
    ensures Stale(CommitFailed(u), e) && Stale(CommitFailed(Halt(u)), e)
  {
    hide WithResults;
    ResultsKeepStale(u, e, Result(UNAVAILABLE, []));
    ResultsKeepStale(u, e, Result(SERVER_ERROR, []));
  }

  lemma ResultsKeepStale(u: Running, e: nat, r: Result)
    requires Stale(u, e) && r.code != OK
    ensures var es := WithResults(u.entries, u.sequencing, r);
            e in es && es[e].admitted == u.entries[e].admitted && !Granted(es[e])
  {
  }

  lemma RetirementKeepsStale(u: Running, e: nat)
    requires Stale(u, e)
    ensures Stale(Retire(u), e) && Stale(StopPools(u), e) && Stale(Rotate(u), e)
    ensures forall updates :: Stale(Commit(u, updates), e)
  {
  }

  lemma BootedAlready(E: Env, s: State, r: bool, w: AnchorOutcome)
    requires s.v.Up?
    ensures DoOpenFinish(E, s, r, w) == s
  {
  }

  /** The signing loop gives nothing to an entry of an earlier epoch. */
  lemma SignKeepsStale(E: Env, s: State, u: Running, o: Bytes, sig: Option<Bytes>, e: nat)
    requires Inv(E, s) && s.v == Up(u) && Stale(u, e)
    ensures DoSign(s, u, o, sig).v.Up? && Stale(DoSign(s, u, o, sig).v.run, e)
  {
    hide DurableInv, HistoryInv, RunInv, SignPhase, TextOk;
    KeysOk(E, s, u);
    EntriesOk(E, s, u);
    assert EntryOk(E, u.entries[e], u.epoch);
  }

  lemma WritesKeepStale(s: State, u: Running, e: nat, ev: Event)
    requires s.v == Up(u) && Stale(u, e)
    ensures ev.WriteSlot? ==>
              var t := DoWriteSlot(s, u, ev.fits, ev.hash, ev.slotWrite); t.v.Up? && Stale(t.v.run, e)
    ensures ev.WriteAnchor? ==> var t := DoWriteAnchor(s, u, ev.anchorWrite); t.v.Up? && Stale(t.v.run, e)
  {
    hide CommitFailed, NextBlob, WriteRecord, WithSlot;
    PassKeepsStale(u, e);
  }

  /** An entry that outlives its signer without having been granted is never granted: over any
      continuation of the boot its answer, once there is one, is 500 or 503. The signer cannot
      change under a batch, so an entry that was granted before the change is already committed. */
  lemma {:induction false} StaleIsNeverGranted(E: Env, events: seq<Event>, more: seq<Event>, e: nat)
    requires Run(E, events).v.Up? && Stale(Run(E, events).v.run, e)
    requires forall i :: 0 <= i < |more| ==> !more[i].PowerCut?
    ensures var t := Run(E, events + more);
            && t.v.Up? && Stale(t.v.run, e)
            && (t.v.run.entries[e].closed > 0 ==>
                  t.v.run.entries[e].result.Some? && t.v.run.entries[e].result.value.code in {500, 503})
    decreases |more|
  {
    hide Step, Inv;
    if more == [] {
      assert events + more == events;
    } else {
      var init := more[..|more| - 1];
      StaleIsNeverGranted(E, events, init, e);
      RunKeeps(E, events + init);
      StaleStaysStale(E, Run(E, events + init), Run(E, events + init).v.run, more[|more| - 1], e);
      assert (events + more)[..|events + more| - 1] == events + init;
    }
    AnsweredExactlyOnce(E, events + more, e);
  }

  /** A destroyed key stays destroyed and is not used by the next step. */
  lemma DestroyedKeyNeverSigns(E: Env, events: seq<Event>, ev: Event, key: Signer)
    requires Run(E, events).v.Up? && key in Run(E, events).v.run.keys.zeroed
    ensures var s := Run(E, events);
            var t := Step(E, s, ev);
            && s.signatures <= t.signatures
            && (forall i :: |s.signatures| <= i < |t.signatures| ==> t.signatures[i].signer != key)
            && (!ev.PowerCut? ==> t.v.Up? && key in t.v.run.keys.zeroed)
  {
    hide Inv, Run, ServingStep, Decide, WriteRecord;
    RunKeeps(E, events);
    var s := Run(E, events);
    if s.v.Up? {
      KeysStayDestroyed(E, s, s.v.run, ev);
      SignsWithInstalled(E, s, s.v.run, ev);
    }
  }

  /** A destroyed key never signs again in its boot, whatever happens. */
  lemma {:induction false} DestroyedForGood(E: Env, events: seq<Event>, more: seq<Event>, key: Signer)
    requires Run(E, events).v.Up? && key in Run(E, events).v.run.keys.zeroed
    requires forall i :: 0 <= i < |more| ==> !more[i].PowerCut?
    ensures var s, t := Run(E, events), Run(E, events + more);
            && t.v.Up? && key in t.v.run.keys.zeroed && s.signatures <= t.signatures
            && (forall i :: |s.signatures| <= i < |t.signatures| ==> t.signatures[i].signer != key)
    decreases |more|
  {
    hide Step;
    if more == [] {
      assert events + more == events;
    } else {
      var init := more[..|more| - 1];
      DestroyedForGood(E, events, init, key);
      DestroyedKeyNeverSigns(E, events + init, more[|more| - 1], key);
      assert (events + more)[..|events + more| - 1] == events + init;
    }
  }

  lemma KeysStayDestroyed(E: Env, s: State, u: Running, ev: Event)
    requires s.v == Up(u)
    ensures var t := ServingStep(E, s, u, ev);
            t.v.Up? && u.keys.zeroed <= t.v.run.keys.zeroed
  {
    hide Decision, Prepare, DoSign, DoWriteSlot, DoWriteAnchor, BeginPass, EndSigning, WithClosed, WithResults;
    SequencerKeepsSigner(s, u, ev);
  }

  lemma SignsWithInstalled(E: Env, s: State, u: Running, ev: Event)
    requires Inv(E, s) && s.v == Up(u)
    ensures var t := ServingStep(E, s, u, ev);
            && s.signatures <= t.signatures
            && (forall i :: |s.signatures| <= i < |t.signatures| ==> t.signatures[i].signer !in u.keys.zeroed)
  {
    hide DurableInv, HistoryInv, RunInv, Decision, Prepare, NextBlob, WriteRecord, SignEntry, BeginPass, EndSigning, FailBatch, WithClosed,
         WithResults;
    KeysOk(E, s, u);
  }

  // ----- counting -----

  /** Between passes the generation counts the committed batches since boot, every non-empty pool
      was committed or failed, and while the store is not halted each commit has cost exactly one
      anchor record; the generation never passes the uint32 range. */
  lemma CountersConserve(E: Env, events: seq<Event>)
    requires Run(E, events).v.Up? && !SignerMutexHeld(Run(E, events).v.run.phase)
    ensures var s := Run(E, events);
            var u := s.v.run;
            && u.ram.gen == u.bootGen + u.committed
            && u.committed + u.failed == u.passes
            && (!u.ram.halted ==> s.d.anchor.gen == |s.d.commits| == u.bootGen + u.committed)
            && s.d.anchor.gen <= MAX_GEN && u.ram.gen <= MAX_GEN
  {
    hide HistoryInv, SealedOk, Run, SignedInv, GrantInv, ThreadInv, KeyInv, PoolInv, BatchInv, ChannelInv, Fresh, EntryInv, Lineage,
         MemRestores, StatesAt, NextStates;
    RunKeeps(E, events);
  }
}
