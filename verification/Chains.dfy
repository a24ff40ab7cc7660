/** Chains of views: what it means that released checkpoints never conflict. */
module Chains {
  import opened Common
  import opened Merkle
  import opened Notes
  import opened StoreModel

  /** The first view may open a log, and each later one may follow its predecessor. */
  ghost predicate Chain(E: Env, views: seq<View>) {
    && (views != [] ==> Follows(E, None, views[0]))
    && (forall k :: 0 < k < |views| ==> Link(E, views, k))
  }

  ghost predicate Link(E: Env, views: seq<View>, k: nat)
    requires 0 < k < |views|
  {
    Follows(E, Some(views[k - 1]), views[k])
  }

  lemma {:induction false} EmptyViewsAreEmpty(E: Env, views: seq<View>, k: nat)
    requires Chain(E, views) && k < |views| && views[k].size == 0
    ensures views[k].hash == E.hasher.empty
  {
    if k > 0 {
      assert Link(E, views, k);
      if views[k - 1] == views[k] {
        EmptyViewsAreEmpty(E, views, k - 1);
      }
    }
  }

  /** One step never shrinks a log, and a step that does not grow it changes nothing. */
  lemma StepIsHonest(E: Env, prev: View, next: View)
    requires Follows(E, Some(prev), next)
    requires prev.size == 0 ==> prev.hash == E.hasher.empty
    ensures prev.size <= next.size
    ensures prev.size == next.size ==> prev == next
  {
    if prev != next && prev.size > 0 {
      var proof :| proof in E.proofs && Checks(E, proof, prev, next);
    }
  }

  lemma {:induction false} ChainIsMonotone(E: Env, views: seq<View>, i: nat, j: nat)
    requires Chain(E, views) && i <= j < |views|
    ensures views[i].size <= views[j].size
    ensures views[i].size == views[j].size ==> views[i] == views[j]
    decreases j
  {
    if i < j {
      ChainIsMonotone(E, views, i, j - 1);
      if views[j - 1].size == 0 {
        EmptyViewsAreEmpty(E, views, j - 1);
      }
      assert Link(E, views, j);
      StepIsHonest(E, views[j - 1], views[j]);
    }
  }

  /** Somewhere along the chain the proof that was checked clashes with the leaves: one of finitely
      many named pairs of inputs collides. */
  ghost predicate ChainClashes(E: Env, views: seq<View>, d: seq<Leaf>) {
    exists k :: 0 < k < |views| && ClashesAt(E, views, k, d)
  }

  ghost predicate ClashesAt(E: Env, views: seq<View>, k: nat, d: seq<Leaf>)
    requires 0 < k < |views|
  {
    views[k].size <= |d| && StepClashes(E, views[k - 1], views[k], d[..views[k].size])
  }

  /** If a view in the chain is the root of d, every earlier view is the root of a prefix of d,
      unless a checked proof of the chain clashes with d. */
  lemma {:induction false} ChainMeansPrefixes(E: Env, views: seq<View>, i: nat, j: nat, d: seq<Leaf>)
    requires Chain(E, views) && i <= j < |views|
    requires |d| == views[j].size && views[j].hash == TreeHash(E.hasher, d)
    ensures views[i].size <= |d| && (views[i].hash == TreeHash(E.hasher, d[..views[i].size]) || ChainClashes(E, views, d))
    decreases j
  {
    hide TreeHash, Follows, StepClashes;
    ChainIsMonotone(E, views, i, j);
    if i == j {
      assert d[..|d|] == d;
    } else {
      var prev := views[j - 1];
      if prev.size == 0 {
        EmptyViewsAreEmpty(E, views, j - 1);
      }
      assert Link(E, views, j);
      FollowsMeansPrefix(E, prev, views[j], d);
      assert d[..|d|] == d;
      if prev.hash == TreeHash(E.hasher, d[..prev.size]) {
        ChainMeansPrefixes(E, views, i, j - 1, d[..prev.size]);
        assert d[..prev.size][..views[i].size] == d[..views[i].size];
        ClashesGrow(E, views, d[..prev.size], d);
      } else {
        assert ClashesAt(E, views, j, d);
      }
    }
  }

  lemma ClashesGrow(E: Env, views: seq<View>, part: seq<Leaf>, d: seq<Leaf>)
    requires part <= d
    ensures ChainClashes(E, views, part) ==> ChainClashes(E, views, d)
  {
    hide StepClashes;
    if ChainClashes(E, views, part) {
      var k :| 0 < k < |views| && ClashesAt(E, views, k, part);
      assert d[..views[k].size] == part[..views[k].size];
      assert ClashesAt(E, views, k, d);
    }
  }

  /** The committed views of one origin, oldest first. */
  function Views(E: Env, commits: seq<Blob>, o: Bytes): seq<View> {
    if commits == [] then []
    else
      var rest := Views(E, commits[..|commits| - 1], o);
      var v := ViewIn(E, commits[|commits| - 1].states, o);
      if v.Some? then rest + [v.value] else rest
  }

  lemma LineagePrefix(E: Env, commits: seq<Blob>)
    requires commits != [] && Lineage(E, commits)
    ensures Lineage(E, commits[..|commits| - 1])
  {
    hide Extends;
    var init := commits[..|commits| - 1];
    forall i | 0 <= i < |init| ensures Extends(E, StatesAt(init, i), init[i].states) {
      assert StatesAt(init, i) == StatesAt(commits, i);
    }
  }

  /** The committed views of one origin form a chain that ends in its present view. */
  lemma {:induction false} ViewsFormChain(E: Env, commits: seq<Blob>, o: Bytes)
    requires Lineage(E, commits)
    ensures Chain(E, Views(E, commits, o))
    ensures var now := ViewIn(E, StatesAt(commits, |commits|), o);
            var views := Views(E, commits, o);
            if views == [] then now == None else now == Some(views[|views| - 1])
  {
    hide Follows, Restore;
    if commits != [] {
      var init := commits[..|commits| - 1];
      LineagePrefix(E, commits);
      ViewsFormChain(E, init, o);
      var before, after := StatesAt(init, |init|), commits[|commits| - 1].states;
      assert before == StatesAt(commits, |init|);
      assert Extends(E, before, after);
      var views := Views(E, commits, o);
      forall k | 0 < k < |views| ensures Link(E, views, k) {
        if k < |Views(E, init, o)| {
          assert Link(E, Views(E, init, o), k);
        }
      }
    }
  }

  /** A view that some committed blob holds is in the chain. */
  lemma {:induction false} ViewsContain(E: Env, commits: seq<Blob>, o: Bytes, i: nat)
    requires i < |commits| && ViewIn(E, commits[i].states, o).Some?
    ensures ViewIn(E, commits[i].states, o).value in Views(E, commits, o)
  {
    hide ViewIn;
    var init := commits[..|commits| - 1];
    if i < |init| {
      ViewsContain(E, init, o, i);
    }
  }

  /** From the blob that holds a view onwards, the origin only moves along the chain. */
  lemma {:induction false} ViewsFrom(E: Env, commits: seq<Blob>, o: Bytes, i: nat)
    requires Lineage(E, commits) && i < |commits| && ViewIn(E, commits[i].states, o).Some?
    ensures ViewIn(E, commits[|commits| - 1].states, o).Some?
    ensures Reaches(E, ViewIn(E, commits[i].states, o).value, ViewIn(E, commits[|commits| - 1].states, o).value)
    decreases |commits|
  {
    hide Follows, ViewIn;
    var last := |commits| - 1;
    var from := ViewIn(E, commits[i].states, o).value;
    if i == last {
      assert Path(E, [from], from, from);
    } else {
      var init := commits[..last];
      LineagePrefix(E, commits);
      ViewsFrom(E, init, o, i);
      var mid := ViewIn(E, init[|init| - 1].states, o).value;
      assert StatesAt(commits, last) == init[|init| - 1].states;
      assert Extends(E, StatesAt(commits, last), commits[last].states);
      ViewsOnlyMove(E, StatesAt(commits, last), commits[last].states, o);
      var to := ViewIn(E, commits[last].states, o).value;
      var path :| Path(E, path, from, mid);
      PathGrows(E, path, from, mid, to);
    }
  }

  lemma PathGrows(E: Env, path: seq<View>, from: View, mid: View, to: View)
    requires Path(E, path, from, mid) && Follows(E, Some(mid), to)
    ensures Path(E, path + [to], from, to)
  {
    hide Follows;
    forall k | 0 < k < |path + [to]| ensures Link(E, path + [to], k) {
      if k < |path| {
        assert Link(E, path, k);
      }
    }
  }

  lemma ViewsOnlyMove(E: Env, before: States, after: States, o: Bytes)
    requires Extends(E, before, after) && ViewIn(E, before, o).Some?
    ensures ViewIn(E, after, o).Some? && Follows(E, ViewIn(E, before, o), ViewIn(E, after, o).value)
  {
    hide Follows, Restore;
  }

  ghost predicate Path(E: Env, path: seq<View>, from: View, to: View) {
    && path != [] && path[0] == from && path[|path| - 1] == to
    && forall k :: 0 < k < |path| ==> Link(E, path, k)
  }

  /** `to` is `from` or a checked extension of it. */
  ghost predicate Reaches(E: Env, from: View, to: View) {
    exists path :: Path(E, path, from, to)
  }
}
