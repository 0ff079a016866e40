/**
 Undo of a whole upgrade: whatever sequence of budget, node and toleration operations ran,
 with whatever failed or half-failed calls, one clean run of `cleanupGlobalUpgradeArtifacts`
 gives back the cluster as it was, up to the node label that cleanup never removes.
 */
module UpgradeUndo {
  import opened Common
  import opened Api
  import opened DependencyGraph
  import opened LiveModel
  import opened PdbLocks

  // ---------- what "no artefacts" means ----------

  ghost predicate NoTaints(nodes: seq<Node>) {
    forall i, t :: 0 <= i < |nodes| && t in nodes[i].taints ==> t.key != TAINT_KEY
  }

  ghost predicate NoTolerations(ts: seq<Toleration>) {
    forall t :: t in ts ==> t.key != TAINT_KEY
  }

  ghost predicate CleanCluster(w: World, names: set<string>) {
    && CleanPdbs(w.pdbs, names)
    && NoTaints(w.nodes)
    && (forall key :: key in w.workloads && key.name in names ==> NoTolerations(w.workloads[key].tolerations))
  }

  /** No planned name is at once a StatefulSet and a Deployment. */
  ghost predicate OneKind(w: World, names: set<string>) {
    forall n :: n in names ==> !(Key(StatefulSet, n) in w.workloads && Key(PlainDeployment, n) in w.workloads)
  }

  /** The workload a name stands for when no call fails. */
  function Resolve(w: World, name: string): (r: Option<Key>)
    ensures r.Some? ==> r.value in w.workloads && r.value.name == name
  {
    if Key(StatefulSet, name) in w.workloads then Some(Key(StatefulSet, name))
    else if Key(PlainDeployment, name) in w.workloads then Some(Key(PlainDeployment, name))
    else None
  }

  lemma GetWorkloadResolves(w: World, rs: Replies, names: set<string>, name: string)
    ensures rs == [] ==> GetWorkload(w, rs, name) == ([], Resolve(w, name))
    ensures OneKind(w, names) && name in names ==>
      GetWorkload(w, rs, name).1 == None || GetWorkload(w, rs, name).1 == Resolve(w, name)
  {}

  /** Only an answered read finds a workload, and the Deployment is read only if the StatefulSet is not found. */
  lemma WorkloadNeedsAnswer(w: World, rs: Replies, name: string)
    ensures var found, ss, dep := GetWorkload(w, rs, name).1, Key(StatefulSet, name), Key(PlainDeployment, name);
            && (found == Some(ss) <==> ss in w.workloads && Next(rs).Done?)
            && (found == Some(dep) <==>
                  dep in w.workloads && Next(Rest(rs)).Done? && !(ss in w.workloads && Next(rs).Done?))
            && (found == None || found == Some(ss) || found == Some(dep))
  {}

  // ---------- who is responsible for which artefact ----------

  /** The user budget that guards the workload a name resolves to. */
  ghost function GuardOf(w: World, name: string): Option<nat> {
    var key := Resolve(w, name);
    if key.None? then None else FindUserPdb(w.pdbs, w.workloads[key.value])
  }

  /** Every locked user budget guards one of `names`; every own budget belongs to an unguarded one. */
  ghost predicate LocksOf(w0: World, k: Locks, names: set<string>) {
    && GoodLocks(k, names)
    && (forall u :: u in k.users ==> exists n :: n in names && GuardedBy(w0, n, u))
    && (forall i :: 0 <= i < |k.own| ==> Resolve(w0, k.own[i].name).Some? && GuardOf(w0, k.own[i].name).None?)
  }

  ghost predicate GuardedBy(w0: World, name: string, pdb: string) {
    var i := GuardOf(w0, name);
    i.Some? && i.value < |w0.pdbs| && w0.pdbs[i.value].name == pdb
  }

  predicate SameOrTolerated(a: Workload, b: Workload) {
    b == a || b == a.(tolerations := a.tolerations + [UPGRADE_TOLERATION])
  }

  ghost predicate WorkloadsOf(w0: World, w: World, names: set<string>) {
    && w.workloads.Keys == w0.workloads.Keys
    && forall key :: key in w0.workloads ==>
         if key.name in names && Resolve(w0, key.name) == Some(key)
         then SameOrTolerated(w0.workloads[key], w.workloads[key])
         else w.workloads[key] == w0.workloads[key]
  }

  /** The labels are as they were, or have the node's own version in the operator's label. */
  predicate SameOrLabelled(a: Node, labels: Labels) {
    labels == a.labels || labels == a.labels[NODE_LABEL := a.kubeletVersion]
  }

  /** Same node apart from an appended upgrade taint and its version in the label. */
  ghost predicate NodeClose(a: Node, b: Node) {
    && b == a.(taints := b.taints, labels := b.labels)
    && (b.taints == a.taints || b.taints == a.taints + [UPGRADE_TAINT])
    && SameOrLabelled(a, b.labels)
  }

  ghost predicate NodesClose(a: seq<Node>, b: seq<Node>) {
    |a| == |b| && forall i :: 0 <= i < |a| ==> NodeClose(a[i], b[i])
  }

  /** `w` is `w0` plus artefacts that `names` account for. */
  ghost predicate Upgraded(w0: World, w: World, k: Locks, names: set<string>) {
    && w == w0.(pdbs := View(w0.pdbs, k), nodes := w.nodes, workloads := w.workloads)
    && LocksOf(w0, k, names)
    && WorkloadsOf(w0, w, names)
    && NodesClose(w0.nodes, w.nodes)
  }

  // ---------- one budget call ----------

  function IntentOf(w: World, key: Key, allow: bool): Intent
    requires key in w.workloads
  {
    if allow then UnblockIntent(w.pdbs, key.name, w.workloads[key])
    else BlockIntent(w.pdbs, key.name, w.workloads[key])
  }

  lemma ReconcilePdbOutcome(w: World, rs: Replies, key: Key, allow: bool)
    requires key in w.workloads
    ensures var out := ReconcilePdb(w, rs, key, allow);
            && (out.w == w || out.w == w.(pdbs := CarriedOut(IntentOf(w, key, allow), w.pdbs)))
            && (out.ok ==> out.w == w.(pdbs := CarriedOut(IntentOf(w, key, allow), w.pdbs)))
            && (out.ok ==> Next(rs).Done? && Next(Rest(rs)).Done?)
            && (out.ok && IntentOf(w, key, allow).Write? ==> Next(Rest(Rest(rs))).Done?)
            && (out.w != w ==> Next(rs).Done? && Next(Rest(rs)).Done? && Applied(Next(Rest(Rest(rs)))))
            && (rs == [] ==> out.rs == [] && (out.ok <==> IntentOf(w, key, allow) != BadAnnotation))
  {}

  function LocksAfter(w0: World, k: Locks, key: Key, allow: bool): Locks
    requires key in w0.workloads
  {
    if allow then Unblock(w0.pdbs, k, key.name, w0.workloads[key]) else Block(w0.pdbs, k, key.name, w0.workloads[key])
  }

  /** Labels and selector decide a budget call, not tolerations. */
  lemma TolerationsDoNotMatter(pdbs: seq<Pdb>, name: string, a: Workload, b: Workload)
    requires a.labels == b.labels && a.selector == b.selector
    ensures FindUserPdb(pdbs, b) == FindUserPdb(pdbs, a)
    ensures UnblockIntent(pdbs, name, b) == UnblockIntent(pdbs, name, a)
    ensures BlockIntent(pdbs, name, b) == BlockIntent(pdbs, name, a)
  {
  }

  lemma CallOnUpgraded(w0: World, w: World, k: Locks, names: set<string>, key: Key, allow: bool)
    requires Upgraded(w0, w, k, names) && CleanPdbs(w0.pdbs, names)
    requires key.name in names && Resolve(w0, key.name) == Some(key)
    ensures IntentOf(w, key, allow) != BadAnnotation
    ensures Upgraded(w0, w.(pdbs := CarriedOut(IntentOf(w, key, allow), w.pdbs)), LocksAfter(w0, k, key, allow), names)
  {
    TolerationsDoNotMatter(w.pdbs, key.name, w0.workloads[key], w.workloads[key]);
    LocksStayAttributed(w0, k, names, key, allow);
    if allow {
      UnblockActsOnLocks(w0.pdbs, k, names, key.name, w0.workloads[key]);
    } else {
      BlockActsOnLocks(w0.pdbs, k, names, key.name, w0.workloads[key]);
    }
    hide View, CleanPdbs, LocksOf, GoodLocks, BlockIntent, UnblockIntent, Block, Unblock;
  }

  lemma LocksStayAttributed(w0: World, k: Locks, names: set<string>, key: Key, allow: bool)
    requires LocksOf(w0, k, names) && key.name in names && Resolve(w0, key.name) == Some(key)
    ensures LocksOf(w0, LocksAfter(w0, k, key, allow), names)
  {
    hide FindUserPdb, OwnIndex;
    var after := LocksAfter(w0, k, key, allow);
    if allow {
      UnblockKeepsGood(w0.pdbs, k, names, key.name, w0.workloads[key]);
    } else {
      BlockKeepsGood(w0.pdbs, k, names, key.name, w0.workloads[key]);
    }
    forall u | u in after.users ensures exists n :: n in names && GuardedBy(w0, n, u) {
      if u !in k.users {
        assert GuardedBy(w0, key.name, u);
      }
    }
  }

  // ---------- any sequence of operations ----------

  datatype Operation =
    | Budget(name: string, allowDisruption: bool)
    | Prepare(target: string)
    | Tolerate(name: string)

  predicate Concerns(op: Operation, names: set<string>) {
    match op
    case Budget(n, _) => n in names
    case Tolerate(n) => n in names
    case Prepare(_) => true
  }

  /** One operation; `rs` are the outcomes of its API calls. */
  function Perform(w: World, op: Operation, rs: Replies): World {
    match op
    case Budget(name, allow) =>
      var (rs, key) := GetWorkload(w, rs, name);
      if key.None? then w else ReconcilePdb(w, rs, key.value, allow).w
    case Prepare(target) => PrepareNodes(w, rs, target).w
    case Tolerate(name) => AddToleration(w, rs, name).w
  }

  function PerformAll(w: World, ops: seq<(Operation, Replies)>): World
    decreases ops
  {
    if ops == [] then w
    else PerformAll(Perform(w, ops[0].0, ops[0].1), ops[1..])
  }

  lemma {:induction false} PrepareKeepsClose(w0: World, w: World, rs: Replies, target: string, i: nat)
    requires NodesClose(w0.nodes, w.nodes) && i <= |w.nodes|
    requires NoTaints(w0.nodes)
    ensures var out := PrepareFrom(w, rs, target, i);
            out.w == w.(nodes := out.w.nodes) && NodesClose(w0.nodes, out.w.nodes)
    decreases |w.nodes| - i
  {
    if i < |w.nodes| {
      if w.nodes[i].kubeletVersion != target {
        PrepareKeepsClose(w0, w, rs, target, i+1);
      } else {
        var w' := if Applied(Next(rs)) then w.(nodes := w.nodes[i := Prepared(w.nodes[i], target)]) else w;
        assert NodeClose(w0.nodes[i], Prepared(w.nodes[i], target)) by {
          PreparedIsClose(w0.nodes[i], w.nodes[i]);
        }
        PrepareKeepsClose(w0, w', Rest(rs), target, i+1);
      }
    }
  }

  lemma PreparedIsClose(a: Node, b: Node)
    requires NodeClose(a, b) && forall t :: t in a.taints ==> t.key != TAINT_KEY
    ensures NodeClose(a, Prepared(b, b.kubeletVersion))
  {
    if b.taints != a.taints {
      assert b.taints[|b.taints|-1] == UPGRADE_TAINT;
      assert HasUpgradeTaint(b);
    }
  }

  lemma PerformStaysUpgraded(w0: World, w: World, k: Locks, names: set<string>, op: Operation, rs: Replies)
    returns (k': Locks)
    requires CleanCluster(w0, names) && OneKind(w0, names) && Upgraded(w0, w, k, names) && Concerns(op, names)
    ensures Upgraded(w0, Perform(w, op, rs), k', names)
  {
    k' := k;
    match op
    case Budget(name, allow) =>
      GetWorkloadResolves(w, rs, names, name);
      var (rs1, key) := GetWorkload(w, rs, name);
      if key.Some? {
        assert Resolve(w, name) == Resolve(w0, name);
        ReconcilePdbOutcome(w, rs1, key.value, allow);
        CallOnUpgraded(w0, w, k, names, key.value, allow);
        if Perform(w, op, rs) != w {
          k' := LocksAfter(w0, k, key.value, allow);
        }
      }
    case Prepare(target) =>
      if Next(rs).Done? {
        PrepareKeepsClose(w0, w, Rest(rs), target, 0);
      }
    case Tolerate(name) =>
      GetWorkloadResolves(w, rs, names, name);
      var (rs1, key) := GetWorkload(w, rs, name);
      if key.Some? {
        assert Resolve(w, name) == Resolve(w0, name);
        var ts := w.workloads[key.value].tolerations;
        assert ts != w0.workloads[key.value].tolerations ==> UPGRADE_TOLERATION in ts;
      }
  }

  lemma {:induction false} PerformAllStaysUpgraded(
    w0: World, w: World, k: Locks, names: set<string>, ops: seq<(Operation, Replies)>) returns (k': Locks)
    requires CleanCluster(w0, names) && OneKind(w0, names) && Upgraded(w0, w, k, names)
    requires forall o :: o in ops ==> Concerns(o.0, names)
    ensures Upgraded(w0, PerformAll(w, ops), k', names)
    decreases ops
  {
    k' := k;
    if ops != [] {
      var k1 := PerformStaysUpgraded(w0, w, k, names, ops[0].0, ops[0].1);
      k' := PerformAllStaysUpgraded(w0, Perform(w, ops[0].0, ops[0].1), k1, names, ops[1..]);
    }
  }

  // ---------- cleanup ----------

  lemma StripNothing()
    ensures StripTaints([]) == [] && StripTolerations([]) == []
  {}

  lemma StripLast(ts: seq<Taint>, t: Taint)
    ensures StripTaints(ts + [t]) == StripTaints(ts) + if t.key == TAINT_KEY then [] else [t]
  {
    assert (ts + [t])[..|ts|] == ts;
  }

  lemma StripLastToleration(ts: seq<Toleration>, t: Toleration)
    ensures StripTolerations(ts + [t]) == StripTolerations(ts) + if t.key == TAINT_KEY then [] else [t]
  {
    assert (ts + [t])[..|ts|] == ts;
  }

  lemma {:induction false} StripKeepsPrefix(ts: seq<Taint>, n: nat)
    requires n <= |ts| && forall i :: 0 <= i < n ==> ts[i].key != TAINT_KEY
    ensures StripTaints(ts[..n]) == ts[..n]
  {
    hide StripTaints;
    if n == 0 {
      StripNothing();
    } else {
      StripKeepsPrefix(ts, n-1);
      StripLast(ts[..n-1], ts[n-1]);
      assert ts[..n] == ts[..n-1] + [ts[n-1]];
    }
  }

  lemma StripKeepsForeign(ts: seq<Taint>)
    requires forall t :: t in ts ==> t.key != TAINT_KEY
    ensures StripTaints(ts) == ts
  {
    StripKeepsPrefix(ts, |ts|);
    assert ts[..|ts|] == ts;
  }

  lemma StripDropsOwn(ts: seq<Taint>)
    requires forall t :: t in ts ==> t.key != TAINT_KEY
    ensures StripTaints(ts + [UPGRADE_TAINT]) == ts
  {
    StripKeepsForeign(ts);
    StripLast(ts, UPGRADE_TAINT);
  }

  lemma {:induction false} StripKeepsTolerationPrefix(ts: seq<Toleration>, n: nat)
    requires n <= |ts| && forall i :: 0 <= i < n ==> ts[i].key != TAINT_KEY
    ensures StripTolerations(ts[..n]) == ts[..n]
  {
    hide StripTolerations;
    if n == 0 {
      StripNothing();
    } else {
      StripKeepsTolerationPrefix(ts, n-1);
      StripLastToleration(ts[..n-1], ts[n-1]);
      assert ts[..n] == ts[..n-1] + [ts[n-1]];
    }
  }

  lemma StripKeepsForeignTolerations(ts: seq<Toleration>)
    requires NoTolerations(ts)
    ensures StripTolerations(ts) == ts
  {
    StripKeepsTolerationPrefix(ts, |ts|);
    assert ts[..|ts|] == ts;
  }

  lemma StripDropsOwnToleration(ts: seq<Toleration>)
    requires NoTolerations(ts)
    ensures StripTolerations(ts + [UPGRADE_TOLERATION]) == ts
  {
    StripKeepsForeignTolerations(ts);
    StripLastToleration(ts, UPGRADE_TOLERATION);
  }

  /** Same node apart from the version label. */
  ghost predicate NodesRestored(a: seq<Node>, b: seq<Node>, upTo: nat) {
    && NodesClose(a, b)
    && forall i :: 0 <= i < |a| && i < upTo ==> b[i].taints == a[i].taints
  }

  /** What one round of the node loop leaves behind. */
  function Untainted(n: Node): Node {
    if forall t :: t in n.taints ==> t.key != TAINT_KEY then n else n.(taints := StripTaints(n.taints))
  }

  lemma UntaintedIsRestored(a: Node, n: Node)
    requires NodeClose(a, n) && forall t :: t in a.taints ==> t.key != TAINT_KEY
    ensures NodeClose(a, Untainted(n)) && Untainted(n).taints == a.taints
  {
    StripDropsOwn(a.taints);
    if n.taints == a.taints + [UPGRADE_TAINT] {
      assert UPGRADE_TAINT in n.taints;
    }
  }

  lemma RestoredStep(a: seq<Node>, b: seq<Node>, i: nat)
    requires NodesRestored(a, b, i) && i < |b| && NoTaints(a)
    ensures NodesRestored(a, b[i := Untainted(b[i])], i+1)
  {
    hide Untainted, NodeClose;
    UntaintedIsRestored(a[i], b[i]);
  }

  lemma {:induction false} UntaintRestores(w0: World, w: World, i: nat)
    requires NodesRestored(w0.nodes, w.nodes, i) && i <= |w.nodes| && NoTaints(w0.nodes)
    ensures var (w', rs) := UntaintFrom(w, [], i);
            rs == [] && w' == w.(nodes := w'.nodes) && NodesRestored(w0.nodes, w'.nodes, |w0.nodes|)
    decreases |w.nodes| - i
  {
    assert |w0.nodes| == |w.nodes|;
    hide StripTaints, NodeClose, NodesClose, NoTaints;
    if i < |w.nodes| {
      RestoredStep(w0.nodes, w.nodes, i);
      var w' := w.(nodes := w.nodes[i := Untainted(w.nodes[i])]);
      assert Untainted(w.nodes[i]) == w.nodes[i] ==> w' == w;
      hide NodesRestored;
      UntaintRestores(w0, w', i+1);
    }
  }

  /** Once a name has been cleaned up it accounts for nothing any more. */
  lemma LocksWithout(w0: World, k: Locks, names: set<string>, n: string)
    requires LocksOf(w0, k, names)
    ensures Resolve(w0, n).None? ==> LocksOf(w0, k, names - {n})
    ensures Resolve(w0, n).Some? ==> LocksOf(w0, LocksAfter(w0, k, Resolve(w0, n).value, true), names - {n})
  {
    hide FindUserPdb, OwnIndex;
    var key := Resolve(w0, n);
    var after := if key.None? then k else LocksAfter(w0, k, key.value, true);
    forall u | u in after.users ensures exists m :: m in names - {n} && GuardedBy(w0, m, u) {
      var m :| m in names && GuardedBy(w0, m, u);
      assert m != n;
    }
    if key.Some? {
      UnblockKeepsGood(w0.pdbs, k, names, n, w0.workloads[key.value]);
    }
  }

  lemma UpgradedGrows(w0: World, w: World, k: Locks, names: set<string>, all: set<string>)
    requires Upgraded(w0, w, k, names) && names <= all
    ensures Upgraded(w0, w, k, all)
  {
    forall u | u in k.users ensures exists n :: n in all && GuardedBy(w0, n, u) {
      var n :| n in names && GuardedBy(w0, n, u);
    }
  }

  lemma TolerationsCleared(w0: World, w: World, names: set<string>, key: Key)
    requires WorkloadsOf(w0, w, names) && key in w0.workloads && Resolve(w0, key.name) == Some(key)
    requires NoTolerations(w0.workloads[key].tolerations)
    ensures var ts := w.workloads[key].tolerations;
            && WorkloadsOf(w0, WithTolerations(w, key, StripTolerations(ts)), names - {key.name})
            && (NoTolerations(ts) ==> WorkloadsOf(w0, w, names - {key.name}))
  {
    hide StripTolerations;
    var was, ts := w0.workloads[key].tolerations, w.workloads[key].tolerations;
    StripKeepsForeignTolerations(was);
    StripDropsOwnToleration(was);
    if ts != was {
      assert UPGRADE_TOLERATION in ts;
    }
  }

  /** Cleanup fails, and then has done nothing, exactly if the nodes cannot be listed. */
  lemma CleanupNeedsNodeList(w: World, rs: Replies, plan: Plan)
    ensures Cleanup(w, rs, plan).ok <==> Next(rs).Done?
    ensures !Next(rs).Done? ==> Cleanup(w, rs, plan).w == w
  {}

  /** Tolerations are stripped whether or not the budget could be unblocked just before. */
  lemma StrippedEvenIfBlocked(w: World, rs: Replies, e: Deployment)
    ensures var (rs1, key) := GetWorkload(w, rs, e.name);
            var w' := CleanupEntry(w, rs, e).0;
            && (key.None? ==> w' == w)
            && (key.Some? ==>
                  var out := ReconcilePdb(w, rs1, key.value, true);
                  && w'.pdbs == out.w.pdbs
                  && (Applied(Next(out.rs)) ==> NoTolerations(w'.workloads[key.value].tolerations)))
  {
    hide ReconcilePdb, StripTolerations;
    var (rs1, key) := GetWorkload(w, rs, e.name);
    if key.Some? {
      StrippedIsClean(w.workloads[key.value].tolerations);
    }
  }

  lemma {:induction false} StrippedIsClean(ts: seq<Toleration>)
    ensures NoTolerations(StripTolerations(ts))
  {
    if ts != [] {
      StrippedIsClean(ts[..|ts|-1]);
    }
  }

  /** `names` are still to be cleaned up, `all` is the whole plan. */
  lemma CleanupEntryClears(w0: World, w: World, k: Locks, names: set<string>, all: set<string>, e: Deployment)
    returns (k': Locks)
    requires CleanCluster(w0, all) && Upgraded(w0, w, k, names) && names <= all && e.name in all
    ensures var (w', rs) := CleanupEntry(w, [], e);
            rs == [] && Upgraded(w0, w', k', names - {e.name}) && w'.nodes == w.nodes
  {
    hide View, CleanPdbs, LocksOf, UnblockIntent, Unblock, NodesClose;
    var n := e.name;
    k' := k;
    GetWorkloadResolves(w, [], all, n);
    assert Resolve(w, n) == Resolve(w0, n);
    LocksWithout(w0, k, names, n);
    UpgradedGrows(w0, w, k, names, all);
    var key := Resolve(w0, n);
    if key.Some? {
      ReconcilePdbOutcome(w, [], key.value, true);
      CallOnUpgraded(w0, w, k, all, key.value, true);
      k' := LocksAfter(w0, k, key.value, true);
      var cleared := w.(pdbs := View(w0.pdbs, k'));
      TolerationsCleared(w0, cleared, names, key.value);
    }
  }

  lemma {:induction false} CleanupAllClears(
    w0: World, w: World, k: Locks, names: set<string>, all: set<string>, plan: Plan)
    returns (k': Locks)
    requires CleanCluster(w0, all) && Upgraded(w0, w, k, names) && names <= Names(plan) <= all
    ensures var (w', rs) := CleanupAll(w, [], plan);
            Upgraded(w0, w', k', {}) && w'.nodes == w.nodes && rs == []
    decreases plan
  {
    k' := k;
    if plan == [] {
      assert names == {};
    } else {
      var e := plan[0];
      assert plan == [e] + plan[1..];
      assert Names(plan) == {e.name} + Names(plan[1..]);
      var k1 := CleanupEntryClears(w0, w, k, names, all, e);
      hide Upgraded, CleanCluster;
      k' := CleanupAllClears(w0, CleanupEntry(w, [], e).0, k1, names - {e.name}, all, plan[1..]);
    }
  }

  lemma OwnBudgetHasName(k: Locks, names: set<string>)
    requires GoodLocks(k, names) && |k.own| > 0
    ensures names != {}
  {
    assert k.own[0].name in names;
  }

  /** Nothing is left when nobody accounts for anything. */
  lemma NothingLeft(w0: World, w: World, k: Locks, names: set<string>)
    requires Upgraded(w0, w, k, names) && names == {}
    ensures w.pdbs == w0.pdbs && w.workloads == w0.workloads
  {
    assert k.users == {};
    if |k.own| > 0 {
      OwnBudgetHasName(k, names);
    }
    assert View(w0.pdbs, k) == w0.pdbs;
    assert forall key :: key in w0.workloads ==> w.workloads[key] == w0.workloads[key];
  }

  lemma UntouchedIsUpgraded(w0: World, names: set<string>)
    ensures Upgraded(w0, w0, NO_LOCKS, names)
  {
    assert View(w0.pdbs, NO_LOCKS) == w0.pdbs;
  }

  /** The same cluster again, except that a node may have kept its version in the operator's label. */
  ghost predicate SameButLabel(a: World, b: World) {
    && b == a.(nodes := b.nodes)
    && |b.nodes| == |a.nodes|
    && forall i :: 0 <= i < |a.nodes| ==>
         b.nodes[i] == a.nodes[i].(labels := b.nodes[i].labels) && SameOrLabelled(a.nodes[i], b.nodes[i].labels)
  }

  /** These operations followed by one cleanup without failing calls change nothing. */
  ghost predicate Undone(w0: World, plan: Plan, ops: seq<(Operation, Replies)>) {
    var out := Cleanup(PerformAll(w0, ops), [], plan);
    out.ok && SameButLabel(w0, out.w)
  }

  ghost predicate AllConcern(ops: seq<(Operation, Replies)>, names: set<string>) {
    forall o :: o in ops ==> Concerns(o.0, names)
  }

  lemma CleanupUndoesUpgrade(w0: World, plan: Plan, ops: seq<(Operation, Replies)>)
    requires CleanCluster(w0, Names(plan)) && OneKind(w0, Names(plan)) && AllConcern(ops, Names(plan))
    ensures Undone(w0, plan, ops)
  {
    var names := Names(plan);
    UntouchedIsUpgraded(w0, names);
    var k := PerformAllStaysUpgraded(w0, w0, NO_LOCKS, names, ops);
    var w := PerformAll(w0, ops);
    UntaintRestores(w0, w, 0);
    var w1 := UntaintFrom(w, [], 0).0;
    assert Upgraded(w0, w1, k, names);
    var k' := CleanupAllClears(w0, w1, k, names, names, plan);
    NothingLeft(w0, CleanupAll(w1, [], plan).0, k', {});
  }

  /** Cleanup never looks at a Deployment that a StatefulSet of the same name hides. */
  lemma {:induction false} HiddenDeploymentIsSpared(w: World, plan: Plan, n: string)
    requires Key(StatefulSet, n) in w.workloads && Key(PlainDeployment, n) in w.workloads
    ensures var w' := CleanupAll(w, [], plan).0;
            && Key(PlainDeployment, n) in w'.workloads
            && w'.workloads[Key(PlainDeployment, n)] == w.workloads[Key(PlainDeployment, n)]
    decreases plan
  {
    if plan != [] {
      GetWorkloadResolves(w, [], {}, plan[0].name);
      var key := Resolve(w, plan[0].name);
      if key.Some? {
        ReconcilePdbOutcome(w, [], key.value, true);
      }
      hide ReconcilePdb, IntentOf, StripTolerations;
      HiddenDeploymentIsSpared(CleanupEntry(w, [], plan[0]).0, plan[1..], n);
    }
  }

  lemma {:induction false} UntaintKeepsWorkloads(w: World, rs: Replies, i: nat)
    requires i <= |w.nodes|
    ensures UntaintFrom(w, rs, i).0.workloads == w.workloads && (rs == [] ==> UntaintFrom(w, rs, i).1 == [])
    decreases |w.nodes| - i
  {
    if i < |w.nodes| {
      var n := w.nodes[i];
      if forall t :: t in n.taints ==> t.key != TAINT_KEY {
        UntaintKeepsWorkloads(w, rs, i+1);
      } else {
        var w' := if Applied(Next(rs)) then w.(nodes := w.nodes[i := n.(taints := StripTaints(n.taints))]) else w;
        UntaintKeepsWorkloads(w', Rest(rs), i+1);
      }
    }
  }

  /** One failed read of the StatefulSet puts the toleration on the Deployment, where it stays. */
  lemma HiddenDeploymentKeepsToleration(w0: World, plan: Plan, n: string)
    requires CleanCluster(w0, Names(plan)) && n in Names(plan)
    requires Key(StatefulSet, n) in w0.workloads && Key(PlainDeployment, n) in w0.workloads
    ensures !Undone(w0, plan, [(Tolerate(n), [Refused])])
  {
    var ops, key := [(Tolerate(n), [Refused])], Key(PlainDeployment, n);
    var w := AddToleration(w0, [Refused], n).w;
    assert ops[1..] == [] && PerformAll(w0, ops) == w;
    assert UPGRADE_TOLERATION !in w0.workloads[key].tolerations;
    assert w.workloads[key] != w0.workloads[key];
    UntaintKeepsWorkloads(w, [], 0);
    HiddenDeploymentIsSpared(UntaintFrom(w, [], 0).0, plan, n);
    hide AddToleration, PerformAll, UntaintFrom, CleanupAll, CleanCluster;
  }

  /**
   Main result: on a cluster without upgrade artefacts, any operations on planned workloads
   and any nodes, however their calls fail, are undone by one cleanup without failing calls,
   exactly when no planned name is both a StatefulSet and a Deployment.
   */
  lemma EveryUpgradeIsUndoneIff(w0: World, plan: Plan)
    requires CleanCluster(w0, Names(plan))
    ensures (forall ops :: AllConcern(ops, Names(plan)) ==> Undone(w0, plan, ops)) <==> OneKind(w0, Names(plan))
  {
    hide CleanCluster, Undone;
    if OneKind(w0, Names(plan)) {
      forall ops | AllConcern(ops, Names(plan)) ensures Undone(w0, plan, ops) {
        CleanupUndoesUpgrade(w0, plan, ops);
      }
    } else {
      var n :| n in Names(plan) && Key(StatefulSet, n) in w0.workloads && Key(PlainDeployment, n) in w0.workloads;
      HiddenDeploymentKeepsToleration(w0, plan, n);
      assert AllConcern([(Tolerate(n), [Refused])], Names(plan));
    }
  }

  // ---------- the version label ----------

  /** The node already carries its own version in the operator's label. */
  predicate Labelled(n: Node) {
    NODE_LABEL in n.labels && n.labels[NODE_LABEL] == n.kubeletVersion
  }

  /** The node's labels after these operations and one cleanup without failing calls. */
  ghost predicate LabelsBack(w0: World, plan: Plan, ops: seq<(Operation, Replies)>, i: nat)
    requires i < |w0.nodes|
  {
    var nodes := Cleanup(PerformAll(w0, ops), [], plan).w.nodes;
    i < |nodes| && nodes[i].labels == w0.nodes[i].labels
  }

  /** Nodes are prepared for these versions only. */
  ghost predicate TargetsIn(ops: seq<(Operation, Replies)>, targets: set<string>) {
    forall o :: o in ops && o.0.Prepare? ==> o.0.target in targets
  }

  /** Preparing, however its calls fail, touches the nodes of the target version at most. */
  lemma {:induction false} PrepareSparesOthers(w: World, rs: Replies, target: string, j: nat, i: nat)
    requires j <= |w.nodes| && i < |w.nodes|
    ensures var nodes := PrepareFrom(w, rs, target, j).w.nodes;
            && |nodes| == |w.nodes| && nodes[i].kubeletVersion == w.nodes[i].kubeletVersion
            && (w.nodes[i].kubeletVersion != target ==> nodes[i] == w.nodes[i])
            && SameOrLabelled(w.nodes[i], nodes[i].labels)
    decreases |w.nodes| - j
  {
    if j < |w.nodes| {
      if w.nodes[j].kubeletVersion != target {
        PrepareSparesOthers(w, rs, target, j+1, i);
      } else {
        var w' := if Applied(Next(rs)) then w.(nodes := w.nodes[j := Prepared(w.nodes[j], target)]) else w;
        PrepareSparesOthers(w', Rest(rs), target, j+1, i);
      }
    }
  }

  /** On any cluster, whatever its calls answer, a sequence labels nodes of its targets at most. */
  lemma {:induction false} LabelsAfterOperations(w: World, ops: seq<(Operation, Replies)>, targets: set<string>, i: nat)
    requires TargetsIn(ops, targets) && i < |w.nodes|
    ensures var nodes := PerformAll(w, ops).nodes;
            && |nodes| == |w.nodes| && nodes[i].kubeletVersion == w.nodes[i].kubeletVersion
            && (w.nodes[i].kubeletVersion !in targets ==> nodes[i] == w.nodes[i])
            && SameOrLabelled(w.nodes[i], nodes[i].labels)
    decreases ops
  {
    if ops != [] {
      assert ops[0] in ops;
      var (op, rs) := ops[0];
      if op.Prepare? && Next(rs).Done? {
        PrepareSparesOthers(w, Rest(rs), op.target, 0, i);
      }
      var w' := Perform(w, op, rs);
      assert !op.Prepare? ==> w'.nodes == w.nodes;
      hide Perform, Labelled;
      LabelsAfterOperations(w', ops[1..], targets, i);
    }
  }

  lemma CleanupKeepsLabels(w: World, plan: Plan)
    ensures var nodes := Cleanup(w, [], plan).w.nodes;
            |nodes| == |w.nodes| && forall i :: 0 <= i < |nodes| ==> nodes[i].labels == w.nodes[i].labels
  {
    UntaintKeepsLabels(w, [], 0);
    var (w1, rs) := UntaintFrom(w, [], 0);
    CleanupAllKeepsNodes(w1, rs, plan);
    hide UntaintFrom, CleanupAll;
  }

  /** One preparation and one cleanup leave the version in the label of every node of that version. */
  lemma LabelSurvivesCleanup(w0: World, plan: Plan, target: string, i: nat)
    requires i < |w0.nodes| && w0.nodes[i].kubeletVersion == target
    ensures var nodes := Cleanup(PerformAll(w0, [(Prepare(target), [])]), [], plan).w.nodes;
            i < |nodes| && nodes[i].labels == w0.nodes[i].labels[NODE_LABEL := target]
  {
    var ops: seq<(Operation, Replies)> := [(Prepare(target), [])];
    var w := PrepareNodes(w0, [], target).w;
    assert ops[1..] == [] && PerformAll(w0, ops) == PerformAll(Perform(w0, Prepare(target), []), []) == w;
    PrepareLabels(w0, target, 0, i);
    PrepareSparesOthers(w0, [], target, 0, i);
    CleanupKeepsLabels(w, plan);
    hide PrepareFrom, Cleanup, PerformAll;
  }

  /**
   Main result: which nodes get their labels back. Over all sequences that prepare nodes for
   `targets`, with any failing calls, a node always does exactly when its version is none of
   them or was in its label before.
   */
  lemma LabelsComeBackIff(w0: World, plan: Plan, targets: set<string>, i: nat)
    requires i < |w0.nodes|
    ensures (forall ops :: AllConcern(ops, Names(plan)) && TargetsIn(ops, targets) ==> LabelsBack(w0, plan, ops, i))
       <==> w0.nodes[i].kubeletVersion !in targets || Labelled(w0.nodes[i])
  {
    var n := w0.nodes[i];
    hide Cleanup, PerformAll;
    if n.kubeletVersion !in targets || Labelled(n) {
      forall ops | AllConcern(ops, Names(plan)) && TargetsIn(ops, targets) ensures LabelsBack(w0, plan, ops, i) {
        LabelsAfterOperations(w0, ops, targets, i);
        CleanupKeepsLabels(PerformAll(w0, ops), plan);
      }
    } else {
      var ops: seq<(Operation, Replies)> := [(Prepare(n.kubeletVersion), [])];
      LabelSurvivesCleanup(w0, plan, n.kubeletVersion, i);
      assert !LabelsBack(w0, plan, ops, i);
      assert AllConcern(ops, Names(plan)) && TargetsIn(ops, targets);
    }
  }

  /** These operations followed by one cleanup without failing calls leave no trace at all. */
  ghost predicate Traceless(w0: World, plan: Plan, ops: seq<(Operation, Replies)>) {
    var out := Cleanup(PerformAll(w0, ops), [], plan);
    out.ok && out.w == w0
  }

  lemma TracelessIff(w0: World, plan: Plan, ops: seq<(Operation, Replies)>)
    ensures Traceless(w0, plan, ops)
       <==> Undone(w0, plan, ops) && forall i :: 0 <= i < |w0.nodes| ==> LabelsBack(w0, plan, ops, i)
  {
    hide Cleanup, PerformAll;
    var nodes := Cleanup(PerformAll(w0, ops), [], plan).w.nodes;
    if Undone(w0, plan, ops) && forall i :: 0 <= i < |w0.nodes| ==> LabelsBack(w0, plan, ops, i) {
      forall i | 0 <= i < |nodes| ensures nodes[i] == w0.nodes[i] {
        assert LabelsBack(w0, plan, ops, i);
      }
    }
  }

  /**
   Main result: on a cluster without upgrade artefacts every sequence of operations, however
   its calls fail, is undone without any trace exactly when no planned name is both a
   StatefulSet and a Deployment and every node carried its own version as label beforehand.
   */
  lemma EveryUpgradeIsTracelessIff(w0: World, plan: Plan)
    requires CleanCluster(w0, Names(plan))
    ensures (forall ops :: AllConcern(ops, Names(plan)) ==> Traceless(w0, plan, ops))
       <==> OneKind(w0, Names(plan)) && forall n :: n in w0.nodes ==> Labelled(n)
  {
    EveryUpgradeIsUndoneIff(w0, plan);
    hide CleanCluster, OneKind, Undone, Traceless, LabelsBack, Labelled;
    var names, every := Names(plan), set n | n in w0.nodes :: n.kubeletVersion;
    forall ops ensures TargetsIn(ops, AllTargets(ops)) {}
    if OneKind(w0, names) && forall n :: n in w0.nodes ==> Labelled(n) {
      forall ops | AllConcern(ops, names) ensures Traceless(w0, plan, ops) {
        TracelessIff(w0, plan, ops);
        forall i | 0 <= i < |w0.nodes| ensures LabelsBack(w0, plan, ops, i) {
          LabelsComeBackIff(w0, plan, AllTargets(ops), i);
        }
      }
    }
    if forall ops :: AllConcern(ops, names) ==> Traceless(w0, plan, ops) {
      forall ops | AllConcern(ops, names)
        ensures Undone(w0, plan, ops) && forall i :: 0 <= i < |w0.nodes| ==> LabelsBack(w0, plan, ops, i)
      {
        TracelessIff(w0, plan, ops);
      }
      forall i | 0 <= i < |w0.nodes| ensures Labelled(w0.nodes[i]) {
        LabelsComeBackIff(w0, plan, every, i);
      }
    }
  }

  ghost function AllTargets(ops: seq<(Operation, Replies)>): set<string> {
    set o | o in ops && o.0.Prepare? :: o.0.target
  }

  lemma {:induction false} PrepareLabels(w: World, target: string, j: nat, i: nat)
    requires j <= |w.nodes| && i < |w.nodes| && w.nodes[i].kubeletVersion == target
    requires i < j ==> Labelled(w.nodes[i])
    ensures var nodes := PrepareFrom(w, [], target, j).w.nodes;
            i < |nodes| && NODE_LABEL in nodes[i].labels && nodes[i].labels[NODE_LABEL] == target
    decreases |w.nodes| - j
  {
    if j < |w.nodes| {
      if w.nodes[j].kubeletVersion != target {
        PrepareLabels(w, target, j+1, i);
      } else {
        PrepareLabels(w.(nodes := w.nodes[j := Prepared(w.nodes[j], target)]), target, j+1, i);
      }
    }
  }

  lemma {:induction false} UntaintKeepsLabels(w: World, rs: Replies, i: nat)
    requires i <= |w.nodes|
    ensures var n := UntaintFrom(w, rs, i).0.nodes;
            |n| == |w.nodes| && forall j :: 0 <= j < |n| ==> n[j].labels == w.nodes[j].labels
    decreases |w.nodes| - i
  {
    if i < |w.nodes| {
      var n := w.nodes[i];
      if forall t :: t in n.taints ==> t.key != TAINT_KEY {
        UntaintKeepsLabels(w, rs, i+1);
      } else {
        var w' := if Applied(Next(rs)) then w.(nodes := w.nodes[i := n.(taints := StripTaints(n.taints))]) else w;
        UntaintKeepsLabels(w', Rest(rs), i+1);
      }
    }
  }

  lemma {:induction false} CleanupAllKeepsNodes(w: World, rs: Replies, plan: Plan)
    ensures CleanupAll(w, rs, plan).0.nodes == w.nodes
    decreases plan
  {
    if plan != [] {
      var (w', rs') := CleanupEntry(w, rs, plan[0]);
      CleanupAllKeepsNodes(w', rs', plan[1..]);
    }
  }
}
