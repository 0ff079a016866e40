/**
 What a single pass in state UpgradeInProgress can and must do, for every outcome of its API
 calls. The run results of module LiveRuns rest on these facts only.
 */
module LivePass {
  import opened Common
  import opened Api
  import opened DependencyGraph
  import opened SemVer
  import opened LiveModel
  import opened PdbLocks
  import opened UpgradeUndo

  // ---------- when a workload counts as migrated ----------

  predicate PodOnTarget(nodes: seq<Node>, p: Pod, target: string) {
    var node := FindNode(nodes, p.nodeName);
    p.nodeName != "" && node.Some? && node.value.kubeletVersion == target
  }

  /** Every pod the workload selects runs on a node of the target version. */
  ghost predicate OnTarget(w: World, wl: Workload, target: string) {
    && ValidSelector(wl.selector)
    && forall p :: p in w.pods && Matches(wl.selector, p.labels) ==> PodOnTarget(w.nodes, p, target)
  }

  ghost predicate Migrated(w: World, name: string, target: string) {
    var key := Resolve(w, name);
    key.Some? && OnTarget(w, w.workloads[key.value], target)
  }

  /** Under failing calls either kind of workload may answer for the name. */
  ghost predicate SeenMigrated(w: World, name: string, target: string) {
    exists key :: key in w.workloads && key.name == name && OnTarget(w, w.workloads[key], target)
  }

  lemma {:induction false} PodsOnTargetMeans(nodes: seq<Node>, pods: seq<Pod>, target: string, rs: Replies)
    ensures var (rs', r) := PodsOnTarget(nodes, pods, target, rs);
            && (r == Ok(true) ==> forall p :: p in pods ==> PodOnTarget(nodes, p, target))
            && (rs == [] ==> rs' == [] && (r == Ok(true) <==> forall p :: p in pods ==> PodOnTarget(nodes, p, target)))
  {
    if pods != [] {
      PodsOnTargetMeans(nodes, pods[1..], target, Rest(rs));
      assert pods == [pods[0]] + pods[1..] && pods[0] in pods;
      assert forall p :: p in pods <==> p == pods[0] || p in pods[1..];
    }
  }

  /** A workload whose selector is labels alone owns the pods that carry all of them. */
  lemma PodsOfLabels(pods: seq<Pod>, m: Labels, p: Pod)
    ensures p in SelectedPods(pods, Some(LabelSelector(m, []))) <==> p in pods && m.Items <= p.labels.Items
  {
    LabelsMatchIff(m, p.labels);
  }

  /** The same test in terms of labels, for a workload whose selector is labels alone. */
  lemma MigratedByLabels(w: World, name: string, target: string, m: Labels)
    requires Resolve(w, name).Some? && w.workloads[Resolve(w, name).value].selector == Some(LabelSelector(m, []))
    ensures IsWorkloadMigrated(w, [], name, target).1 == Ok(true)
       <==> forall p :: p in w.pods && m.Items <= p.labels.Items ==> PodOnTarget(w.nodes, p, target)
  {
    IsWorkloadMigratedMeans(w, [], name, target);
    forall p: Pod ensures Matches(Some(LabelSelector(m, [])), p.labels) <==> m.Items <= p.labels.Items {
      LabelsMatchIff(m, p.labels);
    }
    hide Matches, IsWorkloadMigrated;
  }

  /** A yes needs one answered read of a node for every pod. */
  lemma {:induction false} PodsNeedAnswers(nodes: seq<Node>, pods: seq<Pod>, target: string, rs: Replies)
    ensures PodsOnTarget(nodes, pods, target, rs).1 == Ok(true) ==> Answered(rs, |pods|)
  {
    if pods != [] && rs != [] {
      PodsNeedAnswers(nodes, pods[1..], target, rs[1..]);
      forall i | 0 <= i < |pods| && i < |rs| && PodsOnTarget(nodes, pods, target, rs).1 == Ok(true)
        ensures rs[i].Done?
      {
        assert i > 0 ==> rs[i] == rs[1..][i-1];
      }
    }
  }

  /** A yes also needs an answered read of the workload, of either kind, and of the pods. */
  lemma MigrationNeedsAnswers(w: World, rs: Replies, name: string, target: string)
    ensures IsWorkloadMigrated(w, rs, name, target).1 == Ok(true) ==>
      var (rest, key) := GetWorkload(w, rs, name);
      key.Some? && Answered(rest, 1 + |SelectedPods(w.pods, w.workloads[key.value].selector)|)
  {
    var (rest, key) := GetWorkload(w, rs, name);
    if key.Some? && rest != [] {
      var pods := SelectedPods(w.pods, w.workloads[key.value].selector);
      PodsNeedAnswers(w.nodes, pods, target, rest[1..]);
      forall i | 0 <= i < 1 + |pods| && i < |rest| && IsWorkloadMigrated(w, rs, name, target).1 == Ok(true)
        ensures rest[i].Done?
      {
        assert i > 0 ==> rest[i] == rest[1..][i-1];
      }
    }
  }

  lemma IsWorkloadMigratedMeans(w: World, rs: Replies, name: string, target: string)
    ensures var (rs', r) := IsWorkloadMigrated(w, rs, name, target);
            && (r == Ok(true) ==> SeenMigrated(w, name, target))
            && (rs == [] ==> rs' == [] && (r == Ok(true) <==> Migrated(w, name, target)))
  {
    var (rs1, key) := GetWorkload(w, rs, name);
    GetWorkloadResolves(w, rs, {}, name);
    if key.Some? {
      PodsOnTargetMeans(w.nodes, SelectedPods(w.pods, w.workloads[key.value].selector), target, Rest(rs1));
    }
  }

  lemma {:induction false} AllMigratedMeans(w: World, rs: Replies, names: seq<string>, target: string)
    ensures var (rs', r) := AllMigrated(w, rs, names, target);
            && (r == Ok(true) ==> forall n :: n in names ==> SeenMigrated(w, n, target))
            && (rs == [] ==> rs' == [] && (r == Ok(true) <==> forall n :: n in names ==> Migrated(w, n, target)))
    decreases names
  {
    if names != [] {
      IsWorkloadMigratedMeans(w, rs, names[0], target);
      AllMigratedMeans(w, IsWorkloadMigrated(w, rs, names[0], target).0, names[1..], target);
      assert names == [names[0]] + names[1..];
    }
  }

  /** The workload exists and every dependency has been seen on the target version. */
  ghost predicate MayGrant(w: World, e: Deployment, target: string) {
    && (exists key :: key in w.workloads && key.name == e.name)
    && (e.dependsOn == [] || target != "")
    && forall d :: d in e.dependsOn ==> SeenMigrated(w, d, target)
  }

  /** The same with every call answering. */
  ghost predicate MustGrant(w: World, e: Deployment, target: string) {
    && Resolve(w, e.name).Some?
    && (e.dependsOn == [] || target != "")
    && forall d :: d in e.dependsOn ==> Migrated(w, d, target)
  }

  lemma DependenciesMetMeans(w: World, rs: Replies, deps: seq<string>)
    ensures var target := w.stored.targetVersion;
            var (rs', r) := DependenciesMet(w, rs, deps);
            && (r == Ok(true) ==> (deps == [] || target != "") && forall d :: d in deps ==> SeenMigrated(w, d, target))
            && (rs == [] ==> rs' == [])
            && (rs == [] ==>
                 (r == Ok(true) <==> (deps == [] || target != "") && forall d :: d in deps ==> Migrated(w, d, target)))
  {
    AllMigratedMeans(w, rs, deps, w.stored.targetVersion);
  }

  // ---------- what a pass leaves alone ----------

  /** Same names and versions, so the same answers about pods. */
  ghost predicate SameVersions(a: seq<Node>, b: seq<Node>) {
    |a| == |b| && forall i :: 0 <= i < |a| ==> a[i].name == b[i].name && a[i].kubeletVersion == b[i].kubeletVersion
  }

  /** The only change to workloads is one upgrade toleration for some of `names` that lacked it. */
  ghost predicate OnlyTolerated(a: World, b: World, names: set<string>) {
    && b.workloads.Keys == a.workloads.Keys
    && forall key :: key in a.workloads ==>
         var x, y := a.workloads[key], b.workloads[key];
         || y == x
         || (key.name in names && UPGRADE_TOLERATION !in x.tolerations
             && y == x.(tolerations := x.tolerations + [UPGRADE_TOLERATION]))
  }

  lemma {:induction false} SameVersionsSameNode(a: seq<Node>, b: seq<Node>, name: string)
    requires SameVersions(a, b)
    ensures FindNode(a, name).Some? <==> FindNode(b, name).Some?
    ensures FindNode(a, name).Some? ==> FindNode(a, name).value.kubeletVersion == FindNode(b, name).value.kubeletVersion
  {
    if a != [] && a[0].name != name {
      SameVersionsSameNode(a[1..], b[1..], name);
    }
  }

  /** The dependency tests answer the same before and after what a pass changes. */
  lemma GrantsAreStable(a: World, b: World, names: set<string>, e: Deployment, target: string)
    requires SameVersions(a.nodes, b.nodes) && a.pods == b.pods && OnlyTolerated(a, b, names)
    ensures MayGrant(a, e, target) <==> MayGrant(b, e, target)
    ensures MustGrant(a, e, target) <==> MustGrant(b, e, target)
  {
    forall key | key in a.workloads
      ensures OnTarget(a, a.workloads[key], target) <==> OnTarget(b, b.workloads[key], target)
    {
      forall p ensures PodOnTarget(a.nodes, p, target) <==> PodOnTarget(b.nodes, p, target) {
        SameVersionsSameNode(a.nodes, b.nodes, p.nodeName);
      }
    }
    hide OnTarget, PodOnTarget, SameVersions;
    forall d ensures SeenMigrated(a, d, target) <==> SeenMigrated(b, d, target) {
      if SeenMigrated(a, d, target) {
        var key :| key in a.workloads && key.name == d && OnTarget(a, a.workloads[key], target);
        assert key in b.workloads;
      }
      if SeenMigrated(b, d, target) {
        var key :| key in b.workloads && key.name == d && OnTarget(b, b.workloads[key], target);
        assert key in a.workloads;
      }
    }
    forall d ensures Migrated(a, d, target) <==> Migrated(b, d, target) {
      assert Resolve(a, d) == Resolve(b, d);
    }
  }

  lemma OnlyToleratedTransitive(a: World, b: World, c: World, names: set<string>, more: set<string>)
    requires OnlyTolerated(a, b, names) && OnlyTolerated(b, c, more) && names <= more
    ensures OnlyTolerated(a, c, more)
  {}

  // ---------- one entry of the plan loop ----------

  lemma AddTolerationEffect(w: World, rs: Replies, name: string)
    ensures var out := AddToleration(w, rs, name);
            && out.w == w.(workloads := out.w.workloads)
            && OnlyTolerated(w, out.w, {name})
            && (out.ok ==> var key := GetWorkload(w, rs, name).1;
                           key.Some? && UPGRADE_TOLERATION in out.w.workloads[key.value].tolerations)
            && (rs == [] ==> out.rs == [] && forall key :: key in w.workloads ==>
                  (UPGRADE_TOLERATION in out.w.workloads[key].tolerations
                   <==> UPGRADE_TOLERATION in w.workloads[key].tolerations || Resolve(w, name) == Some(key)))
  {
    GetWorkloadResolves(w, rs, {}, name);
  }

  /** Reading and locking as a pass sees them: nothing but tolerations and budgets differs. */
  lemma GrantEntryEffect(w: World, rs: Replies, e: Deployment)
    ensures var w' := GrantEntry(w, rs, e).0;
            && w' == w.(pdbs := w'.pdbs, workloads := w'.workloads)
            && OnlyTolerated(w, w', {e.name})
            && (!MayGrant(w, e, w.stored.targetVersion) ==> w' == w)
            && (|| w'.pdbs == w.pdbs
                || exists key :: key in w.workloads && key.name == e.name
                     && w'.pdbs == CarriedOut(IntentOf(w, key, true), w.pdbs))
  {
    var (rs1, key) := GetWorkload(w, rs, e.name);
    if key.Some? {
      DependenciesMetMeans(w, rs1, e.dependsOn);
      var (rs2, met) := DependenciesMet(w, rs1, e.dependsOn);
      if met == Ok(true) {
        ReconcilePdbOutcome(w, rs2, key.value, true);
        var out := ReconcilePdb(w, rs2, key.value, true);
        AddTolerationEffect(out.w, out.rs, e.name);
      }
    }
    hide SeenMigrated, IntentOf, CarriedOut, DependenciesMet, AddToleration, ReconcilePdb;
  }

  /** The entry's calls that come before its budget is unblocked, and what is left of them. */
  function BeforeUnblock(w: World, rs: Replies, e: Deployment): Replies {
    DependenciesMet(w, GetWorkload(w, rs, e.name).0, e.dependsOn).0
  }

  /** Where unblocking returned an error the pass goes on without adding the toleration. */
  lemma NoTolerationAfterFailedUnblock(w: World, rs: Replies, e: Deployment)
    ensures var w', key := GrantEntry(w, rs, e).0, GetWorkload(w, rs, e.name).1;
            w'.workloads != w.workloads ==> key.Some? && ReconcilePdb(w, BeforeUnblock(w, rs, e), key.value, true).ok
  {
    hide ReconcilePdb, DependenciesMet, AddToleration;
  }

  /** With every call answering, the entry is granted exactly when its dependencies are met. */
  lemma GrantEntryExact(w: World, e: Deployment)
    requires Resolve(w, e.name).Some? ==> IntentOf(w, Resolve(w, e.name).value, true) != BadAnnotation
    ensures var (w', rs) := GrantEntry(w, [], e);
            && rs == []
            && (MustGrant(w, e, w.stored.targetVersion) ==>
                  w'.pdbs == CarriedOut(IntentOf(w, Resolve(w, e.name).value, true), w.pdbs))
            && (!MustGrant(w, e, w.stored.targetVersion) ==> w' == w)
            && w'.workloads.Keys == w.workloads.Keys
            && forall key :: key in w.workloads ==>
                 (UPGRADE_TOLERATION in w'.workloads[key].tolerations
                  <==> || UPGRADE_TOLERATION in w.workloads[key].tolerations
                       || (MustGrant(w, e, w.stored.targetVersion) && Resolve(w, e.name) == Some(key)))
  {
    GetWorkloadResolves(w, [], {}, e.name);
    DependenciesMetMeans(w, [], e.dependsOn);
    var key := Resolve(w, e.name);
    if key.Some? {
      ReconcilePdbOutcome(w, [], key.value, true);
      var out := ReconcilePdb(w, [], key.value, true);
      AddTolerationEffect(out.w, out.rs, e.name);
    }
    hide Migrated, IntentOf, CarriedOut, DependenciesMet, AddToleration, ReconcilePdb;
  }

  // ---------- the node loop ----------

  /** Nodes of the target version are prepared or untouched, all others are untouched. */
  ghost predicate PreparedSome(a: seq<Node>, b: seq<Node>, target: string) {
    && |a| == |b|
    && forall i :: 0 <= i < |a| ==>
         b[i] == a[i] || (a[i].kubeletVersion == target && b[i] == Prepared(a[i], target))
  }

  ghost predicate AllTainted(nodes: seq<Node>, target: string, from: nat) {
    forall i :: from <= i < |nodes| && nodes[i].kubeletVersion == target ==> HasUpgradeTaint(nodes[i])
  }

  lemma PreparedIsTainted(n: Node, target: string)
    ensures HasUpgradeTaint(Prepared(n, target))
  {
    var p := Prepared(n, target);
    if !HasUpgradeTaint(n) {
      assert p.taints[|n.taints|] == UPGRADE_TAINT;
    }
  }

  lemma {:induction false} PrepareFromEffect(w: World, rs: Replies, target: string, i: nat)
    requires i <= |w.nodes|
    ensures var out := PrepareFrom(w, rs, target, i);
            && out.w == w.(nodes := out.w.nodes)
            && PreparedSome(w.nodes, out.w.nodes, target)
            && (forall j :: 0 <= j < i ==> out.w.nodes[j] == w.nodes[j])
            && (out.ok ==> AllTainted(out.w.nodes, target, i))
            && (rs == [] ==> out.ok && out.rs == [])
    decreases |w.nodes| - i
  {
    if i < |w.nodes| {
      if w.nodes[i].kubeletVersion != target {
        PrepareFromEffect(w, rs, target, i+1);
      } else {
        PreparedIsTainted(w.nodes[i], target);
        var w' := if Applied(Next(rs)) then w.(nodes := w.nodes[i := Prepared(w.nodes[i], target)]) else w;
        hide HasUpgradeTaint, Prepared;
        PrepareFromEffect(w', Rest(rs), target, i+1);
      }
    }
  }

  /** `Toleration.ToleratesTaint` of the core API. */
  predicate Tolerates(tol: Toleration, taint: Taint) {
    && (tol.effect == "" || tol.effect == taint.effect)
    && (tol.key == "" || tol.key == taint.key)
    && (tol.operator == "Exists" || ((tol.operator == "" || tol.operator == "Equal") && tol.value == taint.value))
  }

  /** The toleration is the one the taint asks for, for no limited time, and the taint keeps others away. */
  lemma TolerationFitsTaint()
    ensures Tolerates(UPGRADE_TOLERATION, UPGRADE_TAINT) && UPGRADE_TOLERATION.seconds == None
    ensures UPGRADE_TAINT == Taint("upgrade-orchestrator/status", "upgrading", "NoSchedule")
    ensures forall other: Toleration :: other.key != "" && other.key != UPGRADE_TAINT.key ==>
              !Tolerates(other, UPGRADE_TAINT)
  {}

  /** The node already has a taint of the operator's key and effect, whatever its value. */
  ghost predicate HasTaintOf(n: Node) {
    exists t :: t in n.taints && t.key == "upgrade-orchestrator/status" && t.effect == "NoSchedule"
  }

  /** Preparing a node labels it with the target and appends the taint unless it has one. */
  lemma PreparedMeans(n: Node, target: string)
    ensures Prepared(n, target).taints == if HasTaintOf(n) then n.taints else n.taints + [UPGRADE_TAINT]
    ensures Prepared(n, target).labels == n.labels[NODE_LABEL := target]
    ensures Prepared(n, target) == n.(taints := Prepared(n, target).taints, labels := Prepared(n, target).labels)
  {}

  // ---------- the whole plan loop ----------

  /** The names some entry of which may be granted in this state. */
  ghost function Grantable(w: World, plan: Plan, target: string): set<string> {
    set e | e in plan && MayGrant(w, e, target) :: e.name
  }

  ghost predicate MustGrantName(w: World, plan: Plan, name: string, target: string) {
    exists e :: e in plan && e.name == name && MustGrant(w, e, target)
  }

  lemma {:induction false} GrantAllEffect(w: World, rs: Replies, plan: Plan)
    ensures var w' := GrantAll(w, rs, plan).0;
            && w' == w.(pdbs := w'.pdbs, workloads := w'.workloads)
            && OnlyTolerated(w, w', Grantable(w, plan, w.stored.targetVersion))
            && (Grantable(w, plan, w.stored.targetVersion) == {} ==> w' == w)
    decreases plan
  {
    var target := w.stored.targetVersion;
    if plan != [] {
      var e := plan[0];
      var (w1, rs1) := GrantEntry(w, rs, e);
      GrantEntryEffect(w, rs, e);
      GrantAllEffect(w1, rs1, plan[1..]);
      SameGrantable(w, w1, {e.name}, plan[1..], target);
      var names := Grantable(w, plan, target);
      GrantableSplit(w, plan, target);
      hide OnlyTolerated, Grantable, MayGrant, GrantEntry, IntentOf, CarriedOut;
      if MayGrant(w, e, target) {
        OnlyToleratedTransitive(w, w1, GrantAll(w1, rs1, plan[1..]).0, {e.name}, names);
        assert names != {};
      }
    }
  }

  lemma SameGrantable(a: World, b: World, names: set<string>, plan: Plan, target: string)
    requires SameVersions(a.nodes, b.nodes) && a.pods == b.pods && OnlyTolerated(a, b, names)
    ensures Grantable(a, plan, target) == Grantable(b, plan, target)
  {
    forall e ensures MayGrant(a, e, target) <==> MayGrant(b, e, target) {
      GrantsAreStable(a, b, names, e, target);
    }
  }

  lemma GrantableSplit(w: World, plan: Plan, target: string)
    requires plan != []
    ensures Grantable(w, plan, target)
         == Grantable(w, plan[1..], target) + if MayGrant(w, plan[0], target) then {plan[0].name} else {}
  {
    assert plan == [plan[0]] + plan[1..];
  }

  // ---------- a whole pass ----------

  /** What one pass may have granted, given the order in which it saw the versions. */
  ghost function Granted(c: Config, w: World, vs: seq<string>): set<string> {
    var target := DetermineTarget(c.parse, vs);
    if target.Ok? then Grantable(w, c.plan, target.value) else {}
  }

  /** A pass records the target, prepares the nodes and, if all of that worked, runs the plan loop. */
  lemma PassStages(c: Config, w: World, rs: Replies, vs: seq<string>) returns (p: Outcome)
    requires w.stored.state == UpgradeInProgress
    ensures var w' := Reconcile(c, w, rs, vs).0;
            var target := DetermineTarget(c.parse, vs);
            && p.w == w.(nodes := p.w.nodes, stored := w.stored.(targetVersion := p.w.stored.targetVersion))
            && SameVersions(w.nodes, p.w.nodes)
            && (target.Err? ==> p.w == w && !p.ok)
            && (target.Ok? ==> PreparedSome(w.nodes, p.w.nodes, target.value))
            && (p.ok ==> p.w.stored.targetVersion == target.value && AllTainted(p.w.nodes, target.value, 0))
            && (rs == [] && target.Ok? ==> p.ok && p.rs == [])
            && w' == if p.ok then GrantAll(p.w, p.rs, c.plan).0 else p.w
  {
    var target := DetermineTarget(c.parse, vs);
    p := Outcome(w, rs, false);
    if Next(rs).Done? && Next(Rest(rs)).Done? && |vs| >= 2 && target.Ok? {
      var t := target.value;
      var rs1 := Rest(Rest(rs));
      p := if w.stored.targetVersion == t then Outcome(w, rs1, true)
           else StatusUpdate(w, rs1, w.stored.(targetVersion := t));
      if p.ok {
        PrepareFromEffect(p.w, Rest(p.rs), t, 0);
        p := PrepareNodes(p.w, p.rs, t);
        PreparedKeepsVersions(w.nodes, p.w.nodes, t);
      }
    }
    hide AllTainted, SameVersions, PreparedSome, GrantAll, PrepareNodes;
  }

  /** Any pass, whatever its calls answer. */
  lemma PassEffect(c: Config, w: World, rs: Replies, vs: seq<string>)
    requires w.stored.state == UpgradeInProgress
    ensures var w', target := Reconcile(c, w, rs, vs).0, DetermineTarget(c.parse, vs);
            && w'.pods == w.pods && w'.now == w.now
            && w'.stored == w.stored.(targetVersion := w'.stored.targetVersion)
            && SameVersions(w.nodes, w'.nodes)
            && (target.Err? ==> w' == w)
            && (target.Ok? ==> PreparedSome(w.nodes, w'.nodes, target.value))
            && OnlyTolerated(w, w', Granted(c, w, vs))
            && (Granted(c, w, vs) == {} ==> w'.pdbs == w.pdbs)
  {
    var p := PassStages(c, w, rs, vs);
    if p.ok {
      SameGrantable(w, p.w, {}, c.plan, p.w.stored.targetVersion);
      GrantAllEffect(p.w, p.rs, c.plan);
    }
    hide Grantable, GrantAll, Reconcile, DetermineTarget;
  }

  lemma PreparedKeepsVersions(a: seq<Node>, b: seq<Node>, target: string)
    requires PreparedSome(a, b, target)
    ensures SameVersions(a, b)
  {}

  /**
   A pass that adds a toleration has first seen every node of the target version tainted;
   other nodes are never touched.
   */
  lemma TaintBeforeToleration(c: Config, w: World, rs: Replies, vs: seq<string>)
    requires w.stored.state == UpgradeInProgress
    ensures var w' := Reconcile(c, w, rs, vs).0;
            var target := DetermineTarget(c.parse, vs);
            && (w'.workloads != w.workloads ==> target.Ok? && AllTainted(w'.nodes, target.value, 0))
            && (w'.nodes != w.nodes ==> target.Ok? && PreparedSome(w.nodes, w'.nodes, target.value))
  {
    var p := PassStages(c, w, rs, vs);
    if p.ok {
      GrantAllEffect(p.w, p.rs, c.plan);
    }
    hide Grantable, GrantAll, Reconcile, DetermineTarget, AllTainted, PreparedSome, OnlyTolerated;
  }

  ghost predicate TaintedOnce(n: Node) {
    multiset(n.taints)[UPGRADE_TAINT] <= 1
  }

  ghost predicate ToleratedOnce(wl: Workload) {
    multiset(wl.tolerations)[UPGRADE_TOLERATION] <= 1
  }

  lemma NothingAddedTwice(a: World, b: World, names: set<string>, target: string)
    requires OnlyTolerated(a, b, names) && PreparedSome(a.nodes, b.nodes, target)
    ensures forall key :: key in a.workloads && ToleratedOnce(a.workloads[key]) ==> ToleratedOnce(b.workloads[key])
    ensures forall i :: 0 <= i < |a.nodes| && TaintedOnce(a.nodes[i]) ==> TaintedOnce(b.nodes[i])
  {
    forall i | 0 <= i < |a.nodes| && TaintedOnce(a.nodes[i]) ensures TaintedOnce(b.nodes[i]) {
      assert UPGRADE_TAINT in a.nodes[i].taints ==> HasUpgradeTaint(a.nodes[i]);
    }
  }

  /**
   Whatever its calls answer, a pass leaves at most one upgrade taint on a node and one upgrade
   toleration on a workload that had at most one, and nodes of other versions as they were.
   */
  lemma PassAddsNothingTwice(c: Config, w: World, rs: Replies, vs: seq<string>)
    requires w.stored.state == UpgradeInProgress
    ensures var w' := Reconcile(c, w, rs, vs).0;
            var target := DetermineTarget(c.parse, vs);
            && |w'.nodes| == |w.nodes| && w'.workloads.Keys == w.workloads.Keys
            && (forall i :: 0 <= i < |w.nodes| && TaintedOnce(w.nodes[i]) ==> TaintedOnce(w'.nodes[i]))
            && (forall key :: key in w.workloads && ToleratedOnce(w.workloads[key]) ==>
                  ToleratedOnce(w'.workloads[key]))
            && (forall i :: 0 <= i < |w.nodes| && target != Ok(w.nodes[i].kubeletVersion) ==> w'.nodes[i] == w.nodes[i])
  {
    var w' := Reconcile(c, w, rs, vs).0;
    PassEffect(c, w, rs, vs);
    TaintBeforeToleration(c, w, rs, vs);
    var target := DetermineTarget(c.parse, vs);
    hide Granted, Reconcile, DetermineTarget, Prepared, TaintedOnce, ToleratedOnce;
    NothingAddedTwice(w, w', Granted(c, w, vs), if target.Ok? then target.value else "");
  }

  // ---------- budgets during a pass ----------

  /** Same workloads with the same labels and selectors. */
  ghost predicate SameShape(a: World, b: World) {
    && b.workloads.Keys == a.workloads.Keys
    && forall key :: key in a.workloads ==>
         && b.workloads[key].labels == a.workloads[key].labels
         && b.workloads[key].selector == a.workloads[key].selector
  }

  /** The workload's guard, its user budget or the operator's own, forbids disruption. */
  ghost predicate Held(w0: World, k: Locks, key: Key)
    requires key in w0.workloads
  {
    match FindUserPdb(w0.pdbs, w0.workloads[key])
    case Some(i) => w0.pdbs[i].name in k.users
    case None => Own(key.name, w0.workloads[key].selector) in k.own
  }

  /** Both workloads select the same user budget. */
  ghost predicate Share(w0: World, a: Key, b: Key)
    requires a in w0.workloads && b in w0.workloads
  {
    var i, j := FindUserPdb(w0.pdbs, w0.workloads[a]), FindUserPdb(w0.pdbs, w0.workloads[b]);
    i.Some? && j.Some? && w0.pdbs[i.value].name == w0.pdbs[j.value].name
  }

  /** `names` cannot affect the guard of `key`. */
  ghost predicate Apart(w0: World, key: Key, names: set<string>)
    requires key in w0.workloads
  {
    forall other :: other in w0.workloads && other.name in names ==> other.name != key.name && !Share(w0, key, other)
  }

  /** From `a` to `b` locks were only taken off, and only those that `names` account for. */
  ghost predicate Released(w0: World, a: Locks, b: Locks, names: set<string>) {
    forall key :: key in w0.workloads ==>
      && (Held(w0, b, key) ==> Held(w0, a, key))
      && (Held(w0, a, key) && Apart(w0, key, names) ==> Held(w0, b, key))
  }

  /** The workload its name stands for when no call fails. */
  predicate Primary(w0: World, key: Key) {
    Resolve(w0, key.name) == Some(key)
  }

  /** One guard covers both. */
  ghost predicate SameGuard(w0: World, a: Key, b: Key)
    requires a in w0.workloads && b in w0.workloads
  {
    a == b || Share(w0, a, b)
  }

  /** Unblocking takes off the workload's own guard and no other. */
  lemma UnblockExact(w0: World, k: Locks, names: set<string>, key: Key, other: Key)
    requires GoodLocks(k, names) && Primary(w0, key) && Primary(w0, other)
    ensures Held(w0, LocksAfter(w0, k, key, true), other) <==> Held(w0, k, other) && !SameGuard(w0, key, other)
  {
    hide FindUserPdb, OwnIndex;
    var after := LocksAfter(w0, k, key, true);
    var j := OwnIndex(k.own, key.name);
    if j.Some? && after.own != k.own {
      OwnWithout(k, names, j.value, Own(other.name, w0.workloads[other].selector));
    }
  }

  lemma OwnWithout(k: Locks, names: set<string>, j: nat, own: Own)
    requires GoodLocks(k, names) && j < |k.own|
    ensures own in k.own[..j] + k.own[j+1..] <==> own in k.own && own.name != k.own[j].name
  {
    var rest := k.own[..j] + k.own[j+1..];
    if own in k.own && own.name != k.own[j].name {
      var i :| 0 <= i < |k.own| && k.own[i] == own;
      assert own == if i < j then rest[i] else rest[i-1];
    }
    if own in rest {
      var i :| 0 <= i < |rest| && rest[i] == own;
      assert rest[i] == if i < j then k.own[i] else k.own[i+1];
    }
  }

  lemma UnblockReleases(w0: World, k: Locks, names: set<string>, key: Key)
    requires GoodLocks(k, names) && key in w0.workloads
    ensures var after := Unblock(w0.pdbs, k, key.name, w0.workloads[key]);
            Released(w0, k, after, {key.name}) && !Held(w0, after, key)
  {
    hide FindUserPdb, OwnIndex;
    var after := Unblock(w0.pdbs, k, key.name, w0.workloads[key]);
    forall own | own in k.own ensures own in after.own || own.name == key.name || after.own == k.own {
      var j := OwnIndex(k.own, key.name);
      if j.Some? {
        OwnWithout(k, names, j.value, own);
      }
    }
    forall other | other in w0.workloads && Held(w0, k, other) && Apart(w0, other, {key.name})
      ensures Held(w0, after, other)
    {
      assert key.name in {key.name};
      assert other.name != key.name && !Share(w0, other, key);
    }
  }

  lemma ReleasedTransitive(w0: World, a: Locks, b: Locks, c: Locks, names: set<string>, more: set<string>)
    requires Released(w0, a, b, names) && Released(w0, b, c, more) && names <= more
    ensures Released(w0, a, c, more)
  {
    hide Held, Share;
  }

  lemma ReleasedNothing(w0: World, k: Locks, names: set<string>)
    ensures Released(w0, k, k, names)
  {}

  /** The budget list is the clean one under some locks, and workloads kept their shape. */
  ghost predicate Based(w0: World, w: World, k: Locks, names: set<string>) {
    && CleanPdbs(w0.pdbs, names)
    && w.pdbs == View(w0.pdbs, k) && GoodLocks(k, names)
    && SameShape(w0, w)
  }

  lemma UnblockOnBased(w0: World, w: World, k: Locks, names: set<string>, key: Key)
    requires Based(w0, w, k, names) && key in w.workloads && key.name in names
    ensures IntentOf(w, key, true) != BadAnnotation
    ensures CarriedOut(IntentOf(w, key, true), w.pdbs) == View(w0.pdbs, LocksAfter(w0, k, key, true))
    ensures GoodLocks(LocksAfter(w0, k, key, true), names)
  {
    TolerationsDoNotMatter(w.pdbs, key.name, w0.workloads[key], w.workloads[key]);
    UnblockActsOnLocks(w0.pdbs, k, names, key.name, w0.workloads[key]);
    hide View, CleanPdbs, GoodLocks, UnblockIntent, Unblock;
  }

  lemma OnlyToleratedKeepsShape(w0: World, a: World, b: World, names: set<string>)
    requires SameShape(w0, a) && OnlyTolerated(a, b, names)
    ensures SameShape(w0, b)
  {}

  lemma GrantEntryLocks(w0: World, w: World, k: Locks, names: set<string>, rs: Replies, e: Deployment)
    returns (k': Locks)
    requires Based(w0, w, k, names) && e.name in names
    ensures Based(w0, GrantEntry(w, rs, e).0, k', names)
    ensures Released(w0, k, k', if MayGrant(w, e, w.stored.targetVersion) then {e.name} else {})
  {
    k' := k;
    var w' := GrantEntry(w, rs, e).0;
    GrantEntryEffect(w, rs, e);
    OnlyToleratedKeepsShape(w0, w, w', {e.name});
    ReleasedNothing(w0, k, if MayGrant(w, e, w.stored.targetVersion) then {e.name} else {});
    hide View, CleanPdbs, GoodLocks, GrantEntry, MayGrant, OnlyTolerated, Released, IntentOf, LocksAfter;
    if w'.pdbs != w.pdbs {
      var key :| key in w.workloads && key.name == e.name && w'.pdbs == CarriedOut(IntentOf(w, key, true), w.pdbs);
      UnblockOnBased(w0, w, k, names, key);
      UnblockReleasesAfter(w0, k, names, key);
      k' := LocksAfter(w0, k, key, true);
    }
  }

  lemma UnblockReleasesAfter(w0: World, k: Locks, names: set<string>, key: Key)
    requires GoodLocks(k, names) && key in w0.workloads
    ensures Released(w0, k, LocksAfter(w0, k, key, true), {key.name}) && !Held(w0, LocksAfter(w0, k, key, true), key)
  {
    UnblockReleases(w0, k, names, key);
  }

  lemma {:induction false} GrantAllLocks(w0: World, w: World, k: Locks, names: set<string>, rs: Replies, plan: Plan)
    returns (k': Locks)
    requires Based(w0, w, k, names) && Names(plan) <= names
    ensures Based(w0, GrantAll(w, rs, plan).0, k', names)
    ensures Released(w0, k, k', Grantable(w, plan, w.stored.targetVersion))
    decreases plan
  {
    k' := k;
    var target := w.stored.targetVersion;
    var all := Grantable(w, plan, target);
    ReleasedNothing(w0, k, all);
    if plan != [] {
      var e := plan[0];
      assert plan == [e] + plan[1..];
      var (w1, rs1) := GrantEntry(w, rs, e);
      var k1 := GrantEntryLocks(w0, w, k, names, rs, e);
      GrantEntryEffect(w, rs, e);
      SameGrantable(w, w1, {e.name}, plan[1..], target);
      GrantableSplit(w, plan, target);
      assert Names(plan[1..]) <= names;
      k' := GrantAllLocks(w0, w1, k1, names, rs1, plan[1..]);
      hide Based, Released, GrantEntry, MayGrant, Grantable, IntentOf, CarriedOut, OnlyTolerated;
      ReleasedGrows(w0, k, k1, if MayGrant(w, e, target) then {e.name} else {}, all);
      ReleasedGrows(w0, k1, k', Grantable(w1, plan[1..], target), all);
      ReleasedTransitive(w0, k, k1, k', all, all);
    }
  }

  lemma ReleasedGrows(w0: World, a: Locks, b: Locks, names: set<string>, more: set<string>)
    requires Released(w0, a, b, names) && names <= more
    ensures Released(w0, a, b, more)
  {
    hide Held, Share;
  }

  /** A pass only takes locks off, and only those its grants account for. */
  lemma PassLocks(c: Config, w0: World, w: World, k: Locks, names: set<string>, rs: Replies, vs: seq<string>)
    returns (k': Locks)
    requires w.stored.state == UpgradeInProgress && Based(w0, w, k, names) && Names(c.plan) <= names
    ensures Based(w0, Reconcile(c, w, rs, vs).0, k', names)
    ensures Released(w0, k, k', Granted(c, w, vs))
  {
    k' := k;
    ReleasedNothing(w0, k, Granted(c, w, vs));
    var p := PassStages(c, w, rs, vs);
    if p.ok {
      SameGrantable(w, p.w, {}, c.plan, p.w.stored.targetVersion);
      k' := GrantAllLocks(w0, p.w, k, names, p.rs, c.plan);
    }
    hide View, CleanPdbs, GoodLocks, Grantable, GrantAll, Reconcile, DetermineTarget, Released;
  }

  // ---------- a pass with every call answering ----------

  predicate Tolerated(w: World, key: Key) {
    key in w.workloads && UPGRADE_TOLERATION in w.workloads[key].tolerations
  }

  /** The keys some entry of the plan must be granted for. */
  ghost predicate Due(w: World, plan: Plan, key: Key, target: string) {
    Resolve(w, key.name) == Some(key) && MustGrantName(w, plan, key.name, target)
  }

  lemma DueSplit(w: World, w1: World, plan: Plan, key: Key, target: string)
    requires plan != [] && SameVersions(w.nodes, w1.nodes) && w.pods == w1.pods
    requires OnlyTolerated(w, w1, {plan[0].name})
    ensures Due(w, plan, key, target)
       <==> (plan[0].name == key.name && MustGrant(w, plan[0], target) && Resolve(w, key.name) == Some(key))
            || Due(w1, plan[1..], key, target)
  {
    forall e ensures MustGrant(w, e, target) <==> MustGrant(w1, e, target) {
      GrantsAreStable(w, w1, {plan[0].name}, e, target);
    }
    assert Resolve(w, key.name) == Resolve(w1, key.name);
    hide MustGrant, OnlyTolerated;
    assert plan == [plan[0]] + plan[1..];
    if Due(w1, plan[1..], key, target) {
      var e :| e in plan[1..] && e.name == key.name && MustGrant(w1, e, target);
      assert e in plan && MustGrant(w, e, target);
    }
    if plan[0].name == key.name && MustGrant(w, plan[0], target) {
      assert plan[0] in plan;
    }
    if Due(w, plan, key, target) && !(plan[0].name == key.name && MustGrant(w, plan[0], target)) {
      var e :| e in plan && e.name == key.name && MustGrant(w, e, target);
      assert e in plan[1..] && MustGrant(w1, e, target);
    }
  }

  /** The guard of `other` covers the workload this name stands for. */
  ghost predicate SharesGuard(w0: World, name: string, other: Key)
    requires other in w0.workloads
  {
    Resolve(w0, name).Some? && SameGuard(w0, Resolve(w0, name).value, other)
  }

  /** Some entry that must be granted takes the guard of `other` off. */
  ghost predicate GuardDue(w0: World, w: World, plan: Plan, other: Key, target: string)
    requires other in w0.workloads
  {
    exists e :: e in plan && MustGrant(w, e, target) && SharesGuard(w0, e.name, other)
  }

  /** From `a` to `b` exactly the guards that are due were taken off. */
  ghost predicate ReleasedDue(w0: World, w: World, a: Locks, b: Locks, plan: Plan, target: string) {
    forall key :: Primary(w0, key) ==> (Held(w0, b, key) <==> Held(w0, a, key) && !GuardDue(w0, w, plan, key, target))
  }

  lemma ReleasedDueSplit(w0: World, w: World, w1: World, a: Locks, b: Locks, c: Locks, plan: Plan, target: string)
    requires plan != [] && SameVersions(w.nodes, w1.nodes) && w.pods == w1.pods
    requires OnlyTolerated(w, w1, {plan[0].name})
    requires ReleasedDue(w0, w, a, b, plan[..1], target) && ReleasedDue(w0, w1, b, c, plan[1..], target)
    ensures ReleasedDue(w0, w, a, c, plan, target)
  {
    forall e ensures MustGrant(w, e, target) <==> MustGrant(w1, e, target) {
      GrantsAreStable(w, w1, {plan[0].name}, e, target);
    }
    hide MustGrant, SharesGuard, Held, OnlyTolerated;
    assert plan == plan[..1] + plan[1..];
    forall key | Primary(w0, key)
      ensures GuardDue(w0, w, plan, key, target)
         <==> GuardDue(w0, w, plan[..1], key, target) || GuardDue(w0, w1, plan[1..], key, target)
    {
      assert forall e :: e in plan <==> e in plan[..1] || e in plan[1..];
    }
  }

  lemma GrantEntryExactLocks(w0: World, w: World, k: Locks, names: set<string>, e: Deployment) returns (k': Locks)
    requires Based(w0, w, k, names) && e.name in names
    ensures var (w', rs) := GrantEntry(w, [], e);
            && rs == [] && Based(w0, w', k', names) && Released(w0, k, k', {e.name})
            && ReleasedDue(w0, w, k, k', [e], w.stored.targetVersion)
            && (MustGrant(w, e, w.stored.targetVersion) ==> !Held(w0, k', Resolve(w, e.name).value))
            && forall key :: key in w.workloads ==>
                 (Tolerated(w', key)
                  <==> || Tolerated(w, key)
                       || (MustGrant(w, e, w.stored.targetVersion) && Resolve(w, e.name) == Some(key)))
  {
    k' := k;
    var key := Resolve(w, e.name);
    if key.Some? {
      UnblockOnBased(w0, w, k, names, key.value);
      UnblockReleasesAfter(w0, k, names, key.value);
    }
    ReleasedNothing(w0, k, {e.name});
    GrantEntryExact(w, e);
    var w' := GrantEntry(w, [], e).0;
    GrantEntryEffect(w, [], e);
    OnlyToleratedKeepsShape(w0, w, w', {e.name});
    assert Resolve(w, e.name) == Resolve(w0, e.name);
    EntryReleasesDue(w0, w, k, names, e);
    hide View, CleanPdbs, GoodLocks, GrantEntry, OnlyTolerated, Released, ReleasedDue, IntentOf, LocksAfter, Held;
    if MustGrant(w, e, w.stored.targetVersion) {
      k' := LocksAfter(w0, k, key.value, true);
    }
  }

  lemma EntryReleasesDue(w0: World, w: World, k: Locks, names: set<string>, e: Deployment)
    requires GoodLocks(k, names) && Resolve(w, e.name) == Resolve(w0, e.name)
    ensures var target, key := w.stored.targetVersion, Resolve(w0, e.name);
            var after := if key.Some? && MustGrant(w, e, target) then LocksAfter(w0, k, key.value, true) else k;
            ReleasedDue(w0, w, k, after, [e], target)
  {
    hide Held, SameGuard, LocksAfter, GoodLocks, Migrated;
    var key := Resolve(w0, e.name);
    forall other | Primary(w0, other)
      ensures GuardDue(w0, w, [e], other, w.stored.targetVersion)
         <==> MustGrant(w, e, w.stored.targetVersion) && SharesGuard(w0, e.name, other)
    {
      assert e in [e];
    }
    if key.Some? {
      forall other | Primary(w0, other)
        ensures Held(w0, LocksAfter(w0, k, key.value, true), other)
           <==> Held(w0, k, other) && !SameGuard(w0, key.value, other)
      {
        UnblockExact(w0, k, names, key.value, other);
      }
    }
  }

  lemma {:induction false} GrantAllExact(w0: World, w: World, k: Locks, names: set<string>, plan: Plan)
    returns (k': Locks)
    requires Based(w0, w, k, names) && Names(plan) <= names
    ensures var (w', rs) := GrantAll(w, [], plan);
            var target := w.stored.targetVersion;
            && rs == [] && Based(w0, w', k', names) && Released(w0, k, k', names)
            && ReleasedDue(w0, w, k, k', plan, target)
            && (forall key :: key in w.workloads ==>
                  (Tolerated(w', key) <==> Tolerated(w, key) || Due(w, plan, key, target)))
            && (forall key :: key in w.workloads && Due(w, plan, key, target) ==> !Held(w0, k', key))
    decreases plan
  {
    k' := k;
    ReleasedNothing(w0, k, names);
    if plan != [] {
      var e, target := plan[0], w.stored.targetVersion;
      assert plan == [e] + plan[1..];
      assert e.name in names;
      var w1 := GrantEntry(w, [], e).0;
      var k1 := GrantEntryExactLocks(w0, w, k, names, e);
      GrantEntryEffect(w, [], e);
      k' := GrantAllExact(w0, w1, k1, names, plan[1..]);
      forall key ensures Due(w, plan, key, target)
        <==> (e.name == key.name && MustGrant(w, e, target) && Resolve(w, key.name) == Some(key))
             || Due(w1, plan[1..], key, target) {
        DueSplit(w, w1, plan, key, target);
      }
      assert plan[..1] == [e];
      ReleasedDueSplit(w0, w, w1, k, k1, k', plan, target);
      hide ReleasedDue;
      assert w1.workloads.Keys == w.workloads.Keys == w0.workloads.Keys;
      hide Due, MustGrant, GrantEntry, IntentOf, CarriedOut, View, CleanPdbs, GoodLocks, OnlyTolerated, Held, Tolerated;
      assert forall key :: key in w0.workloads && Held(w0, k', key) ==> Held(w0, k1, key);
      hide Released;
      ReleasedGrows(w0, k, k1, {e.name}, names);
      ReleasedTransitive(w0, k, k1, k', names, names);
    }
  }

  lemma SameDue(a: World, b: World, plan: Plan, key: Key, target: string)
    requires SameVersions(a.nodes, b.nodes) && a.pods == b.pods && OnlyTolerated(a, b, {})
    ensures Due(a, plan, key, target) <==> Due(b, plan, key, target)
  {
    assert Resolve(a, key.name) == Resolve(b, key.name);
    forall e ensures MustGrant(a, e, target) <==> MustGrant(b, e, target) {
      GrantsAreStable(a, b, {}, e, target);
    }
    hide MustGrant, OnlyTolerated;
  }

  lemma SameReleased(w0: World, a: World, b: World, k: Locks, k': Locks, plan: Plan, target: string)
    requires SameVersions(a.nodes, b.nodes) && a.pods == b.pods && OnlyTolerated(a, b, {})
    requires ReleasedDue(w0, b, k, k', plan, target)
    ensures ReleasedDue(w0, a, k, k', plan, target)
  {
    forall e ensures MustGrant(a, e, target) <==> MustGrant(b, e, target) {
      GrantsAreStable(a, b, {}, e, target);
    }
    hide MustGrant, SharesGuard, Held, OnlyTolerated;
    forall key | Primary(w0, key) ensures GuardDue(w0, a, plan, key, target) <==> GuardDue(w0, b, plan, key, target) {}
  }

  /** With every call answering and the target known, a pass grants exactly what is due. */
  lemma PassExact(c: Config, w0: World, w: World, k: Locks, names: set<string>, vs: seq<string>) returns (k': Locks)
    requires w.stored.state == UpgradeInProgress && Based(w0, w, k, names) && Names(c.plan) <= names
    requires DetermineTarget(c.parse, vs).Ok?
    ensures var (w', rs) := Reconcile(c, w, [], vs);
            var target := DetermineTarget(c.parse, vs).value;
            && Based(w0, w', k', names) && Released(w0, k, k', names)
            && ReleasedDue(w0, w, k, k', c.plan, target)
            && w'.stored == w.stored.(targetVersion := target)
            && (forall key :: key in w.workloads ==>
                  (Tolerated(w', key) <==> Tolerated(w, key) || Due(w, c.plan, key, target)))
            && (forall key :: key in w.workloads && Due(w, c.plan, key, target) ==> !Held(w0, k', key))
  {
    var target := DetermineTarget(c.parse, vs).value;
    var p := PassStages(c, w, [], vs);
    k' := GrantAllExact(w0, p.w, k, names, c.plan);
    GrantAllEffect(p.w, [], c.plan);
    forall key ensures Due(w, c.plan, key, target) <==> Due(p.w, c.plan, key, target) {
      SameDue(w, p.w, c.plan, key, target);
    }
    SameReleased(w0, w, p.w, k, k', c.plan, target);
    hide Due, SameVersions, PreparedSome, AllTainted, OnlyTolerated, View, CleanPdbs, GoodLocks, Grantable,
         ReleasedDue, GrantAll, Reconcile, DetermineTarget, Released, Held;
  }
}
