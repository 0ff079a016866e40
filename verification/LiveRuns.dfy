/**
 Results over whole upgrades of the live controller: any number of passes in state
 UpgradeInProgress, any outcome of every API call, and an environment that moves pods and
 replaces nodes between passes as it likes.
 */
module LiveRuns {
  import opened Common
  import opened Api
  import opened DependencyGraph
  import opened Lexicographic
  import opened SemVer
  import opened LiveModel
  import opened PdbLocks
  import opened UpgradeUndo
  import opened LivePass

  /** One reconcile pass: the cluster it starts from, its calls' outcomes, the version order it saw. */
  datatype Pass = Pass(before: World, rs: Replies, vs: seq<string>)

  function After(c: Config, p: Pass): World {
    Reconcile(c, p.before, p.rs, p.vs).0
  }

  /** Between passes pods, nodes and the clock change; budgets and workloads are the operator's. */
  ghost predicate EnvironmentStep(a: World, b: World) {
    b == a.(nodes := b.nodes, pods := b.pods, now := b.now)
  }

  ghost predicate IsRun(c: Config, run: seq<Pass>) {
    && run != []
    && (forall i :: 0 <= i < |run| ==> Lists(run[i].vs, Versions(run[i].before.nodes)))
    && forall i :: 0 <= i < |run| - 1 ==> EnvironmentStep(After(c, run[i]), run[i+1].before)
  }

  ghost predicate IsUpgradeRun(c: Config, run: seq<Pass>) {
    IsRun(c, run) && run[0].before.stored.state == UpgradeInProgress
  }

  /** What pass `i` may have granted. */
  ghost function GrantedIn(c: Config, run: seq<Pass>, i: nat): set<string>
    requires i < |run|
  {
    Granted(c, run[i].before, run[i].vs)
  }

  lemma {:induction false} UpgradeNeverLeaves(c: Config, run: seq<Pass>, i: nat)
    requires IsUpgradeRun(c, run) && i < |run|
    ensures run[i].before.stored.state == UpgradeInProgress
  {
    if i > 0 {
      UpgradeNeverLeaves(c, run, i-1);
      assert EnvironmentStep(After(c, run[i-1]), run[i-1+1].before);
      PassEffect(c, run[i-1].before, run[i-1].rs, run[i-1].vs);
    }
  }

  /** One pass of a run and the environment step after it. */
  lemma RunStep(c: Config, run: seq<Pass>, i: nat)
    requires IsUpgradeRun(c, run) && i + 1 < |run|
    ensures var a, b := run[i].before, run[i+1].before;
            && a.stored.state == UpgradeInProgress
            && b.pdbs == After(c, run[i]).pdbs && b.workloads == After(c, run[i]).workloads
            && OnlyTolerated(a, b, GrantedIn(c, run, i))
  {
    UpgradeNeverLeaves(c, run, i);
    PassEffect(c, run[i].before, run[i].rs, run[i].vs);
  }

  // ---------- lock-down ----------

  /** A budget that allows no disruption covers the workload's pods. */
  ghost predicate ZeroBudget(w: World, key: Key)
    requires key in w.workloads
  {
    exists p :: p in w.pdbs && p.spec.maxUnavailable == Some(Int(0)) && p.spec.minAvailable == None
      && (Guards(p, w.workloads[key].labels) || p.spec.selector == w.workloads[key].selector)
  }

  lemma HeldIsZeroBudget(w0: World, w: World, k: Locks, names: set<string>, key: Key)
    requires Based(w0, w, k, names) && key in w0.workloads && Held(w0, k, key)
    ensures ZeroBudget(w, key)
  {
    var wl := w0.workloads[key];
    match FindUserPdb(w0.pdbs, wl)
    case Some(i) =>
      assert w.pdbs[i] == Locked(w0.pdbs[i]);
      LockKeepsGuards(w0.pdbs[i], wl.labels);
      assert w.pdbs[i] in w.pdbs;
    case None =>
      var j :| 0 <= j < |k.own| && k.own[j] == Own(key.name, wl.selector);
      assert w.pdbs[|w0.pdbs| + j] == NewBlocker(key.name, wl.selector);
      assert w.pdbs[|w0.pdbs| + j] in w.pdbs;
  }

  /** Every own budget carries the selector of the workload it is named after. */
  ghost predicate OwnSelectors(w0: World, k: Locks) {
    forall i :: 0 <= i < |k.own| ==>
      var key := Resolve(w0, k.own[i].name);
      key.Some? && k.own[i].selector == w0.workloads[key.value].selector
  }

  lemma BlockHolds(w0: World, k: Locks, key: Key, other: Key)
    requires OwnSelectors(w0, k) && Resolve(w0, key.name) == Some(key) && other in w0.workloads
    ensures OwnSelectors(w0, LocksAfter(w0, k, key, false))
    ensures Held(w0, LocksAfter(w0, k, key, false), key)
    ensures Held(w0, k, other) ==> Held(w0, LocksAfter(w0, k, key, false), other)
    ensures Held(w0, LocksAfter(w0, k, key, false), other) && other.name != key.name && !Share(w0, other, key) ==>
      Held(w0, k, other)
  {
    var wl := w0.workloads[key];
    if FindUserPdb(w0.pdbs, wl).None? {
      var j := OwnIndex(k.own, key.name);
      if j.Some? {
        assert k.own[j.value] == Own(key.name, wl.selector);
      } else {
        assert LocksAfter(w0, k, key, false).own[|k.own|] == Own(key.name, wl.selector);
      }
    }
  }

  lemma UnblockKeepsSelectors(w0: World, k: Locks, key: Key)
    requires OwnSelectors(w0, k) && key in w0.workloads
    ensures OwnSelectors(w0, LocksAfter(w0, k, key, true))
  {}

  lemma LockEntryExact(w0: World, w: World, k: Locks, names: set<string>, e: Deployment) returns (k': Locks)
    requires Based(w0, w, k, names) && OwnSelectors(w0, k) && e.name in names
    ensures var (w', rs) := LockEntry(w, [], e);
            && rs == [] && w' == w.(pdbs := w'.pdbs) && Based(w0, w', k', names) && OwnSelectors(w0, k')
    ensures forall key :: key in w0.workloads && Held(w0, k, key) && (Apart(w0, key, {e.name}) || e.dependsOn != []) ==>
              Held(w0, k', key)
    ensures Resolve(w0, e.name).Some? ==> (Held(w0, k', Resolve(w0, e.name).value) <==> e.dependsOn != [])
    ensures forall key :: key in w0.workloads && Held(w0, k', key) && Apart(w0, key, {e.name}) ==> Held(w0, k, key)
  {
    k' := k;
    GetWorkloadResolves(w, [], {}, e.name);
    assert Resolve(w, e.name) == Resolve(w0, e.name);
    var key := Resolve(w0, e.name);
    if key.Some? {
      var allow := e.dependsOn == [];
      ReconcilePdbOutcome(w, [], key.value, allow);
      k' := LocksAfter(w0, k, key.value, allow);
      if allow {
        UnblockOnBased(w0, w, k, names, key.value);
        UnblockReleasesAfter(w0, k, names, key.value);
        UnblockKeepsSelectors(w0, k, key.value);
      } else {
        TolerationsDoNotMatter(w.pdbs, e.name, w0.workloads[key.value], w.workloads[key.value]);
        BlockActsOnLocks(w0.pdbs, k, names, e.name, w0.workloads[key.value]);
        forall other | other in w0.workloads
          ensures Held(w0, k', key.value) && OwnSelectors(w0, k') && (Held(w0, k, other) ==> Held(w0, k', other))
          ensures Held(w0, k', other) && Apart(w0, other, {e.name}) ==> Held(w0, k, other)
        {
          BlockHolds(w0, k, key.value, other);
          assert e.name in {e.name};
        }
      }
    }
    hide View, CleanPdbs, GoodLocks, Held, Apart, OwnSelectors, LocksAfter;
  }

  /** Every plan entry for the name lists dependencies. */
  ghost predicate AlwaysDependent(plan: Plan, name: string) {
    forall e :: e in plan && e.name == name ==> e.dependsOn != []
  }

  /** Every plan entry for the name is free of dependencies. */
  ghost predicate AlwaysRoot(plan: Plan, name: string) {
    forall e :: e in plan && e.name == name ==> e.dependsOn == []
  }

  /** Locking the plan down guards a workload that shares no budget if and only if it depends on something. */
  lemma {:induction false} SetInitialHolds(
    w0: World, w: World, k: Locks, names: set<string>, plan: Plan, key: Key) returns (k': Locks)
    requires Based(w0, w, k, names) && OwnSelectors(w0, k) && Names(plan) <= names
    requires Resolve(w0, key.name) == Some(key)
    requires Apart(w0, key, names - {key.name})
    ensures var (w', rs) := SetInitialPdbState(w, [], plan);
            rs == [] && w' == w.(pdbs := w'.pdbs) && Based(w0, w', k', names)
    ensures AlwaysDependent(plan, key.name) && (Held(w0, k, key) || key.name in Names(plan)) ==> Held(w0, k', key)
    ensures AlwaysRoot(plan, key.name) && (!Held(w0, k, key) || key.name in Names(plan)) ==> !Held(w0, k', key)
    decreases plan
  {
    hide Based, Held, OwnSelectors, LockEntry;
    k' := k;
    if plan != [] {
      var e := plan[0];
      assert plan == [e] + plan[1..];
      assert Names(plan) == {e.name} + Names(plan[1..]);
      var k1 := LockEntryExact(w0, w, k, names, e);
      if e.name != key.name {
        assert Apart(w0, key, {e.name});
      }
      hide Apart;
      k' := SetInitialHolds(w0, LockEntry(w, [], e).0, k1, names, plan[1..], key);
    }
  }

  /** The run starts from a clean cluster just locked down, with pods and nodes as they are by then. */
  ghost predicate StartsLockedDown(c: Config, w0: World, run: seq<Pass>) {
    && CleanCluster(w0, Names(c.plan))
    && IsUpgradeRun(c, run)
    && EnvironmentStep(SetInitialPdbState(w0, [], c.plan).0.(stored := run[0].before.stored), run[0].before)
  }

  lemma UntouchedIsBased(w0: World, names: set<string>)
    requires CleanPdbs(w0.pdbs, names)
    ensures Based(w0, w0, NO_LOCKS, names) && OwnSelectors(w0, NO_LOCKS)
  {
    assert View(w0.pdbs, NO_LOCKS) == w0.pdbs;
  }

  /** No pass before `i` may have granted the name. */
  ghost predicate NotYetGranted(c: Config, run: seq<Pass>, i: nat, name: string)
    requires i <= |run|
  {
    forall j :: 0 <= j < i ==> name !in GrantedIn(c, run, j)
  }

  /** At the start of such a run a workload that shares no budget is guarded if it depends on something. */
  lemma LockdownHolds(c: Config, w0: World, run: seq<Pass>, key: Key) returns (k: Locks)
    requires StartsLockedDown(c, w0, run) && key.name in Names(c.plan) && Resolve(w0, key.name) == Some(key)
    requires Apart(w0, key, Names(c.plan) - {key.name})
    ensures Based(w0, run[0].before, k, Names(c.plan)) && run[0].before.workloads == w0.workloads
    ensures AlwaysDependent(c.plan, key.name) ==> Held(w0, k, key)
    ensures AlwaysRoot(c.plan, key.name) ==> !Held(w0, k, key)
  {
    hide Held, View, GoodLocks, Apart;
    var names := Names(c.plan);
    UntouchedIsBased(w0, names);
    k := SetInitialHolds(w0, w0, NO_LOCKS, names, c.plan, key);
  }

  lemma {:induction false} StaysLocked(c: Config, w0: World, run: seq<Pass>, key: Key, i: nat) returns (k: Locks)
    requires StartsLockedDown(c, w0, run) && i < |run|
    requires key.name in Names(c.plan) && Resolve(w0, key.name) == Some(key)
    requires AlwaysDependent(c.plan, key.name) && Apart(w0, key, Names(c.plan) - {key.name})
    requires NotYetGranted(c, run, i, key.name)
    ensures Based(w0, run[i].before, k, Names(c.plan)) && Held(w0, k, key)
    ensures run[i].before.workloads[key] == w0.workloads[key]
  {
    hide Reconcile, View, CleanPdbs, GoodLocks, Held, Granted;
    var names := Names(c.plan);
    if i == 0 {
      k := LockdownHolds(c, w0, run, key);
    } else {
      var k1 := StaysLocked(c, w0, run, key, i-1);
      RunStep(c, run, i-1);
      var p := run[i-1];
      k := PassLocks(c, w0, p.before, k1, names, p.rs, p.vs);
      PassEffect(c, p.before, p.rs, p.vs);
      var granted := GrantedIn(c, run, i-1);
      assert key.name !in granted;
      GrantedAreNames(c, p.before, p.vs);
      assert Apart(w0, key, granted) by {
        assert granted <= names - {key.name};
      }
    }
  }

  lemma GrantedAreNames(c: Config, w: World, vs: seq<string>)
    ensures Granted(c, w, vs) <= Names(c.plan)
  {}

  /**
   Main result: after a lock-down without failing calls, a workload that only ever lists
   dependencies and shares no budget with another planned workload keeps its zero-disruption
   budget and gets no upgrade toleration until a pass in which every pod of each dependency
   of one of its entries is on a node of the target version.
   */
  lemma LockdownSafety(c: Config, w0: World, run: seq<Pass>, key: Key, i: nat)
    requires StartsLockedDown(c, w0, run) && i < |run|
    requires key.name in Names(c.plan) && Resolve(w0, key.name) == Some(key)
    requires AlwaysDependent(c.plan, key.name) && Apart(w0, key, Names(c.plan) - {key.name})
    ensures || (exists j, e :: 0 <= j < i && e in c.plan && e.name == key.name
                  && DetermineTarget(c.parse, run[j].vs).Ok?
                  && MayGrant(run[j].before, e, DetermineTarget(c.parse, run[j].vs).value))
            || (&& key in run[i].before.workloads
                && ZeroBudget(run[i].before, key)
                && NoTolerations(run[i].before.workloads[key].tolerations))
  {
    if NotYetGranted(c, run, i, key.name) {
      var k := StaysLocked(c, w0, run, key, i);
      HeldIsZeroBudget(w0, run[i].before, k, Names(c.plan), key);
      assert NoTolerations(w0.workloads[key].tolerations);
    } else {
      var j :| 0 <= j < i && key.name in GrantedIn(c, run, j);
      var target := DetermineTarget(c.parse, run[j].vs);
      var e :| e in c.plan && MayGrant(run[j].before, e, target.value) && e.name == key.name;
    }
  }

  // ---------- only the well-founded part of a plan is ever granted ----------

  ghost predicate SeenInPass(c: Config, p: Pass, name: string) {
    var target := DetermineTarget(c.parse, p.vs);
    target.Ok? && SeenMigrated(p.before, name, target.value)
  }

  /** A workload is seen on the target version only after some earlier pass granted it. */
  ghost predicate MigratesOnlyGranted(c: Config, run: seq<Pass>) {
    forall i, d :: 0 <= i < |run| && SeenInPass(c, run[i], d) ==> !NotYetGranted(c, run, i, d)
  }

  ghost predicate OnlyExisting(run: seq<Pass>, existing: set<string>) {
    forall i, key :: 0 <= i < |run| && key in run[i].before.workloads ==> key.name in existing
  }

  lemma {:induction false} GrantsAreStartable(c: Config, run: seq<Pass>, existing: set<string>, i: nat)
    requires MigratesOnlyGranted(c, run) && OnlyExisting(run, existing) && i < |run|
    ensures GrantedIn(c, run, i) <= Startable(c.plan, existing, i + 1)
    decreases i
  {
    forall m | 0 <= m < i ensures GrantedIn(c, run, m) <= Startable(c.plan, existing, i) {
      GrantsAreStartable(c, run, existing, m);
      StartableGrows(c.plan, existing, m + 1, i);
    }
    hide Reconcile;
    forall n | n in GrantedIn(c, run, i) ensures n in Startable(c.plan, existing, i + 1) {
      var target := DetermineTarget(c.parse, run[i].vs);
      var e :| e in c.plan && MayGrant(run[i].before, e, target.value) && e.name == n;
      forall d | d in e.dependsOn ensures d in Startable(c.plan, existing, i) {
        assert SeenInPass(c, run[i], d);
        assert !NotYetGranted(c, run, i, d);
      }
      assert n in existing;
    }
  }

  /**
   Main result: if workloads migrate only once granted, then in no run of any length is a
   name granted, or any workload of that name tolerated, that has a dependency cycle, an
   undeclared name or a missing workload anywhere beneath it.
   */
  lemma {:induction false} DoomedIsNeverGranted(c: Config, run: seq<Pass>, existing: set<string>, key: Key, i: nat)
    requires IsUpgradeRun(c, run) && MigratesOnlyGranted(c, run) && OnlyExisting(run, existing) && i < |run|
    ensures DistinctNames(c.plan) && Doomed(c.plan, existing, key.name) ==>
      && key.name !in GrantedIn(c, run, i)
      && (key in run[0].before.workloads ==>
            key in run[i].before.workloads && run[i].before.workloads[key] == run[0].before.workloads[key])
  {
    hide Reconcile, Doomed;
    if DistinctNames(c.plan) && Doomed(c.plan, existing, key.name) {
      GrantsAreStartable(c, run, existing, i);
      DoomedNeverStarts(c.plan, existing, key.name, i + 1);
      if i > 0 {
        DoomedIsNeverGranted(c, run, existing, key, i-1);
        RunStep(c, run, i-1);
      }
    }
  }

  // ---------- grants are monotone and make progress ----------

  /** Tolerations are only ever added, whatever happens between and during passes. */
  lemma {:induction false} TolerationsOnlyGrow(c: Config, run: seq<Pass>, i: nat, j: nat, key: Key)
    requires IsUpgradeRun(c, run) && i <= j < |run| && key in run[i].before.workloads
    ensures key in run[j].before.workloads
    ensures run[i].before.workloads[key].tolerations <= run[j].before.workloads[key].tolerations
  {
    if i < j {
      TolerationsOnlyGrow(c, run, i, j-1, key);
      RunStep(c, run, j-1);
    }
  }

  /** In no run, of any length and with any failures, does a workload get a second toleration. */
  lemma {:induction false} ToleratedAtMostOnce(c: Config, run: seq<Pass>, i: nat, j: nat, key: Key)
    requires IsUpgradeRun(c, run) && i <= j < |run|
    requires key in run[i].before.workloads && ToleratedOnce(run[i].before.workloads[key])
    ensures key in run[j].before.workloads && ToleratedOnce(run[j].before.workloads[key])
  {
    hide Reconcile, ToleratedOnce;
    if i < j {
      ToleratedAtMostOnce(c, run, i, j-1, key);
      UpgradeNeverLeaves(c, run, j-1);
      PassAddsNothingTwice(c, run[j-1].before, run[j-1].rs, run[j-1].vs);
      RunStep(c, run, j-1);
    }
  }

  /** Between passes nodes come, go and change, but bring no upgrade taint of their own. */
  ghost predicate TaintsAreOperators(c: Config, run: seq<Pass>) {
    forall i :: 0 <= i < |run| - 1 ==> NoNewTaints(After(c, run[i]).nodes, run[i+1].before.nodes)
  }

  ghost predicate NoNewTaints(a: seq<Node>, b: seq<Node>) {
    forall n :: n in b && UPGRADE_TAINT in n.taints ==> exists m :: m in a && m.taints == n.taints
  }

  ghost predicate AllTaintedOnce(nodes: seq<Node>) {
    forall n :: n in nodes ==> TaintedOnce(n)
  }

  /** Where only the operator adds its taint, no node has two of them in any run. */
  lemma {:induction false} TaintedAtMostOnce(c: Config, run: seq<Pass>, i: nat)
    requires IsUpgradeRun(c, run) && i < |run| && TaintsAreOperators(c, run) && AllTaintedOnce(run[0].before.nodes)
    ensures AllTaintedOnce(run[i].before.nodes) && AllTaintedOnce(After(c, run[i]).nodes)
  {
    hide Reconcile, IsRun;
    if i > 0 {
      TaintedAtMostOnce(c, run, i-1);
      assert NoNewTaints(After(c, run[i-1]).nodes, run[i-1+1].before.nodes);
    }
    UpgradeNeverLeaves(c, run, i);
    PassAddsNothingTwice(c, run[i].before, run[i].rs, run[i].vs);
  }

  /** Budgets are only ever released: a guard that is open stays open. */
  lemma {:induction false} LocksOnlyReleased(c: Config, w0: World, run: seq<Pass>, k: Locks, names: set<string>, i: nat)
    returns (k': Locks)
    requires IsUpgradeRun(c, run) && i < |run| && Names(c.plan) <= names
    requires Based(w0, run[0].before, k, names)
    ensures Based(w0, run[i].before, k', names)
    ensures forall key :: key in w0.workloads && Held(w0, k', key) ==> Held(w0, k, key)
  {
    k' := k;
    if i > 0 {
      var k1 := LocksOnlyReleased(c, w0, run, k, names, i-1);
      RunStep(c, run, i-1);
      k' := PassLocks(c, w0, run[i-1].before, k1, names, run[i-1].rs, run[i-1].vs);
      hide View, CleanPdbs, GoodLocks, Held, Granted, Apart;
    }
  }

  /** The planned names whose workload exists and has no upgrade toleration yet. */
  ghost function Ungranted(w: World, plan: Plan): set<string> {
    set n | n in Names(plan) && Resolve(w, n).Some? && !Tolerated(w, Resolve(w, n).value)
  }

  /** No pass adds to the ungranted names. */
  lemma UngrantedNeverGrows(c: Config, w: World, rs: Replies, vs: seq<string>)
    requires w.stored.state == UpgradeInProgress
    ensures Ungranted(Reconcile(c, w, rs, vs).0, c.plan) <= Ungranted(w, c.plan)
  {
    PassEffect(c, w, rs, vs);
    var w' := Reconcile(c, w, rs, vs).0;
    assert forall n :: Resolve(w', n) == Resolve(w, n);
  }

  /** A pass without failing calls that finds an ungranted name due grants it: the measure drops. */
  lemma ProgressIsStrict(c: Config, w0: World, w: World, k: Locks, names: set<string>, vs: seq<string>, key: Key)
    requires w.stored.state == UpgradeInProgress && Based(w0, w, k, names) && Names(c.plan) <= names
    requires DetermineTarget(c.parse, vs).Ok?
    requires key in w.workloads && !Tolerated(w, key) && Due(w, c.plan, key, DetermineTarget(c.parse, vs).value)
    ensures |Ungranted(Reconcile(c, w, [], vs).0, c.plan)| < |Ungranted(w, c.plan)|
  {
    var w' := Reconcile(c, w, [], vs).0;
    UngrantedNeverGrows(c, w, [], vs);
    PassEffect(c, w, [], vs);
    var k' := PassExact(c, w0, w, k, names, vs);
    assert Resolve(w', key.name) == Resolve(w, key.name) == Some(key);
    assert Tolerated(w', key);
    assert key.name in Names(c.plan) by {
      var e :| e in c.plan && e.name == key.name && MustGrant(w, e, DetermineTarget(c.parse, vs).value);
    }
    assert key.name in Ungranted(w, c.plan) && key.name !in Ungranted(w', c.plan);
    SubsetSize(Ungranted(w', c.plan), Ungranted(w, c.plan));
  }
}
