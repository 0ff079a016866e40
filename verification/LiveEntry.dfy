/**
 How the live controller enters an upgrade: in every run, through a cordoned node and a
 second version seen in time. Also the exact condition on `client.Update` under which it can
 enter one at all.
 */
module LiveEntry {
  import opened Common
  import opened Api
  import opened DependencyGraph
  import opened Lexicographic
  import opened LiveModel
  import opened UpgradeUndo
  import opened LivePass
  import opened LiveRuns

  lemma {:induction false} SetInitialKeepsStored(w: World, rs: Replies, plan: Plan)
    ensures var (w', rs') := SetInitialPdbState(w, rs, plan);
            w' == w.(pdbs := w'.pdbs) && (rs == [] ==> rs' == [])
    decreases plan
  {
    if plan != [] {
      var e := plan[0];
      var (rs1, key) := GetWorkload(w, rs, e.name);
      if key.Some? {
        ReconcilePdbOutcome(w, rs1, key.value, e.dependsOn == []);
      }
      hide ReconcilePdb, IntentOf;
      var (w1, rs2) := LockEntry(w, rs, e);
      SetInitialKeepsStored(w1, rs2, plan[1..]);
    }
  }

  lemma {:induction false} UntaintKeepsStored(w: World, rs: Replies, i: nat)
    requires i <= |w.nodes|
    ensures UntaintFrom(w, rs, i).0.stored == w.stored
    decreases |w.nodes| - i
  {
    if i < |w.nodes| {
      var n := w.nodes[i];
      if forall t :: t in n.taints ==> t.key != TAINT_KEY {
        UntaintKeepsStored(w, rs, i+1);
      } else {
        var w' := if Applied(Next(rs)) then w.(nodes := w.nodes[i := n.(taints := StripTaints(n.taints))]) else w;
        UntaintKeepsStored(w', Rest(rs), i+1);
      }
    }
  }

  lemma {:induction false} CleanupAllKeepsStored(w: World, rs: Replies, plan: Plan)
    ensures CleanupAll(w, rs, plan).0.stored == w.stored
    decreases plan
  {
    if plan != [] {
      var (w', rs') := CleanupEntry(w, rs, plan[0]);
      CleanupAllKeepsStored(w', rs', plan[1..]);
    }
  }

  lemma CleanupKeepsStored(w: World, rs: Replies, plan: Plan)
    ensures Cleanup(w, rs, plan).w.stored == w.stored
  {
    UntaintKeepsStored(w, Rest(rs), 0);
    var (w1, rs1) := UntaintFrom(w, Rest(rs), 0);
    CleanupAllKeepsStored(w1, rs1, plan);
  }

  /** The state can only become Awaiting, and only on a cordoned node. */
  lemma NoUpgradeStep(c: Config, w: World, rs: Replies, vs: seq<string>)
    ensures var s := HandleNoUpgrade(c, w, rs, vs).0.stored;
            || (s.state == w.stored.state && s.lastTransition == w.stored.lastTransition)
            || (s.state == AwaitingUpgradeConfirmation && s.lastTransition == w.now && Cordoned(w.nodes))
  {
    if w.stored.lastKnown == Some(UpgradeInProgress) && Next(rs).Done? && |vs| == 1 {
      var (rs1, all) := AllMigrated(w, Rest(rs), PlanNames(c.plan), vs[0]);
      if all == Ok(true) {
        CleanupKeepsStored(w, rs1, c.plan);
      }
    }
    hide Cleanup, AllMigrated, Cordoned;
  }

  /** Out of Awaiting: back on timeout, or on to the upgrade with two versions in time. */
  lemma AwaitingStep(c: Config, w: World, rs: Replies, vs: seq<string>)
    ensures var s := HandleAwaiting(c, w, rs, vs).0.stored;
            || (s.state == w.stored.state && s.lastTransition == w.stored.lastTransition)
            || (s.state == NoUpgrade && w.now - w.stored.lastTransition > CONFIRMATION_TIMEOUT)
            || (s.state == UpgradeInProgress && |vs| == 2 && !c.refreshes
                && w.now - w.stored.lastTransition <= CONFIRMATION_TIMEOUT)
    ensures rs == [] && w.stored.state == AwaitingUpgradeConfirmation ==>
      (HandleAwaiting(c, w, rs, vs).0.stored.state == UpgradeInProgress
       <==> |vs| == 2 && !c.refreshes && w.now - w.stored.lastTransition <= CONFIRMATION_TIMEOUT)
  {
    SetInitialKeepsStored(w, Rest(rs), c.plan);
    hide SetInitialPdbState;
  }

  predicate Quiet(s: State) {
    s == Unset || s == NoUpgrade
  }

  /** One pass of the state machine, whatever its calls answer. */
  lemma StateStep(c: Config, w: World, rs: Replies, vs: seq<string>)
    ensures var s := Reconcile(c, w, rs, vs).0.stored;
            && (s.state == AwaitingUpgradeConfirmation ==>
                  || (w.stored.state == AwaitingUpgradeConfirmation && s.lastTransition == w.stored.lastTransition)
                  || (Quiet(w.stored.state) && Cordoned(w.nodes) && s.lastTransition == w.now))
            && (s.state == UpgradeInProgress ==>
                  || w.stored.state == UpgradeInProgress
                  || (w.stored.state == AwaitingUpgradeConfirmation && |vs| == 2 && !c.refreshes
                      && w.now - w.stored.lastTransition <= CONFIRMATION_TIMEOUT))
  {
    hide HandleNoUpgrade, HandleAwaiting, HandleInProgress, Cordoned;
    if Next(rs).Done? {
      match w.stored.state
      case NoUpgrade => NoUpgradeStep(c, w, Rest(rs), vs);
      case AwaitingUpgradeConfirmation => AwaitingStep(c, w, Rest(rs), vs);
      case UpgradeInProgress => PassEffect(c, w, rs, vs);
      case UnknownState =>
      case Unset =>
        var out := StatusUpdate(w, Rest(rs), w.stored.(state := NoUpgrade, lastTransition := w.now));
        if out.ok {
          NoUpgradeStep(c, out.w, out.rs, vs);
        }
    }
  }

  /**
   When confirmation succeeds, exactly: if no call fails, an Awaiting pass moves on to the
   upgrade if and only if it sees two versions within the timeout and `client.Update` leaves
   the new status in the caller's copy alone.
   */
  lemma ConfirmationIff(c: Config, w: World, vs: seq<string>)
    requires w.stored.state == AwaitingUpgradeConfirmation
    ensures Reconcile(c, w, [], vs).0.stored.state == UpgradeInProgress
       <==> |vs| == 2 && !c.refreshes && w.now - w.stored.lastTransition <= CONFIRMATION_TIMEOUT
  {
    AwaitingStep(c, w, [], vs);
    hide HandleAwaiting;
  }

  /** Pass `a` saw a cordoned node and moved to Awaiting, where every pass up to `b` found it. */
  ghost predicate AwaitingSince(run: seq<Pass>, a: nat, b: nat) {
    && a < b < |run|
    && Quiet(run[a].before.stored.state) && Cordoned(run[a].before.nodes)
    && run[b].before.stored.lastTransition == run[a].before.now
    && forall j :: a < j <= b ==> run[j].before.stored.state == AwaitingUpgradeConfirmation
  }

  lemma {:induction false} AwaitingWasEntered(c: Config, run: seq<Pass>, b: nat) returns (a: nat)
    requires IsRun(c, run) && Quiet(run[0].before.stored.state) && b < |run|
    requires run[b].before.stored.state == AwaitingUpgradeConfirmation
    ensures AwaitingSince(run, a, b)
  {
    hide Reconcile, Cordoned, Versions;
    var p := run[b-1];
    assert EnvironmentStep(After(c, run[b-1]), run[b-1+1].before);
    StateStep(c, p.before, p.rs, p.vs);
    if p.before.stored.state == AwaitingUpgradeConfirmation {
      a := AwaitingWasEntered(c, run, b-1);
    } else {
      a := b-1;
    }
  }

  /** A pass in Awaiting that saw exactly two node versions within the timeout. */
  ghost predicate Confirmed(run: seq<Pass>, b: nat) {
    && b < |run|
    && |Versions(run[b].before.nodes)| == 2
    && run[b].before.now - run[b].before.stored.lastTransition <= CONFIRMATION_TIMEOUT
  }

  /**
   Main result: in every run from a quiet start, an upgrade is in progress only after a pass
   that saw a cordoned node and, at most five minutes after it and with the state still
   Awaiting, a pass that saw exactly two versions.
   */
  lemma {:induction false} EveryUpgradeWasConfirmed(c: Config, run: seq<Pass>, i: nat)
    requires IsRun(c, run) && Quiet(run[0].before.stored.state) && i < |run|
    requires run[i].before.stored.state == UpgradeInProgress
    ensures exists a: nat, b: nat :: AwaitingSince(run, a, b) && Confirmed(run, b) && b < i
  {
    hide Reconcile, Cordoned, Versions;
    var p := run[i-1];
    assert EnvironmentStep(After(c, run[i-1]), run[i-1+1].before);
    StateStep(c, p.before, p.rs, p.vs);
    if p.before.stored.state == UpgradeInProgress {
      EveryUpgradeWasConfirmed(c, run, i-1);
    } else {
      var a := AwaitingWasEntered(c, run, i-1);
      ListsSize(p.vs, Versions(p.before.nodes));
      assert Confirmed(run, i-1);
    }
  }

  /** Where `client.Update` refreshes the status, no run ever gets an upgrade started. */
  lemma {:induction false} RefreshingUpdateNeverUpgrades(c: Config, run: seq<Pass>, i: nat)
    requires IsRun(c, run) && c.refreshes && run[0].before.stored.state != UpgradeInProgress && i < |run|
    ensures run[i].before.stored.state != UpgradeInProgress
  {
    hide Reconcile, Cordoned, Versions;
    if i > 0 {
      RefreshingUpdateNeverUpgrades(c, run, i-1);
      assert EnvironmentStep(After(c, run[i-1]), run[i-1+1].before);
      StateStep(c, run[i-1].before, run[i-1].rs, run[i-1].vs);
    }
  }

  // ---------- when cleanup may run ----------

  /** An interrupted entry left its mark, one version is left and every planned workload is on it. */
  ghost predicate ReadyForCleanup(c: Config, w: World, vs: seq<string>) {
    && w.stored.lastKnown == Some(UpgradeInProgress)
    && |vs| == 1
    && forall d :: d in c.plan ==> SeenMigrated(w, d.name, vs[0])
  }

  /**
   In a quiet state a pass leaves nodes, budgets and workloads alone, unless the mark of an
   upgrade is there, a single version is left and every planned workload was seen on it.
   */
  lemma QuietPassTouchesNothing(c: Config, w: World, rs: Replies, vs: seq<string>)
    requires Quiet(w.stored.state)
    ensures var w' := Reconcile(c, w, rs, vs).0;
            w' == w.(stored := w'.stored) || ReadyForCleanup(c, w, vs)
  {
    hide Cleanup, Cordoned, AllMigrated, SeenMigrated;
    if Next(rs).Done? {
      var out := if w.stored.state == NoUpgrade then Outcome(w, Rest(rs), true)
                 else StatusUpdate(w, Rest(rs), w.stored.(state := NoUpgrade, lastTransition := w.now));
      if out.ok {
        NoUpgradeTouchesNothing(c, out.w, out.rs, vs);
        if ReadyForCleanup(c, out.w, vs) {
          forall d | d in c.plan ensures SeenMigrated(w, d.name, vs[0]) {
            SeenDependsOnCluster(w, out.w, d.name, vs[0]);
          }
        }
      }
    }
    hide HandleNoUpgrade;
  }

  lemma SeenDependsOnCluster(a: World, b: World, name: string, target: string)
    requires b == a.(stored := b.stored)
    ensures SeenMigrated(a, name, target) <==> SeenMigrated(b, name, target)
  {
    forall wl ensures OnTarget(a, wl, target) <==> OnTarget(b, wl, target) {}
  }

  lemma NoUpgradeTouchesNothing(c: Config, w: World, rs: Replies, vs: seq<string>)
    ensures var w' := HandleNoUpgrade(c, w, rs, vs).0;
            w' == w.(stored := w'.stored) || ReadyForCleanup(c, w, vs)
  {
    hide Cleanup, Cordoned;
    if w.stored.lastKnown == Some(UpgradeInProgress) && Next(rs).Done? && |vs| == 1 {
      var names := PlanNames(c.plan);
      AllMigratedMeans(w, Rest(rs), names, vs[0]);
      if AllMigrated(w, Rest(rs), names, vs[0]).1 == Ok(true) {
        forall d | d in c.plan ensures SeenMigrated(w, d.name, vs[0]) {
          var i :| 0 <= i < |c.plan| && c.plan[i] == d;
          assert names[i] == d.name && names[i] in names;
        }
      }
    }
  }

  // ---------- from the entry to the lock-down ----------

  lemma RunSuffix(c: Config, run: seq<Pass>, i: nat)
    requires IsRun(c, run) && i < |run|
    ensures IsRun(c, run[i..])
  {
    hide Reconcile, Lists;
    var tail := run[i..];
    forall x | 0 <= x < |tail| - 1 ensures EnvironmentStep(After(c, tail[x]), tail[x+1].before) {
      assert tail[x] == run[i+x] && tail[x+1] == run[i+x+1];
    }
  }

  lemma AwaitingLocksDown(c: Config, w: World, vs: seq<string>)
    requires w.stored.state == AwaitingUpgradeConfirmation
    ensures var w' := Reconcile(c, w, [], vs).0;
            w'.stored.state == UpgradeInProgress ==> w' == SetInitialPdbState(w, [], c.plan).0.(stored := w'.stored)
  {
    hide SetInitialPdbState;
    SetInitialKeepsStored(w, [], c.plan);
  }

  /**
   Where a pass without failing calls confirms the upgrade on a clean cluster, the rest of the
   run starts locked down, so that everything proved from a lock-down on holds of it.
   */
  lemma ConfirmationLocksDown(c: Config, run: seq<Pass>, i: nat)
    requires IsRun(c, run) && i + 1 < |run| && run[i].rs == []
    requires run[i].before.stored.state == AwaitingUpgradeConfirmation && CleanCluster(run[i].before, Names(c.plan))
    requires run[i+1].before.stored.state == UpgradeInProgress
    ensures StartsLockedDown(c, run[i].before, run[i+1..])
  {
    assert EnvironmentStep(After(c, run[i]), run[i+1].before);
    hide Reconcile, SetInitialPdbState, CleanCluster, IsRun;
    AwaitingLocksDown(c, run[i].before, run[i].vs);
    RunSuffix(c, run, i+1);
    assert run[i+1..][0] == run[i+1];
  }

  // ---------- clean passes outside an upgrade, exactly ----------

  /** Some node carries the taint that cordoning puts on it. */
  ghost predicate HasCordonTaint(nodes: seq<Node>) {
    exists i, j :: 0 <= i < |nodes| && 0 <= j < |nodes[i].taints|
      && nodes[i].taints[j].key == "node.kubernetes.io/unschedulable" && nodes[i].taints[j].effect == "NoSchedule"
  }

  lemma CordonedIff(nodes: seq<Node>)
    ensures Cordoned(nodes) <==> HasCordonTaint(nodes)
  {
    if Cordoned(nodes) {
      var n, t :| n in nodes && t in n.taints && t.key == CORDON_KEY && t.effect == NO_SCHEDULE;
      var i :| 0 <= i < |nodes| && nodes[i] == n;
      var j :| 0 <= j < |n.taints| && n.taints[j] == t;
    }
  }

  /** The status once it has been initialized, if it was not yet. */
  function Initialized(w: World): Orchestrator {
    if w.stored.state == Unset then w.stored.(state := NoUpgrade, lastTransition := w.now) else w.stored
  }

  /** What a clean pass does about cordoned nodes: it waits for confirmation from now on, or nothing. */
  ghost function Watched(w: World): World {
    w.(stored := if HasCordonTaint(w.nodes)
                 then w.stored.(state := AwaitingUpgradeConfirmation, lastTransition := w.now)
                 else Initialized(w))
  }

  /** Main result: without the mark of an upgrade a clean pass leaves NoUpgrade exactly on a cordoned node. */
  lemma CordonedNodeStartsWaiting(c: Config, w: World, vs: seq<string>)
    requires Quiet(w.stored.state) && w.stored.lastKnown != Some(UpgradeInProgress)
    ensures Reconcile(c, w, [], vs).0 == Watched(w)
  {
    CordonedIff(w.nodes);
    hide Cordoned, HasCordonTaint, Cleanup;
  }

  /**
   With the mark a clean pass does nothing while several versions are left; on a single one it
   cleans up and clears the mark if every planned workload is on it, and else watches the nodes.
   */
  lemma MarkedPassCleansUp(c: Config, w: World, vs: seq<string>)
    requires Quiet(w.stored.state) && w.stored.lastKnown == Some(UpgradeInProgress)
    ensures var w' := Reconcile(c, w, [], vs).0;
            if |vs| != 1 then w' == w.(stored := Initialized(w))
            else if exists d :: d in c.plan && !Migrated(w, d.name, vs[0]) then w' == Watched(w)
            else w' == With(Cleanup(w, [], c.plan).w, w).(stored := Initialized(w).(lastKnown := None))
  {
    CordonedIff(w.nodes);
    var w1 := w.(stored := Initialized(w));
    if |vs| == 1 {
      AllMigratedMeans(w1, [], PlanNames(c.plan), vs[0]);
      PlanIsMigrated(w, w1, c.plan, vs[0]);
      CleanupKeepsStored(w1, [], c.plan);
      CleanupDependsOnObjects(w, w1, c.plan);
      CleanupAnswered(w1, c.plan);
    }
    hide Cordoned, HasCordonTaint, Cleanup, AllMigrated, Migrated, PlanNames;
  }

  lemma PlanIsMigrated(a: World, b: World, plan: Plan, target: string)
    requires b == a.(stored := b.stored)
    ensures (forall n :: n in PlanNames(plan) ==> Migrated(b, n, target))
       <==> !exists d :: d in plan && !Migrated(a, d.name, target)
  {
    forall n ensures Migrated(a, n, target) <==> Migrated(b, n, target) {
      assert Resolve(a, n) == Resolve(b, n);
      assert forall wl :: OnTarget(a, wl, target) <==> OnTarget(b, wl, target);
    }
    hide Migrated;
    forall d | d in plan ensures d.name in PlanNames(plan) {
      var i :| 0 <= i < |plan| && plan[i] == d;
      assert PlanNames(plan)[i] == d.name;
    }
    forall n | n in PlanNames(plan) ensures exists d :: d in plan && d.name == n {
      var i :| 0 <= i < |plan| && PlanNames(plan)[i] == n;
      assert plan[i] in plan;
    }
  }

  /** The nodes, budgets and workloads of `a` with everything else from `b`. */
  function With(a: World, b: World): World {
    a.(stored := b.stored, pods := b.pods, now := b.now)
  }

  lemma {:induction false} UntaintDependsOnObjects(a: World, b: World, rs: Replies, i: nat)
    requires b == With(a, b) && i <= |a.nodes|
    ensures UntaintFrom(b, rs, i).1 == UntaintFrom(a, rs, i).1
    ensures UntaintFrom(b, rs, i).0 == With(UntaintFrom(a, rs, i).0, b)
    decreases |a.nodes| - i
  {
    if i < |a.nodes| {
      var n := a.nodes[i];
      if forall t :: t in n.taints ==> t.key != TAINT_KEY {
        UntaintDependsOnObjects(a, b, rs, i+1);
      } else {
        var nodes := if Applied(Next(rs)) then a.nodes[i := n.(taints := StripTaints(n.taints))] else a.nodes;
        UntaintDependsOnObjects(a.(nodes := nodes), b.(nodes := nodes), Rest(rs), i+1);
      }
    }
  }

  lemma {:induction false} CleanupAllDependsOnObjects(a: World, b: World, rs: Replies, plan: Plan)
    requires b == With(a, b)
    ensures CleanupAll(b, rs, plan).1 == CleanupAll(a, rs, plan).1
    ensures CleanupAll(b, rs, plan).0 == With(CleanupAll(a, rs, plan).0, b)
    decreases plan
  {
    if plan != [] {
      hide ReconcilePdb;
      EntryDependsOnObjects(a, b, rs, plan[0]);
      var (a1, rs1) := CleanupEntry(a, rs, plan[0]);
      CleanupAllDependsOnObjects(a1, CleanupEntry(b, rs, plan[0]).0, rs1, plan[1..]);
    }
  }

  lemma EntryDependsOnObjects(a: World, b: World, rs: Replies, e: Deployment)
    requires b == With(a, b)
    ensures CleanupEntry(b, rs, e).1 == CleanupEntry(a, rs, e).1
    ensures CleanupEntry(b, rs, e).0 == With(CleanupEntry(a, rs, e).0, b)
  {
    ReconcileDependsOnObjects(a, b, rs, e.name);
    hide StripTolerations, ReconcilePdb;
  }

  lemma ReconcileDependsOnObjects(a: World, b: World, rs: Replies, name: string)
    requires b == With(a, b)
    ensures GetWorkload(b, rs, name) == GetWorkload(a, rs, name)
    ensures var (rs1, key) := GetWorkload(a, rs, name);
            key.Some? ==>
              var out := ReconcilePdb(a, rs1, key.value, true);
              ReconcilePdb(b, rs1, key.value, true) == Outcome(With(out.w, b), out.rs, out.ok)
  {
    hide UnblockIntent, BlockIntent;
  }

  lemma {:induction false} CleanupAllAnswered(w: World, plan: Plan)
    ensures CleanupAll(w, [], plan).1 == []
    decreases plan
  {
    if plan != [] {
      GetWorkloadResolves(w, [], {}, plan[0].name);
      var key := Resolve(w, plan[0].name);
      if key.Some? {
        ReconcilePdbOutcome(w, [], key.value, true);
      }
      hide ReconcilePdb, IntentOf, StripTolerations;
      CleanupAllAnswered(CleanupEntry(w, [], plan[0]).0, plan[1..]);
    }
  }

  lemma CleanupAnswered(w: World, plan: Plan)
    ensures Cleanup(w, [], plan).ok && Cleanup(w, [], plan).rs == []
  {
    UntaintKeepsWorkloads(w, [], 0);
    CleanupAllAnswered(UntaintFrom(w, [], 0).0, plan);
    hide UntaintFrom, CleanupAll;
  }

  lemma CleanupDependsOnObjects(a: World, b: World, plan: Plan)
    requires b == With(a, b)
    ensures Cleanup(b, [], plan).w == With(Cleanup(a, [], plan).w, b)
  {
    UntaintDependsOnObjects(a, b, [], 0);
    var (a1, rs1) := UntaintFrom(a, [], 0);
    CleanupAllDependsOnObjects(a1, UntaintFrom(b, [], 0).0, rs1, plan);
    hide UntaintFrom, CleanupAll;
  }

  /** A clean Awaiting pass gives up after five minutes, waits, or confirms and locks the plan down. */
  lemma AwaitingPassExact(c: Config, w: World, vs: seq<string>)
    requires w.stored.state == AwaitingUpgradeConfirmation
    ensures var w' := Reconcile(c, w, [], vs).0;
            if w.now - w.stored.lastTransition > 300 then
              w' == w.(stored := w.stored.(state := NoUpgrade, lastTransition := w.now))
            else if |vs| != 2 then w' == w
            else
              var marked := w.stored.(lastKnown := Some(UpgradeInProgress));
              w' == SetInitialPdbState(w, [], c.plan).0.(stored :=
                      if c.refreshes then marked
                      else marked.(state := UpgradeInProgress, lastTransition := w.now))
  {
    hide SetInitialPdbState;
    SetInitialKeepsStored(w, [], c.plan);
  }

  /** A pass that cannot read the object, or finds a state it does not know, does nothing. */
  lemma OtherPassesDoNothing(c: Config, w: World, rs: Replies, vs: seq<string>)
    requires !Next(rs).Done? || w.stored.state == UnknownState
    ensures Reconcile(c, w, rs, vs).0 == w
  {}

  /** A pass that reads the object but cannot list the nodes does nothing. */
  lemma UnlistedNodesChangeNothing(c: Config, w: World, rs: Replies, vs: seq<string>)
    requires !Next(Rest(rs)).Done? && w.stored.state != Unset
    requires w.stored.state == AwaitingUpgradeConfirmation ==> w.now - w.stored.lastTransition <= 300
    ensures Reconcile(c, w, rs, vs).0 == w
  {
    hide AllMigrated, Cleanup, SetInitialPdbState, GrantAll, PrepareNodes;
  }

  /**
   Main result: a clean marked pass on a single version that every planned workload has reached
   gives back the cluster from before the upgrade, whatever had been done to it, and clears the mark.
   */
  lemma CleanupPassUndoes(c: Config, w0: World, ops: seq<(Operation, Replies)>, w: World, vs: seq<string>)
    requires CleanCluster(w0, Names(c.plan)) && OneKind(w0, Names(c.plan)) && AllConcern(ops, Names(c.plan))
    requires w == With(PerformAll(w0, ops), w)
    requires Quiet(w.stored.state) && w.stored.lastKnown == Some(UpgradeInProgress)
    requires |vs| == 1 && forall d :: d in c.plan ==> Migrated(w, d.name, vs[0])
    ensures var w' := Reconcile(c, w, [], vs).0;
            && SameButLabel(w0, With(w', w0))
            && w'.stored.lastKnown == None
  {
    hide Reconcile, Migrated, PerformAll, CleanCluster, SameButLabel;
    MarkedPassCleansUp(c, w, vs);
    CleanupUndoesUpgrade(w0, c.plan, ops);
    CleanupDependsOnObjects(PerformAll(w0, ops), w, c.plan);
    CleanWithoutStatus(w0, Cleanup(PerformAll(w0, ops), [], c.plan).w);
  }

  lemma CleanWithoutStatus(a: World, b: World)
    requires SameButLabel(a, b)
    ensures With(b, a) == b
  {}

  /** The mark goes only with a cleanup: one that could list the nodes, after every workload was seen. */
  lemma MarkGoesWithCleanup(c: Config, w: World, rs: Replies, vs: seq<string>)
    requires w.stored.state == NoUpgrade
    ensures var w' := Reconcile(c, w, rs, vs).0;
            w'.stored.lastKnown != w.stored.lastKnown ==>
              && |vs| == 1
              && var (rs1, all) := AllMigrated(w, Rest(Rest(rs)), PlanNames(c.plan), vs[0]);
                 var done := Cleanup(w, rs1, c.plan);
                 && all == Ok(true) && done.ok && w'.stored.lastKnown == None
                 && w'.nodes == done.w.nodes && w'.pdbs == done.w.pdbs && w'.workloads == done.w.workloads
  {
    hide AllMigrated, Cleanup, PlanNames;
    if |vs| == 1 {
      CleanupKeepsStored(w, AllMigrated(w, Rest(Rest(rs)), PlanNames(c.plan), vs[0]).0, c.plan);
    }
  }

  // ---------- the mark of an upgrade ----------

  /** An upgrade in progress has left its mark, by which it is recognized for cleanup afterwards. */
  ghost predicate Marked(o: Orchestrator) {
    o.state == UpgradeInProgress ==> o.lastKnown == Some(UpgradeInProgress)
  }

  lemma AwaitingMarks(c: Config, w: World, rs: Replies, vs: seq<string>)
    requires w.stored.state == AwaitingUpgradeConfirmation
    ensures Marked(HandleAwaiting(c, w, rs, vs).0.stored)
  {
    SetInitialKeepsStored(w, Rest(rs), c.plan);
    hide SetInitialPdbState;
  }

  /** The status is written only once the mark has been: whatever calls fail, no upgrade is unmarked. */
  lemma {:induction false} EveryUpgradeIsMarked(c: Config, run: seq<Pass>, i: nat)
    requires IsRun(c, run) && Marked(run[0].before.stored) && i < |run|
    ensures Marked(run[i].before.stored)
  {
    hide HandleNoUpgrade, HandleAwaiting, HandleInProgress, Cordoned;
    if i > 0 {
      EveryUpgradeIsMarked(c, run, i-1);
      assert EnvironmentStep(After(c, run[i-1]), run[i-1+1].before);
      var w, rs, vs := run[i-1].before, run[i-1].rs, run[i-1].vs;
      StateStep(c, w, rs, vs);
      if w.stored.state == UpgradeInProgress {
        PassEffect(c, w, rs, vs);
      } else if w.stored.state == AwaitingUpgradeConfirmation && Next(rs).Done? {
        AwaitingMarks(c, w, Rest(rs), vs);
      }
    }
  }
}
