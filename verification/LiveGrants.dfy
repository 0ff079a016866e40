/**
 What a toleration says about the guard: whatever calls fail, a workload that an upgrade has
 tolerated has its guard open, as long as no planned name is of both kinds.
 */
module LiveGrants {
  import opened Common
  import opened Api
  import opened DependencyGraph
  import opened SemVer
  import opened LiveModel
  import opened PdbLocks
  import opened UpgradeUndo
  import opened LivePass
  import opened LiveRuns
  import opened LiveRounds

  /** Locks only come off from `a` to `b`, as seen in the two budget lists. */
  ghost predicate NoneShut(w0: World, a: World, b: World, names: set<string>) {
    forall key :: key in w0.workloads && key.name in names && Shut(w0, b, key) ==> Shut(w0, a, key)
  }

  /** Every planned workload whose tolerations differ from `a` has its guard open in `b`. */
  ghost predicate ToleratedAreOpen(w0: World, a: World, b: World, names: set<string>) {
    && b.workloads.Keys == a.workloads.Keys == w0.workloads.Keys
    && forall key :: key in w0.workloads && key.name in names && b.workloads[key] != a.workloads[key] ==>
         !Shut(w0, b, key)
  }

  lemma ReleasedShutsNone(w0: World, a: World, b: World, ka: Locks, kb: Locks, names: set<string>, granted: set<string>)
    requires Based(w0, a, ka, names) && Based(w0, b, kb, names) && Released(w0, ka, kb, granted)
    ensures NoneShut(w0, a, b, names)
  {
    hide Based, Held, Shut, Apart;
    forall key | key in w0.workloads && key.name in names && Shut(w0, b, key) ensures Shut(w0, a, key) {
      ShutMeansHeld(w0, a, ka, names, key);
      ShutMeansHeld(w0, b, kb, names, key);
    }
  }

  /** An entry that adds a toleration has unblocked that very workload just before. */
  lemma GrantEntryOpens(w0: World, w: World, k: Locks, names: set<string>, rs: Replies, e: Deployment)
    requires Based(w0, w, k, names) && e.name in names && OneKind(w0, names)
    ensures ToleratedAreOpen(w0, w, GrantEntry(w, rs, e).0, names)
  {
    hide View, CleanPdbs, GoodLocks, DependenciesMet, IntentOf, LocksAfter, Held, Shut, ReconcilePdb;
    var w' := GrantEntry(w, rs, e).0;
    var (rs1, key) := GetWorkload(w, rs, e.name);
    GrantEntryEffect(w, rs, e);
    assert OneKind(w, names);
    GetWorkloadResolves(w, rs, names, e.name);
    if key.Some? {
      var rs2 := DependenciesMet(w, rs1, e.dependsOn).0;
      var out := ReconcilePdb(w, rs2, key.value, true);
      ReconcilePdbOutcome(w, rs2, key.value, true);
      UnblockOnBased(w0, w, k, names, key.value);
      UnblockReleasesAfter(w0, k, names, key.value);
      GetWorkloadResolves(out.w, out.rs, names, e.name);
      if out.ok && w'.workloads != w.workloads {
        OnlyToleratedKeepsShape(w0, w, w', {e.name});
        ShutMeansHeld(w0, w', LocksAfter(w0, k, key.value, true), names, key.value);
        OnlyOneTolerated(out.w, out.rs, e.name, key.value);
      }
    }
  }

  lemma OnlyOneTolerated(w: World, rs: Replies, name: string, key: Key)
    requires GetWorkload(w, rs, name).1 == None || GetWorkload(w, rs, name).1 == Some(key)
    ensures var w' := AddToleration(w, rs, name).w;
            && w' == w.(workloads := w'.workloads) && w'.workloads.Keys == w.workloads.Keys
            && forall other :: other in w.workloads && other != key ==> w'.workloads[other] == w.workloads[other]
  {}

  lemma {:induction false} GrantAllOpens(w0: World, w: World, k: Locks, names: set<string>, rs: Replies, plan: Plan)
    returns (k': Locks)
    requires Based(w0, w, k, names) && Names(plan) <= names && OneKind(w0, names)
    ensures Based(w0, GrantAll(w, rs, plan).0, k', names)
    ensures ToleratedAreOpen(w0, w, GrantAll(w, rs, plan).0, names) && NoneShut(w0, w, GrantAll(w, rs, plan).0, names)
    decreases plan
  {
    hide View, CleanPdbs, GoodLocks, GrantEntry, Shut, Released, OneKind;
    k' := k;
    if plan != [] {
      var e := plan[0];
      assert plan == [e] + plan[1..] && Names(plan[1..]) <= names && e.name in names;
      var (w1, rs1) := GrantEntry(w, rs, e);
      GrantEntryOpens(w0, w, k, names, rs, e);
      var k1 := GrantEntryLocks(w0, w, k, names, rs, e);
      ReleasedShutsNone(w0, w, w1, k, k1, names, if MayGrant(w, e, w.stored.targetVersion) then {e.name} else {});
      k' := GrantAllOpens(w0, w1, k1, names, rs1, plan[1..]);
      hide Based, MayGrant;
    }
  }

  lemma PassOpens(c: Config, w0: World, w: World, k: Locks, rs: Replies, vs: seq<string>)
    requires w.stored.state == UpgradeInProgress && Based(w0, w, k, Names(c.plan)) && OneKind(w0, Names(c.plan))
    ensures var w' := Reconcile(c, w, rs, vs).0;
            ToleratedAreOpen(w0, w, w', Names(c.plan)) && NoneShut(w0, w, w', Names(c.plan))
  {
    hide View, CleanPdbs, GoodLocks, Reconcile, GrantAll, Shut, DetermineTarget, OneKind;
    var p := PassStages(c, w, rs, vs);
    SamePdbsSameShut(w0, w, p.w);
    if p.ok {
      var k' := GrantAllOpens(w0, p.w, k, Names(c.plan), p.rs, c.plan);
    }
  }

  lemma SamePdbsSameShut(w0: World, a: World, b: World)
    requires a.pdbs == b.pdbs
    ensures forall key :: key in w0.workloads ==> (Shut(w0, a, key) <==> Shut(w0, b, key))
  {
    hide FindUserPdb;
  }

  /**
   Main result: from a lock-down on, in every run with any failing calls, a planned workload that
   has got the upgrade toleration has its guard open, the user's budget as it was or none of the
   operator's, unless some planned name is both a StatefulSet and a Deployment.
   */
  lemma {:induction false} ToleratedMeansOpen(c: Config, w0: World, run: seq<Pass>, i: nat)
    requires StartsLockedDown(c, w0, run) && OneKind(w0, Names(c.plan)) && i < |run|
    ensures forall key: Key :: key.name in Names(c.plan) && Tolerated(run[i].before, key) ==>
              key in w0.workloads && !Shut(w0, run[i].before, key)
  {
    hide View, CleanPdbs, GoodLocks, Reconcile, Shut, OneKind, Held;
    if i == 0 {
      var k0 := LockdownBase(c, w0, run);
    } else {
      ToleratedMeansOpen(c, w0, run, i-1);
      var k0 := LockdownBase(c, w0, run);
      var k := LocksOnlyReleased(c, w0, run, k0, Names(c.plan), i-1);
      UpgradeNeverLeaves(c, run, i-1);
      RunStep(c, run, i-1);
      var p := run[i-1];
      PassOpens(c, w0, p.before, k, p.rs, p.vs);
      SamePdbsSameShut(w0, After(c, p), run[i].before);
      hide StartsLockedDown;
    }
  }

  lemma LockdownBase(c: Config, w0: World, run: seq<Pass>) returns (k: Locks)
    requires StartsLockedDown(c, w0, run)
    ensures Based(w0, run[0].before, k, Names(c.plan)) && run[0].before.workloads == w0.workloads
  {
    hide View, GoodLocks;
    UntouchedIsBased(w0, Names(c.plan));
    k := SetInitialIsBased(w0, w0, NO_LOCKS, Names(c.plan), c.plan);
  }

  lemma {:induction false} SetInitialIsBased(w0: World, w: World, k: Locks, names: set<string>, plan: Plan)
    returns (k': Locks)
    requires Based(w0, w, k, names) && OwnSelectors(w0, k) && Names(plan) <= names
    ensures var w' := SetInitialPdbState(w, [], plan).0;
            w' == w.(pdbs := w'.pdbs) && Based(w0, w', k', names)
    decreases plan
  {
    hide Based, OwnSelectors, LockEntry;
    k' := k;
    if plan != [] {
      assert plan == [plan[0]] + plan[1..];
      assert Names(plan) == {plan[0].name} + Names(plan[1..]);
      var k1 := LockEntryExact(w0, w, k, names, plan[0]);
      k' := SetInitialIsBased(w0, LockEntry(w, [], plan[0]).0, k1, names, plan[1..]);
    }
  }
}
