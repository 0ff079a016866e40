/**
 The pass loop of the live controller against the layering of the plan: where nothing fails
 and the environment moves exactly what was granted, pass `i` unlocks and tolerates exactly
 what becomes startable in round `i`, for every plan; for a layered plan that is layer `i`.
 */
module LiveRounds {
  import opened Common
  import opened DependencyGraph
  import opened SemVer
  import opened LiveModel
  import opened PdbLocks
  import opened UpgradeUndo
  import opened LivePass
  import opened LiveRuns

  // ---------- the environment ----------

  ghost predicate NameTolerated(w: World, n: string) {
    Resolve(w, n).Some? && Tolerated(w, Resolve(w, n).value)
  }

  /** The planned names and whatever they list. */
  ghost function Mentioned(plan: Plan): set<string> {
    Names(plan) + set e, d | e in plan && d in e.dependsOn :: d
  }

  /** The planned names for which there is a workload. */
  ghost function Existing(w: World, plan: Plan): set<string> {
    set n | n in Names(plan) && Resolve(w, n).Some?
  }

  /**
   Everything starts on the old version without toleration, no call fails, the target stays the
   same, and between passes exactly the tolerated workloads move.
   */
  ghost predicate IdealUpgrade(c: Config, run: seq<Pass>, target: string) {
    && IsUpgradeRun(c, run) && target != ""
    && (forall i :: 0 <= i < |run| ==> run[i].rs == [] && DetermineTarget(c.parse, run[i].vs) == Ok(target))
    && (forall n :: n in Mentioned(c.plan) ==>
          !NameTolerated(run[0].before, n) && !Migrated(run[0].before, n, target))
    && (forall i, n :: 0 <= i < |run| - 1 && n in Mentioned(c.plan) ==>
          (Migrated(run[i+1].before, n, target) <==> NameTolerated(After(c, run[i]), n)))
  }

  // ---------- rounds ----------

  /** What can have started after `i` rounds. */
  ghost function Started(w0: World, plan: Plan, i: nat): set<string> {
    Startable(plan, Existing(w0, plan), i)
  }

  /** Something started by round `i` has its guard in common with `key`. */
  ghost predicate GuardStarted(w0: World, plan: Plan, key: Key, i: nat)
    requires key in w0.workloads
  {
    exists n :: n in Started(w0, plan, i) && SharesGuard(w0, n, key)
  }

  /** Exactly what started in `i` rounds is tolerated, and of the guards `k0` exactly its own are gone. */
  ghost predicate RoundsGranted(plan: Plan, w0: World, w: World, k0: Locks, k: Locks, i: nat) {
    && Based(w0, w, k, Names(plan))
    && (forall n :: n in Mentioned(plan) ==> (NameTolerated(w, n) <==> n in Started(w0, plan, i)))
    && forall key :: Primary(w0, key) ==> (Held(w0, k, key) <==> Held(w0, k0, key) && !GuardStarted(w0, plan, key, i))
  }

  ghost predicate RoundsMigrated(plan: Plan, w0: World, w: World, target: string, i: nat) {
    forall n :: n in Mentioned(plan) ==> (Migrated(w, n, target) <==> n in Started(w0, plan, i))
  }

  lemma SameShapeResolves(a: World, b: World, n: string)
    requires SameShape(a, b)
    ensures Resolve(a, n) == Resolve(b, n)
  {}

  /** An entry must be granted exactly when it can start in the next round. */
  lemma MustGrantMeansStartable(w0: World, w: World, plan: Plan, e: Deployment, target: string, i: nat)
    requires SameShape(w0, w) && RoundsMigrated(plan, w0, w, target, i) && e in plan && target != ""
    ensures MustGrant(w, e, target)
       <==> e.name in Existing(w0, plan) && forall d :: d in e.dependsOn ==> d in Started(w0, plan, i)
  {
    hide Migrated, SameShape, Startable;
    SameShapeResolves(w0, w, e.name);
    assert forall d :: d in e.dependsOn ==> d in Mentioned(plan);
  }

  lemma DueMeansNextRound(w0: World, w: World, plan: Plan, n: string, target: string, i: nat)
    requires SameShape(w0, w) && RoundsMigrated(plan, w0, w, target, i) && target != ""
    ensures MustGrantName(w, plan, n, target) <==> n in Started(w0, plan, i+1)
  {
    hide SameShape, MustGrant, RoundsMigrated, Existing;
    forall e | e in plan
      ensures MustGrant(w, e, target)
         <==> e.name in Existing(w0, plan) && forall d :: d in e.dependsOn ==> d in Started(w0, plan, i)
    {
      MustGrantMeansStartable(w0, w, plan, e, target, i);
    }
  }

  lemma GuardDueMeansNextRound(w0: World, w: World, plan: Plan, key: Key, target: string, i: nat)
    requires SameShape(w0, w) && RoundsMigrated(plan, w0, w, target, i) && target != "" && Primary(w0, key)
    ensures GuardDue(w0, w, plan, key, target) <==> GuardStarted(w0, plan, key, i+1)
  {
    hide SameShape, MustGrant, RoundsMigrated, Started, SharesGuard;
    forall n ensures MustGrantName(w, plan, n, target) <==> n in Started(w0, plan, i+1) {
      DueMeansNextRound(w0, w, plan, n, target, i);
    }
    if GuardDue(w0, w, plan, key, target) {
      var e :| e in plan && MustGrant(w, e, target) && SharesGuard(w0, e.name, key);
      assert MustGrantName(w, plan, e.name, target);
    }
    if GuardStarted(w0, plan, key, i+1) {
      var n :| n in Started(w0, plan, i+1) && SharesGuard(w0, n, key);
      assert MustGrantName(w, plan, n, target);
    }
  }

  lemma GuardStartedGrows(w0: World, plan: Plan, key: Key, i: nat)
    requires Primary(w0, key)
    ensures GuardStarted(w0, plan, key, i) ==> GuardStarted(w0, plan, key, i+1)
  {
    StartableGrows(plan, Existing(w0, plan), i, i+1);
  }

  /** One pass without failing calls grants the next round. */
  lemma OneRound(c: Config, w0: World, w: World, k0: Locks, k: Locks, vs: seq<string>, target: string, i: nat)
    returns (k': Locks)
    requires w.stored.state == UpgradeInProgress && DetermineTarget(c.parse, vs) == Ok(target) && target != ""
    requires RoundsGranted(c.plan, w0, w, k0, k, i) && RoundsMigrated(c.plan, w0, w, target, i)
    ensures RoundsGranted(c.plan, w0, Reconcile(c, w, [], vs).0, k0, k', i+1)
  {
    hide Reconcile, MustGrantName, Migrated, Held, Started, View, CleanPdbs, GoodLocks, DetermineTarget, SameShape,
         RoundsMigrated, GuardStarted, GuardDue, Tolerated, Mentioned;
    k' := PassExact(c, w0, w, k, Names(c.plan), vs);
    var w' := Reconcile(c, w, [], vs).0;
    StartedGrows(w0, c.plan, i);
    forall n | n in Mentioned(c.plan) ensures NameTolerated(w', n) <==> n in Started(w0, c.plan, i+1) {
      SameShapeResolves(w0, w, n);
      SameShapeResolves(w0, w', n);
      DueMeansNextRound(w0, w, c.plan, n, target, i);
      StartedExists(w0, c.plan, n, i+1);
    }
    forall key | Primary(w0, key)
      ensures Held(w0, k', key) <==> Held(w0, k0, key) && !GuardStarted(w0, c.plan, key, i+1)
    {
      GuardDueMeansNextRound(w0, w, c.plan, key, target, i);
      GuardStartedGrows(w0, c.plan, key, i);
    }
  }

  lemma StartedGrows(w0: World, plan: Plan, i: nat)
    ensures Started(w0, plan, i) <= Started(w0, plan, i+1)
  {
    StartableGrows(plan, Existing(w0, plan), i, i+1);
  }

  lemma StartedExists(w0: World, plan: Plan, n: string, i: nat)
    ensures n in Started(w0, plan, i) ==> n in Names(plan) && Resolve(w0, n).Some?
  {
    StartableAreNames(plan, Existing(w0, plan), i);
  }

  lemma NothingStarted(plan: Plan, w0: World, w: World, k: Locks)
    requires Based(w0, w, k, Names(plan)) && forall n :: n in Mentioned(plan) ==> !NameTolerated(w, n)
    ensures RoundsGranted(plan, w0, w, k, k, 0)
  {
    assert Started(w0, plan, 0) == {};
    hide Startable, Held, View, CleanPdbs, GoodLocks, SameShape;
  }

  lemma SameStateSameRounds(plan: Plan, w0: World, a: World, b: World, k0: Locks, k: Locks, i: nat)
    requires b.pdbs == a.pdbs && b.workloads == a.workloads && RoundsGranted(plan, w0, a, k0, k, i)
    ensures RoundsGranted(plan, w0, b, k0, k, i)
    ensures forall n :: NameTolerated(b, n) <==> NameTolerated(a, n)
  {
    hide Held, Started, View, CleanPdbs, GoodLocks, GuardStarted, Mentioned;
    assert forall n :: Resolve(a, n) == Resolve(b, n);
  }

  /** Pass `i` starts where the rounds before it are granted and migrated. */
  lemma {:induction false} BeforePass(c: Config, w0: World, run: seq<Pass>, target: string, k0: Locks, i: nat)
    returns (k: Locks)
    requires IdealUpgrade(c, run, target) && Based(w0, run[0].before, k0, Names(c.plan)) && i < |run|
    ensures RoundsGranted(c.plan, w0, run[i].before, k0, k, i)
    ensures RoundsMigrated(c.plan, w0, run[i].before, target, i)
  {
    hide Reconcile, Migrated, Based, IsRun, DetermineTarget, Started, GuardStarted, Held, Mentioned, NameTolerated;
    k := k0;
    if i == 0 {
      NothingStarted(c.plan, w0, run[0].before, k0);
    } else {
      var k1 := BeforePass(c, w0, run, target, k0, i-1);
      UpgradeNeverLeaves(c, run, i-1);
      k := OneRound(c, w0, run[i-1].before, k0, k1, run[i-1].vs, target, i-1);
      RunStep(c, run, i-1);
      SameStateSameRounds(c.plan, w0, After(c, run[i-1]), run[i].before, k0, k, i);
    }
  }

  lemma AfterPass(c: Config, w0: World, run: seq<Pass>, target: string, k0: Locks, i: nat) returns (k: Locks)
    requires IdealUpgrade(c, run, target) && Based(w0, run[0].before, k0, Names(c.plan)) && i < |run|
    ensures RoundsGranted(c.plan, w0, After(c, run[i]), k0, k, i+1)
  {
    hide Reconcile, Migrated, Based, IsRun, DetermineTarget, RoundsGranted, RoundsMigrated;
    var k1 := BeforePass(c, w0, run, target, k0, i);
    UpgradeNeverLeaves(c, run, i);
    k := OneRound(c, w0, run[i].before, k0, k1, run[i].vs, target, i);
  }

  // ---------- guards as budgets ----------

  /** The budget that guards the workload is locked: its user's one, or else one of the operator's. */
  ghost predicate Shut(w0: World, w: World, key: Key)
    requires key in w0.workloads
  {
    match FindUserPdb(w0.pdbs, w0.workloads[key])
    case Some(i) => i < |w.pdbs| && w.pdbs[i] == Locked(w0.pdbs[i])
    case None => NewBlocker(key.name, w0.workloads[key].selector) in w.pdbs
  }

  lemma ShutMeansHeld(w0: World, w: World, k: Locks, names: set<string>, key: Key)
    requires Based(w0, w, k, names) && key in w0.workloads && key.name in names
    ensures Shut(w0, w, key) <==> Held(w0, k, key)
    ensures var i := FindUserPdb(w0.pdbs, w0.workloads[key]);
            i.Some? && !Shut(w0, w, key) ==> i.value < |w.pdbs| && w.pdbs[i.value] == w0.pdbs[i.value]
  {
    hide FindUserPdb, BlockerName;
    var wl := w0.workloads[key];
    match FindUserPdb(w0.pdbs, wl)
    case Some(i) =>
      assert ORIGINAL_SPEC in Locked(w0.pdbs[i]).annotations;
    case None =>
      var own, p := Own(key.name, wl.selector), NewBlocker(key.name, wl.selector);
      if own in k.own {
        var j :| 0 <= j < |k.own| && k.own[j] == own;
        assert w.pdbs[|w0.pdbs| + j] == p;
      }
      if p in w.pdbs {
        var j :| 0 <= j < |w.pdbs| && w.pdbs[j] == p;
        assert j >= |w0.pdbs|;
        BlockerNameInjective(k.own[j - |w0.pdbs|].name, key.name);
        assert k.own[j - |w0.pdbs|] == own;
      }
  }

  // ---------- results for every plan ----------

  /**
   Main result, for every plan, cyclic or incomplete ones included: pass `i` first tolerates
   exactly what becomes startable in round `i`, and of the guards shut at the start exactly
   those in common with something started are open by then.
   */
  lemma PassesFollowRounds(c: Config, w0: World, run: seq<Pass>, target: string, k0: Locks, i: nat)
    requires IdealUpgrade(c, run, target) && Based(w0, run[0].before, k0, Names(c.plan)) && i < |run|
    ensures forall n :: n in Names(c.plan) ==>
      && (NameTolerated(run[i].before, n) <==> n in Started(w0, c.plan, i))
      && (NameTolerated(After(c, run[i]), n) <==> n in Started(w0, c.plan, i+1))
    ensures forall key :: Primary(w0, key) && key.name in Names(c.plan) ==>
      && (Shut(w0, run[i].before, key) <==> Shut(w0, run[0].before, key) && !GuardStarted(w0, c.plan, key, i))
      && (Shut(w0, After(c, run[i]), key) <==> Shut(w0, run[0].before, key) && !GuardStarted(w0, c.plan, key, i+1))
  {
    hide Reconcile, IdealUpgrade, Based, Held, Started, GuardStarted, Shut, NameTolerated;
    var k := BeforePass(c, w0, run, target, k0, i);
    var k' := AfterPass(c, w0, run, target, k0, i);
    forall key | Primary(w0, key) && key.name in Names(c.plan)
      ensures Shut(w0, run[i].before, key) <==> Shut(w0, run[0].before, key) && !GuardStarted(w0, c.plan, key, i)
      ensures Shut(w0, After(c, run[i]), key)
         <==> Shut(w0, run[0].before, key) && !GuardStarted(w0, c.plan, key, i+1)
    {
      ShutMeansHeld(w0, run[0].before, k0, Names(c.plan), key);
      ShutMeansHeld(w0, run[i].before, k, Names(c.plan), key);
      ShutMeansHeld(w0, After(c, run[i]), k', Names(c.plan), key);
    }
  }

  /** The guards of everything granted by pass `i`, shared or not, are open once it ends. */
  lemma GrantedGuardsAreOpen(c: Config, w0: World, run: seq<Pass>, target: string, k0: Locks, i: nat)
    requires IdealUpgrade(c, run, target) && Based(w0, run[0].before, k0, Names(c.plan)) && i < |run|
    ensures forall n :: n in Started(w0, c.plan, i+1) ==>
              Resolve(w0, n).Some? && !Shut(w0, After(c, run[i]), Resolve(w0, n).value)
  {
    hide IdealUpgrade, Based, Reconcile, NameTolerated, Shut, Started;
    PassesFollowRounds(c, w0, run, target, k0, i);
    forall n | n in Started(w0, c.plan, i+1)
      ensures Resolve(w0, n).Some? && !Shut(w0, After(c, run[i]), Resolve(w0, n).value)
    {
      StartedExists(w0, c.plan, n, i+1);
      assert SharesGuard(w0, n, Resolve(w0, n).value);
    }
  }

  /** After as many passes as there are names, exactly the names that are not doomed are tolerated. */
  lemma HealthyNamesAreGranted(c: Config, w0: World, run: seq<Pass>, target: string, k0: Locks, n: string)
    requires IdealUpgrade(c, run, target) && Based(w0, run[0].before, k0, Names(c.plan))
    requires DistinctNames(c.plan) && n in Names(c.plan) && |run| >= |Names(c.plan)|
    ensures NameTolerated(After(c, run[|Names(c.plan)| - 1]), n) <==> !Doomed(c.plan, Existing(w0, c.plan), n)
  {
    hide IdealUpgrade, Based, Reconcile, Doomed, NameTolerated;
    assert |Names(c.plan)| > 0;
    PassesFollowRounds(c, w0, run, target, k0, |Names(c.plan)| - 1);
    StartsIffNotDoomed(c.plan, Existing(w0, c.plan), n);
  }

  // ---------- results for layered plans ----------

  /** The guard is not in common with any other planned workload's. */
  ghost predicate OwnGuard(w0: World, plan: Plan, key: Key) {
    Primary(w0, key) && key.name in Names(plan) && Apart(w0, key, Names(plan) - {key.name})
  }

  lemma OwnGuardStarts(w0: World, plan: Plan, key: Key, i: nat)
    requires OwnGuard(w0, plan, key)
    ensures GuardStarted(w0, plan, key, i) <==> key.name in Started(w0, plan, i)
  {
    if GuardStarted(w0, plan, key, i) {
      var n :| n in Started(w0, plan, i) && SharesGuard(w0, n, key);
      StartedExists(w0, plan, n, i);
      var other := Resolve(w0, n).value;
      assert Share(w0, other, key) <==> Share(w0, key, other);
    }
    hide Startable;
  }

  lemma LayersAreRounds(w0: World, plan: Plan, i: nat)
    requires Build(plan).Ok? && Build(plan).value != [] && Names(plan) <= Existing(w0, plan)
    ensures var layers := Build(plan).value;
            && (i < |layers| ==> forall n :: n in layers[i] <==>
                  n in Started(w0, plan, i+1) && n !in Started(w0, plan, i))
            && (i >= |layers| - 1 ==> Names(plan) <= Started(w0, plan, i+1))
  {
    hide Startable, Existing, Resolved, DistinctNames, IsDepth;
    LayeredPlanIsNotEmpty(plan);
    LayeringSucceedsIff(plan);
    StartableIsResolved(plan, Existing(w0, plan), i);
    StartableIsResolved(plan, Existing(w0, plan), i+1);
    if i < Depth(plan) {
      LayerIsLevel(plan, i);
    }
    LayeringResolvesAll(plan);
    if i >= Depth(plan) - 1 {
      ResolvedGrows(plan, Depth(plan), i+1);
    }
  }

  lemma LayeredPlanIsNotEmpty(plan: Plan)
    requires Build(plan).Ok? && Build(plan).value != []
    ensures plan != []
  {
    LayerIsLevel(plan, 0);
    var n := Layers(plan)[0][0];
    assert n in Layers(plan)[0];
    assert n in Level(plan, 0) && n in Resolved(plan, 1);
  }

  /**
   Main result: for a layered plan all of whose workloads exist, the workloads first tolerated
   in pass `i` are exactly layer `i` of the layering, and of the workloads that were locked and
   share no budget the same ones are first unlocked in it. After as many passes as layers
   every workload is tolerated.
   */
  lemma PassesFollowLayers(c: Config, w0: World, run: seq<Pass>, target: string, k0: Locks, i: nat)
    requires IdealUpgrade(c, run, target) && Based(w0, run[0].before, k0, Names(c.plan)) && i < |run|
    requires Build(c.plan).Ok? && Build(c.plan).value != [] && Names(c.plan) <= Existing(w0, c.plan)
    ensures var layers := Build(c.plan).value;
            && (i < |layers| ==> forall n :: n in layers[i] <==>
                  n in Names(c.plan) && NameTolerated(After(c, run[i]), n) && !NameTolerated(run[i].before, n))
            && (i < |layers| ==> forall key :: OwnGuard(w0, c.plan, key) ==>
                  (Shut(w0, run[i].before, key) && !Shut(w0, After(c, run[i]), key)
                   <==> key.name in layers[i] && Shut(w0, run[0].before, key)))
            && (i >= |layers| - 1 ==> forall n :: n in Names(c.plan) ==> NameTolerated(After(c, run[i]), n))
  {
    hide IdealUpgrade, Based, Reconcile, NameTolerated, Shut, Started, Apart, Build, GuardStarted;
    PassesFollowRounds(c, w0, run, target, k0, i);
    LayersAreRounds(w0, c.plan, i);
    forall n ensures n in Started(w0, c.plan, i+1) ==> n in Names(c.plan) {
      StartedExists(w0, c.plan, n, i+1);
    }
    StartedGrows(w0, c.plan, i);
    forall key | OwnGuard(w0, c.plan, key)
      ensures GuardStarted(w0, c.plan, key, i) <==> key.name in Started(w0, c.plan, i)
      ensures GuardStarted(w0, c.plan, key, i+1) <==> key.name in Started(w0, c.plan, i+1)
    {
      OwnGuardStarts(w0, c.plan, key, i);
      OwnGuardStarts(w0, c.plan, key, i+1);
    }
  }

  /**
   From a lock-down on, for every plan: a workload that shares no budget and depends on something
   is locked, and allows no disruption, exactly until it has started; one without dependencies
   never is.
   */
  lemma GuardsFollowRounds(c: Config, w0: World, run: seq<Pass>, target: string, key: Key, i: nat)
    requires StartsLockedDown(c, w0, run) && IdealUpgrade(c, run, target) && i < |run|
    requires OwnGuard(w0, c.plan, key)
    ensures AlwaysDependent(c.plan, key.name) ==>
      && (Shut(w0, run[i].before, key) <==> key.name !in Started(w0, c.plan, i))
      && (Shut(w0, After(c, run[i]), key) <==> key.name !in Started(w0, c.plan, i+1))
    ensures AlwaysRoot(c.plan, key.name) ==> !Shut(w0, run[i].before, key) && !Shut(w0, After(c, run[i]), key)
    ensures Shut(w0, run[i].before, key) ==> key in run[i].before.workloads && ZeroBudget(run[i].before, key)
  {
    hide IdealUpgrade, Reconcile, Shut, Held, Apart, StartsLockedDown, Started, GuardStarted, ZeroBudget,
         View, CleanPdbs, GoodLocks, AlwaysDependent, AlwaysRoot, Names, NameTolerated, Mentioned;
    var k0 := LockdownHolds(c, w0, run, key);
    ShutMeansHeld(w0, run[0].before, k0, Names(c.plan), key);
    PassesFollowRounds(c, w0, run, target, k0, i);
    OwnGuardStarts(w0, c.plan, key, i);
    OwnGuardStarts(w0, c.plan, key, i+1);
    if Shut(w0, run[i].before, key) {
      var k := BeforePass(c, w0, run, target, k0, i);
      ShutMeansHeld(w0, run[i].before, k, Names(c.plan), key);
      HeldIsZeroBudget(w0, run[i].before, k, Names(c.plan), key);
    }
  }

  /**
   Main result: from a lock-down on, a workload that shares no budget is locked exactly until
   the pass of its layer. Those of the first layer never are; one of layer `j > 0` allows no
   disruption before pass `j` and is unlocked in it.
   */
  lemma GuardsFollowLayers(c: Config, w0: World, run: seq<Pass>, target: string, key: Key, j: nat, i: nat)
    requires StartsLockedDown(c, w0, run) && IdealUpgrade(c, run, target) && i < |run|
    requires Build(c.plan).Ok? && Names(c.plan) <= Existing(w0, c.plan)
    requires OwnGuard(w0, c.plan, key) && key.name in Level(c.plan, j)
    ensures Shut(w0, run[i].before, key) <==> 0 < j && i <= j
    ensures Shut(w0, After(c, run[i]), key) <==> 0 < j && i < j
    ensures 0 < j && i <= j ==> key in run[i].before.workloads && ZeroBudget(run[i].before, key)
  {
    hide IdealUpgrade, Reconcile, Shut, OwnGuard, StartsLockedDown, Existing, ZeroBudget, Build, Level,
         AlwaysDependent, AlwaysRoot, Names, Resolved, Startable;
    LevelIsAlike(c.plan, key.name, j);
    GuardsFollowRounds(c, w0, run, target, key, i);
    StartableIsResolved(c.plan, Existing(w0, c.plan), i);
    StartableIsResolved(c.plan, Existing(w0, c.plan), i+1);
    LevelMeansRounds(c.plan, key.name, j, i);
    LevelMeansRounds(c.plan, key.name, j, i+1);
  }

  lemma LevelMeansRounds(plan: Plan, n: string, j: nat, i: nat)
    requires n in Level(plan, j)
    ensures n in Resolved(plan, i) <==> j < i
  {
    if j < i { ResolvedGrows(plan, j+1, i); } else { ResolvedGrows(plan, i, j); }
  }

  /** In a layered plan a name of layer 0 has no dependencies, and any other has some. */
  lemma LevelIsAlike(plan: Plan, n: string, j: nat)
    requires Build(plan).Ok? && n in Level(plan, j)
    ensures DistinctNames(plan)
    ensures j == 0 ==> AlwaysRoot(plan, n)
    ensures j > 0 ==> AlwaysDependent(plan, n)
  {
    assert Layers(plan) != [] by { LevelOfLayered(plan, n, j); }
    LayeredPlanIsNotEmpty(plan);
    LayeringSucceedsIff(plan);
    assert j == 0 ==> Deps(plan, n) == {};
    forall e | e in plan && e.name == n ensures e.dependsOn == [] <==> j == 0 {
      assert Deps(plan, n) == set d | d in e.dependsOn by {
        forall f | f in plan && f.name == n ensures f == e {}
      }
      if e.dependsOn == [] {
        assert n in Resolved(plan, 1);
        LevelMeansRounds(plan, n, j, 1);
      } else {
        assert e.dependsOn[0] in Deps(plan, n);
      }
    }
  }

  lemma LevelOfLayered(plan: Plan, n: string, j: nat)
    requires n in Level(plan, j)
    ensures Depth(plan) > 0
  {
    if Depth(plan) == 0 {
      EmptyLevelIsFixpoint(plan, 0, j+1);
    }
  }
}
