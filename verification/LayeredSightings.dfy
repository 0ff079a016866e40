/**
 What the layered controller's sightings are worth: each one is true of the pods and of the
 target of the pass that made it, and a budget is opened only after such a sighting of
 everything beneath. Whether the target is still the same by then is another matter: the exact
 condition closes the module.
 */
module LayeredSightings {
  import opened Common
  import opened Api
  import opened DependencyGraph
  import opened SemVer
  import opened LayeredModel
  import opened LayeredSafety
  import opened LayeredProgress

  // ---------- the events of one pass ----------

  /** The version a pass takes for the target; empty while none is visible. */
  ghost function TargetOf(p: Pass): string {
    var t := FindTarget(p.c.parse, p.before.nodes, []).1;
    if t.Ok? then t.value.version else ""
  }

  predicate Sighting(e: Event, app: string, version: string) {
    e.SeenOnTarget? && e.app == app && e.version == version
  }

  predicate Opening(e: Event) {
    e.BudgetSet? && e.value != 0
  }

  /** The pass took the event's version for the target, and all of the app's pods had moved to it. */
  ghost predicate TrueSighting(p: Pass, e: Event) {
    && e.SeenOnTarget? && e.version != "" && e.version == TargetOf(p)
    && AppMoved(p.c.parse, p.before, e.app, e.version)
  }

  /** Same nodes and pods; new sightings are true and of `target`, and only apps of `layer` were opened. */
  ghost predicate Honest(parse: Parser, a: World, b: World, target: string, layer: set<string>) {
    && b.nodes == a.nodes && b.pods == a.pods && a.log <= b.log
    && forall l :: |a.log| <= l < |b.log| ==>
         && (b.log[l].SeenOnTarget? ==> b.log[l].version == target && AppMoved(parse, a, b.log[l].app, target))
         && (Opening(b.log[l]) ==> b.log[l].app in layer)
  }

  /** Between the two logs the app was seen on the version. */
  ghost predicate SawIn(a: seq<Event>, b: seq<Event>, app: string, version: string) {
    exists l :: |a| <= l < |b| && Sighting(b[l], app, version)
  }

  lemma HonestTransitive(parse: Parser, a: World, b: World, c: World, target: string, layer: set<string>)
    requires Honest(parse, a, b, target, layer) && Honest(parse, b, c, target, layer)
    ensures Honest(parse, a, c, target, layer)
  {
    assert forall app :: AppMoved(parse, a, app, target) == AppMoved(parse, b, app, target);
    hide AppMoved;
    forall l | |a.log| <= l < |c.log|
      ensures c.log[l].SeenOnTarget? ==> c.log[l].version == target && AppMoved(parse, a, c.log[l].app, target)
      ensures Opening(c.log[l]) ==> c.log[l].app in layer
    {
      if l < |b.log| { assert c.log[l] == b.log[l]; }
    }
  }

  lemma SawInGrows(a: seq<Event>, b: seq<Event>, c: seq<Event>, d: seq<Event>, app: string, version: string)
    requires a <= b <= c <= d && SawIn(b, c, app, version)
    ensures SawIn(a, d, app, version)
  {
    var l :| |b| <= l < |c| && Sighting(c[l], app, version);
    assert d[l] == c[l];
  }

  lemma {:induction false} EnsureAllIsHonest(parse: Parser, w: World, rs: Replies, apps: seq<string>, value: int,
                                             target: string, layer: set<string>)
    requires value != 0 ==> forall app :: app in apps ==> app in layer
    ensures Honest(parse, w, EnsureAll(w, rs, apps, value).w, target, layer)
    decreases apps
  {
    hide AppMoved, EnsurePdb;
    if apps != [] {
      EnsureWritesOnce(w, rs, apps[0], value, RETRY_STEPS);
      var out := EnsurePdb(w, rs, apps[0], value, RETRY_STEPS);
      EnsureAllIsHonest(parse, out.w, out.rs, apps[1..], value, target, layer);
      HonestTransitive(parse, w, out.w, EnsureAll(out.w, out.rs, apps[1..], value).w, target, layer);
    }
  }

  /** Nothing was seen and nothing opened. */
  ghost predicate Silent(a: World, b: World) {
    a.log <= b.log && forall l :: |a.log| <= l < |b.log| ==> !b.log[l].SeenOnTarget? && !Opening(b.log[l])
  }

  lemma SilentTransitive(a: World, b: World, c: World)
    requires Silent(a, b) && Silent(b, c)
    ensures Silent(a, c)
  {
    forall l | |a.log| <= l < |c.log| ensures !c.log[l].SeenOnTarget? && !Opening(c.log[l]) {
      if l < |b.log| { assert c.log[l] == b.log[l]; }
    }
  }

  lemma {:induction false} CheckAppsIsSilent(w: World, rs: Replies, apps: seq<string>)
    ensures Silent(w, CheckApps(w, rs, apps, 0).w)
    decreases apps
  {
    hide EnsurePdb;
    if apps != [] {
      EnsureWritesOnce(w, Rest(rs), apps[0], 0, RETRY_STEPS);
      var a := IsPdbInState(w, rs, apps[0], 0);
      CheckAppsIsSilent(a.w, a.rs, apps[1..]);
      SilentTransitive(w, a.w, CheckApps(a.w, a.rs, apps[1..], 0).w);
    }
  }

  /** Looking logs what is true, and with a yes every app. */
  lemma {:induction false} AllOnTargetIsHonest(parse: Parser, w: World, rs: Replies, apps: seq<string>,
                                               target: string, layer: set<string>)
    ensures var a := AllOnTarget(parse, w, rs, apps, target);
            && Honest(parse, w, a.w, target, layer)
            && (a.r == Ok(true) ==> forall app :: app in apps ==> SawIn(w.log, a.w.log, app, target))
    decreases apps
  {
    hide AppMoved, IsAppOnTarget;
    if apps != [] {
      var (rs1, migrated) := IsAppOnTarget(parse, w, rs, apps[0], target);
      IsAppOnTargetMeans(parse, w, rs, apps[0], target);
      if migrated == Ok(true) {
        var w1 := Observed(w, apps[0], target);
        var a := AllOnTarget(parse, w1, rs1, apps[1..], target);
        AllOnTargetIsHonest(parse, w1, rs1, apps[1..], target, layer);
        HonestTransitive(parse, w, w1, a.w, target, layer);
        assert Sighting(w1.log[|w.log|], apps[0], target);
        hide Honest;
        SawInGrows(w.log, w.log, w1.log, a.w.log, apps[0], target);
        forall app | app in apps && a.r == Ok(true) ensures SawIn(w.log, a.w.log, app, target) {
          if app != apps[0] { SawInGrows(w.log, w1.log, a.w.log, a.w.log, app, target); }
        }
      }
    }
  }

  /** The cursor moves on only when every app of the layer has been seen in this very pass. */
  lemma ProcessLayerIsHonest(parse: Parser, w: World, rs: Replies, apps: seq<string>, target: string,
                             layer: set<string>)
    requires forall app :: app in apps ==> app in layer
    ensures var w' := ProcessLayer(parse, w, rs, apps, target);
            && Honest(parse, w, w', target, layer) && EnsureAll(w, rs, apps, 1).w.log <= w'.log
            && (w'.currentLayer != w.currentLayer ==> forall app :: app in apps ==> SawIn(w.log, w'.log, app, target))
  {
    hide EnsureAll, AllOnTarget, AppMoved, SawIn;
    var raised := EnsureAll(w, rs, apps, 1);
    EnsureAllWrites(w, rs, apps, 1);
    EnsureAllIsHonest(parse, w, rs, apps, 1, target, layer);
    if raised.ok {
      var a := AllOnTarget(parse, raised.w, raised.rs, apps, target);
      AllOnTargetIsHonest(parse, raised.w, raised.rs, apps, target, layer);
      AllOnTargetKeepsRest(parse, raised.w, raised.rs, apps, target);
      HonestTransitive(parse, w, raised.w, a.w, target, layer);
      if a.r == Ok(true) {
        var closed := EnsureAll(a.w, a.rs, apps, 0);
        EnsureAllWrites(a.w, a.rs, apps, 0);
        EnsureAllIsHonest(parse, a.w, a.rs, apps, 0, target, layer);
        HonestTransitive(parse, w, a.w, closed.w, target, layer);
        var w' := ProcessLayer(parse, w, rs, apps, target);
        assert Honest(parse, closed.w, w', target, layer);
        HonestTransitive(parse, w, closed.w, w', target, layer);
        forall app | app in apps ensures SawIn(w.log, w'.log, app, target) {
          SawInGrows(w.log, raised.w.log, a.w.log, w'.log, app, target);
        }
      }
    }
  }

  /** What a pass may log: true sightings, and openings in the current layer, both only while Upgrading. */
  ghost predicate EventOf(plan: Plan, p: Pass, e: Event) {
    && (e.SeenOnTarget? ==> TrueSighting(p, e))
    && (e.SeenOnTarget? || Opening(e) ==> p.before.phase == Upgrading && Build(plan).Ok?)
    && (Opening(e) ==> p.before.currentLayer < Depth(plan) && e.app in Level(plan, p.before.currentLayer))
  }

  ghost function LogAfter(p: Pass): seq<Event> {
    Reconcile(p.c, p.before, p.rs).log
  }

  /** The pass moved on to the next layer. */
  ghost predicate MovesOn(p: Pass) {
    && p.before.phase == Upgrading && Reconcile(p.c, p.before, p.rs).phase == Upgrading
    && Reconcile(p.c, p.before, p.rs).currentLayer != p.before.currentLayer
  }

  ghost predicate SawDuring(p: Pass, app: string, version: string) {
    SawIn(p.before.log, LogAfter(p), app, version)
  }

  lemma CheckingIsSilent(parse: Parser, w: World, rs: Replies, layers: seq<seq<string>>)
    ensures Silent(w, ReconcileInitializing(w, rs, layers))
    ensures Silent(w, ReconcileIdle(parse, w, rs, layers))
  {
    hide CheckApps, FindTarget, Flatten;
    CheckAppsIsSilent(w, rs, Flatten(layers));
  }

  lemma UpgradingIsHonest(plan: Plan, parse: Parser, w: World, rs: Replies)
    requires w.phase == Upgrading
    ensures var k, w' := w.currentLayer, ReconcileUpgrading(parse, w, rs, Layers(plan));
            var t := FindTarget(parse, w.nodes, []).1;
            var target := if t.Ok? then t.value.version else "";
            && (target != "" ==> Honest(parse, w, w', target, CurrentApps(plan, k)))
            && (target == "" ==> Silent(w, w'))
            && (w'.phase == Upgrading && w'.currentLayer != k ==>
                  k < Depth(plan) && forall app :: app in Level(plan, k) ==> SawIn(w.log, w'.log, app, target))
  {
    hide AppMoved, ProcessLayer, FindTarget, Layers, Level, SawIn;
    var k := w.currentLayer;
    var (rs2, t) := FindTarget(parse, w.nodes, rs);
    TargetFromNodes(parse, w.nodes, rs);
    if t.Ok? && t.value.version != "" && k < Depth(plan) {
      LayerIsLevel(plan, k);
      ProcessLayerIsHonest(parse, w, rs2, Layers(plan)[k], t.value.version, Level(plan, k));
    }
  }

  /** Every pass from every phase, whatever its calls answer, logs only such events. */
  lemma PassIsHonest(plan: Plan, p: Pass)
    requires Build(p.c.plan) == Build(plan)
    ensures p.before.log <= LogAfter(p)
    ensures forall l :: |p.before.log| <= l < |LogAfter(p)| ==> EventOf(plan, p, LogAfter(p)[l])
    ensures MovesOn(p) ==> Build(plan).Ok? && p.before.currentLayer < Depth(plan)
    ensures MovesOn(p) ==> forall app :: app in Level(plan, p.before.currentLayer) ==> SawDuring(p, app, TargetOf(p))
  {
    hide AppMoved, FindTarget, Layers, Level, SawIn, ReconcileInitializing, ReconcileIdle, ReconcileUpgrading;
    var w, rs := p.before, Rest(p.rs);
    CheckingIsSilent(p.c.parse, w, rs, Layers(plan));
    if w.phase == Upgrading {
      UpgradingIsHonest(plan, p.c.parse, w, rs);
    }
  }

  // ---------- whole runs ----------

  /** The event at this position of the log is from pass `j`. */
  ghost predicate LoggedBy(run: seq<Pass>, j: nat, l: nat)
    requires j < |run|
  {
    |run[j].before.log| <= l < |LogAfter(run[j])|
  }

  /** The event's pass took the log thus far, and the event is one it may log. */
  lemma {:induction false} EventHasItsPass(plan: Plan, run: seq<Pass>, i: nat, l: nat) returns (j: nat)
    requires IsRun(plan, run) && i < |run| && l < |LogAfter(run[i])|
    ensures j <= i && LoggedBy(run, j, l) && EventOf(plan, run[j], LogAfter(run[i])[l])
    ensures LogAfter(run[j]) <= LogAfter(run[i]) && run[j].before.log <= LogAfter(run[j])
  {
    hide Reconcile, EventOf, Build, Inv;
    LayeringIgnoresOrder(run[i].c.plan, plan);
    PassIsHonest(plan, run[i]);
    j := i;
    if l < |run[i].before.log| {
      assert i > 0;
      RunStep(plan, run, i-1);
      j := EventHasItsPass(plan, run, i-1, l);
    }
  }

  /** A run that begins with no upgrade under way has the start of each in its log. */
  lemma {:induction false} UpgradeIsLogged(plan: Plan, run: seq<Pass>, i: nat)
    requires IsFreshRun(plan, run) && i < |run| && run[i].before.phase == Upgrading
    ensures START in run[i].before.log
  {
    hide Reconcile, EventOf, Build, Inv, IsRun;
    assert i > 0;
    RunStep(plan, run, i-1);
    var p := run[i-1];
    if p.before.phase == Upgrading {
      UpgradeIsLogged(plan, run, i-1);
      PassIsHonest(plan, p);
    } else {
      PassFollowsProtocol(plan, p.c, p.before, p.rs);
    }
  }

  /**
   Main result: whenever a run's log shows a budget opened, everything that app depends on,
   directly or not, was seen before that and since the upgrade started, and the sighting was
   true: all pods of the dependency had moved to what its pass took for the target.
   */
  lemma OpenedOnlyAfterDependencies(plan: Plan, run: seq<Pass>, i: nat, m: nat, d: string) returns (j: nat, l: nat)
    requires IsFreshRun(plan, run) && i < |run|
    requires var log := LogAfter(run[i]);
             m < |log| && Opening(log[m]) && DependsTransitively(plan, log[m].app, d)
    ensures l < m && j <= i && LoggedBy(run, j, l)
    ensures var log := LogAfter(run[i]);
            && log[l].SeenOnTarget? && log[l].app == d && TrueSighting(run[j], log[l])
            && forall x :: l < x < m ==> log[x] != START
  {
    hide Reconcile, KnownSeen, DependsTransitively, EventOf, Inv;
    var log := LogAfter(run[i]);
    assert DependenciesSeen(plan, log[m].app, log[..m]) by {
      RunKeepsInv(plan, run, i);
      InvIsOrdered(plan, Reconcile(run[i].c, run[i].before, run[i].rs));
    }
    var opener := EventHasItsPass(plan, run, i, m);
    OpeningIsInUpgrade(plan, run[opener], log[m]);
    UpgradeIsLogged(plan, run, opener);
    var started := run[opener].before.log;
    assert log[..m][..|started|] == started;
    l := KnownIsSeen(log, m, d);
    j := EventHasItsPass(plan, run, i, l);
    SightingIsTrue(plan, run[j], log[l]);
  }

  lemma InvIsOrdered(plan: Plan, w: World)
    requires Inv(plan, w)
    ensures Ordered(plan, w.log)
  {}

  lemma OpeningIsInUpgrade(plan: Plan, p: Pass, e: Event)
    requires EventOf(plan, p, e) && Opening(e)
    ensures p.before.phase == Upgrading
  {}

  lemma SightingIsTrue(plan: Plan, p: Pass, e: Event)
    requires EventOf(plan, p, e) && e.SeenOnTarget?
    ensures TrueSighting(p, e)
  {}

  lemma KnownIsSeen(log: seq<Event>, m: nat, d: string) returns (l: nat)
    requires m <= |log| && KnownSeen(log[..m], d) && START in log[..m]
    ensures l < m && log[l].SeenOnTarget? && log[l].app == d && forall x :: l < x < m ==> log[x] != START
  {
    var before := log[..m];
    l :| 0 <= l < |before| && before[l].SeenOnTarget? && before[l].app == d
      && forall y :: l < y < |before| ==> before[y] != START;
    assert forall y :: l < y < m ==> log[y] == before[y];
  }

  /** The upgrade that pass `i` belongs to was started by pass `s`. */
  ghost predicate UpgradeSince(run: seq<Pass>, s: nat, i: nat) {
    && s < i < |run| && run[s].before.phase != Upgrading
    && forall j :: s < j <= i ==> run[j].before.phase == Upgrading
  }

  lemma {:induction false} UpgradeHasStart(plan: Plan, run: seq<Pass>, i: nat) returns (s: nat)
    requires IsFreshRun(plan, run) && i < |run| && run[i].before.phase == Upgrading
    ensures UpgradeSince(run, s, i)
  {
    hide Reconcile, Depth;
    s := i - 1;
    if run[i-1].before.phase == Upgrading {
      s := UpgradeHasStart(plan, run, i-1);
    }
  }

  lemma {:induction false} CursorOnlyRises(plan: Plan, run: seq<Pass>, s: nat, a: nat, b: nat, i: nat)
    requires IsFreshRun(plan, run) && Build(plan).Ok? && UpgradeSince(run, s, i) && s < a <= b <= i
    ensures run[a].before.currentLayer <= run[b].before.currentLayer
  {
    hide IsRun, Build;
    if a < b {
      CursorOnlyRises(plan, run, s, a, b-1, i);
      CursorStaysInRange(plan, run, b);
    }
  }

  /** Every layer below the cursor was left by a pass of the same upgrade. */
  lemma {:induction false} LayerWasLeft(plan: Plan, run: seq<Pass>, s: nat, i: nat, k: nat) returns (j: nat)
    requires IsFreshRun(plan, run) && Build(plan).Ok? && UpgradeSince(run, s, i) && k < run[i].before.currentLayer
    ensures s < j < i && MovesOn(run[j]) && run[j].before.currentLayer == k
  {
    hide IsRun, Build, Reconcile, Inv, Depth;
    CursorStaysInRange(plan, run, i);
    RunStep(plan, run, i-1);
    j := i - 1;
    if k < run[i-1].before.currentLayer {
      j := LayerWasLeft(plan, run, s, i-1, k);
    }
  }

  /** The pass that left layer `k` saw `d` on this version. */
  ghost predicate LeftOn(run: seq<Pass>, s: nat, i: nat, k: nat, d: string, version: string)
    requires i <= |run|
  {
    exists j :: s < j < i && MovesOn(run[j]) && run[j].before.currentLayer == k && SawDuring(run[j], d, version)
  }

  /** Every app below the cursor was seen on this version by the very pass that left its layer. */
  ghost predicate BelowOn(plan: Plan, run: seq<Pass>, s: nat, i: nat, version: string)
    requires i < |run|
  {
    forall k, d :: 0 <= k < run[i].before.currentLayer && k < Depth(plan) && d in Level(plan, k) ==>
      LeftOn(run, s, i, k, d, version)
  }

  /** The passes that left a layer all took this version for the target. */
  ghost predicate LeftFor(run: seq<Pass>, s: nat, i: nat, version: string)
    requires i <= |run|
  {
    forall j :: s < j < i && MovesOn(run[j]) ==> TargetOf(run[j]) == version
  }

  lemma PassOfRun(plan: Plan, run: seq<Pass>, j: nat)
    requires IsRun(plan, run) && j < |run|
    ensures forall app, v :: SawDuring(run[j], app, v) ==>
              v == TargetOf(run[j]) && AppMoved(run[j].c.parse, run[j].before, app, v)
    ensures MovesOn(run[j]) ==> run[j].before.currentLayer < Depth(plan)
    ensures MovesOn(run[j]) ==>
              forall app :: app in Level(plan, run[j].before.currentLayer) ==> SawDuring(run[j], app, TargetOf(run[j]))
  {
    LayeringIgnoresOrder(run[j].c.plan, plan);
    PassIsHonest(plan, run[j]);
    hide Reconcile, AppMoved, Build, TargetOf, Level;
  }

  /**
   Main result, the exact condition: every pass that left a layer saw all of it on the version
   that the upgrade is heading for now exactly when every such pass had that target. (An app may
   also have been seen on it by a pass that did not leave the layer.)
   */
  lemma SeenOnCurrentTargetIff(plan: Plan, run: seq<Pass>, s: nat, i: nat)
    requires IsFreshRun(plan, run) && Build(plan).Ok? && UpgradeSince(run, s, i)
    ensures BelowOn(plan, run, s, i, TargetOf(run[i])) <==> LeftFor(run, s, i, TargetOf(run[i]))
  {
    hide IsRun, Reconcile, Build, AppMoved, TargetOf, SawIn;
    var version := TargetOf(run[i]);
    if LeftFor(run, s, i, version) {
      forall k, d | 0 <= k < run[i].before.currentLayer && k < Depth(plan) && d in Level(plan, k)
        ensures LeftOn(run, s, i, k, d, version)
      {
        var j := LayerWasLeft(plan, run, s, i, k);
        PassOfRun(plan, run, j);
      }
    }
    if BelowOn(plan, run, s, i, version) {
      forall j | s < j < i && MovesOn(run[j]) ensures TargetOf(run[j]) == version {
        LeftLayerSeenOn(plan, run, s, i, j, version);
      }
    }
  }

  lemma LeftLayerSeenOn(plan: Plan, run: seq<Pass>, s: nat, i: nat, j: nat, version: string)
    requires IsFreshRun(plan, run) && Build(plan).Ok? && UpgradeSince(run, s, i)
    requires s < j < i && MovesOn(run[j]) && BelowOn(plan, run, s, i, version)
    ensures TargetOf(run[j]) == version
  {
    hide IsRun, Reconcile, Build, AppMoved, TargetOf, SawIn;
    var k := run[j].before.currentLayer;
    PassOfRun(plan, run, j);
    CursorAfterMove(plan, run, s, i, j);
    assert Busy(plan, k);
    var d :| d in Level(plan, k);
    assert LeftOn(run, s, i, k, d, version);
    var x :| s < x < i && MovesOn(run[x]) && run[x].before.currentLayer == k && SawDuring(run[x], d, version);
    PassOfRun(plan, run, x);
    if x < j {
      CursorAfterMove(plan, run, s, j, x);
    } else if j < x {
      CursorAfterMove(plan, run, s, x, j);
    }
  }

  /** Once a layer has been left the cursor stays above it. */
  lemma CursorAfterMove(plan: Plan, run: seq<Pass>, s: nat, i: nat, j: nat)
    requires IsFreshRun(plan, run) && Build(plan).Ok? && s < j < i < |run| && MovesOn(run[j])
    requires exists x :: i <= x && UpgradeSince(run, s, x)
    ensures run[j].before.currentLayer < run[i].before.currentLayer
  {
    hide IsRun, Build, Reconcile, Inv;
    var x :| i <= x && UpgradeSince(run, s, x);
    RunStep(plan, run, j);
    CursorStaysInRange(plan, run, j+1);
    CursorOnlyRises(plan, run, s, j+1, i, x);
  }

  /**
   Under that condition the order is kept in the sense that matters: when a pass opens a budget,
   all pods of everything beneath had moved to its own target in an earlier pass of the upgrade.
   */
  lemma OpenedOnCurrentTarget(plan: Plan, run: seq<Pass>, s: nat, i: nat, m: nat, d: string) returns (j: nat)
    requires IsFreshRun(plan, run) && UpgradeSince(run, s, i) && LoggedBy(run, i, m)
    ensures var e := LogAfter(run[i])[m];
            LeftFor(run, s, i, TargetOf(run[i])) && Opening(e) && DependsTransitively(plan, e.app, d) ==>
              s < j < i && AppMoved(run[j].c.parse, run[j].before, d, TargetOf(run[i]))
  {
    LayeringIgnoresOrder(run[i].c.plan, plan);
    PassIsHonest(plan, run[i]);
    hide IsRun, Reconcile, AppMoved, TargetOf, SawIn, TrueSighting, DependsTransitively;
    j := 0;
    var e, k := LogAfter(run[i])[m], run[i].before.currentLayer;
    if LeftFor(run, s, i, TargetOf(run[i])) && Opening(e) && DependsTransitively(plan, e.app, d) {
      assert EventOf(plan, run[i], e);
      LayerIsLevel(plan, k);
      DependenciesInEarlierLayers(plan, e.app, k, d);
      var below :| 0 <= below < k && d in Build(plan).value[below];
      LayerIsLevel(plan, below);
      j := LayerWasLeft(plan, run, s, i, below);
      PassOfRun(plan, run, j);
    }
  }
}
