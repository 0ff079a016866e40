/**
 A cluster on which the first layer is left at once, and a run in which the target changes
 after that: what SeenOnCurrentTargetIff asks for can fail, for every plan of two layers.
 */
module LayeredTargets {
  import opened Common
  import opened Api
  import opened DependencyGraph
  import opened SemVer
  import opened LayeredModel
  import opened LayeredSafety
  import opened LayeredProgress
  import opened LayeredSightings

  lemma TwoVersions(parse: Parser, a: Node, b: Node)
    requires Ascending(parse, a.kubeletVersion, b.kubeletVersion)
    ensures FindTarget(parse, [a, b], []).1 == Ok(Target(b.kubeletVersion, true))
  {
    var v, w := a.kubeletVersion, b.kubeletVersion;
    PrecedenceIsTotalPreorder(parse(v).value, parse(w).value, parse(v).value);
    PrecedenceIsTotalPreorder(parse(v).value, parse(v).value, parse(v).value);
    hide Compare, Normalise;
    var one, two := [a], [a, b];
    assert one[..|one|-1] == [] && two[..|two|-1] == one;
    assert NodeVersions(parse, one) == [v];
    assert NodeVersions(parse, two) == [v, w];
    assert v in [v, w] && w in [v, w];
    assert Greatest(parse, [v, w]) == w;
  }

  /** Both texts are readable as they stand, and the second version is the greater one. */
  ghost predicate Ascending(parse: Parser, a: string, b: string) {
    && a != "" && b != "" && Normalise(a) == a && Normalise(b) == b
    && parse(a).Some? && parse(b).Some? && Compare(parse(a).value, parse(b).value) < 0
  }

  function NodeOf(name: string, version: string): Node {
    Node(name, version, false, [], map[])
  }

  /** An idle cluster on two versions with all budgets at zero and one pod, on the newer node. */
  ghost function IdleCluster(plan: Plan, d: string, low: string, high: string): World {
    World(Idle, 0, map app | app in Names(plan) :: PdbName(app) := Some(Int(0)),
          [NodeOf("a", low), NodeOf("b", high)], [Pod(map["app" := d], "b", Running)], [])
  }

  lemma IdleClusterStarts(plan: Plan, c: Config, d: string, low: string, high: string)
    requires Build(c.plan) == Build(plan) && Build(plan).Ok? && Ascending(c.parse, low, high)
    ensures var w := IdleCluster(plan, d, low, high);
            && (forall app :: app in Names(plan) ==> !IsOpen(w, app))
            && Reconcile(c, w, []) == w.(phase := Upgrading, log := [START])
  {
    var w, apps := IdleCluster(plan, d, low, high), AppsInOrder(plan);
    forall app | app in Names(plan) ensures HasBudget(w, app, 0) && !IsOpen(w, app) {
      assert PdbName(app) in w.budgets;
    }
    FlattenIsPlanned(plan);
    TwoVersions(c.parse, NodeOf("a", low), NodeOf("b", high));
    hide Flatten, Layers, FindTarget, CheckApps, HasBudget, Names;
    CheckAppsMeans(w, [], apps);
    var a := CheckApps(w, [], apps, 0);
    assert a.r == Ok(a.r.value);
    assert a.r.value;
  }

  /** With the only pod on the newer node, the first layer is left at once. */
  lemma FirstLayerIsLeft(plan: Plan, p: Pass, d: string, low: string, high: string)
    requires Build(p.c.plan) == Build(plan) && Build(plan).Ok? && Ascending(p.c.parse, low, high) && Depth(plan) >= 2
    requires p.before == IdleCluster(plan, d, low, high).(phase := Upgrading, log := [START]) && p.rs == []
    requires Inv(plan, p.before)
    ensures var w' := Reconcile(p.c, p.before, p.rs);
            w'.phase == Upgrading && w'.currentLayer == 1 && OpenAfter(w'.log) == {} && w'.pods == p.before.pods
  {
    TwoVersions(p.c.parse, NodeOf("a", low), NodeOf("b", high));
    PrecedenceIsTotalPreorder(p.c.parse(high).value, p.c.parse(high).value, p.c.parse(high).value);
    hide FindTarget, Inv, Reconcile, OpenAfter, IsDepth, Level;
    assert FindNode(p.before.nodes, "b") == Some(NodeOf("b", high));
    assert Unhindered(plan, p);
    UnhinderedStep(plan, p);
    CursorMovesByOne(plan, p.c, p.before, p.rs);
    PassKeeps(p.c, p.before, p.rs);
  }

  /** A layer whose budgets are closed is opened by the next pass that sees a target. */
  lemma LayerIsOpened(plan: Plan, p: Pass)
    requires Build(p.c.plan) == Build(plan) && Build(plan).Ok? && p.rs == [] && TargetOf(p) != ""
    requires p.before.phase == Upgrading && p.before.currentLayer < Depth(plan)
    requires Inv(plan, p.before) && OpenAfter(p.before.log) == {}
    requires FindTarget(p.c.parse, p.before.nodes, []).1.value.inProgress
    ensures var app := Layers(plan)[p.before.currentLayer];
            && app != [] && app[0] in Level(plan, p.before.currentLayer)
            && |p.before.log| < |LogAfter(p)| && LogAfter(p)[|p.before.log|] == BudgetSet(app[0], 1)
  {
    hide FindTarget, ProcessLayer, Layers, Level, Honest, SawIn, OpenAfter, IsDepth, AppMoved;
    var w, k := p.before, p.before.currentLayer;
    LayerIsLevel(plan, k);
    var apps, t := Layers(plan)[k], TargetOf(p);
    assert apps[0] in apps && apps[0] in Names(plan) by { LayerIsOneLayer(plan, k); }
    assert !IsOpen(w, apps[0]);
    TargetUsesOneCall(p.c.parse, w.nodes);
    FirstAppIsOpened(p.c.parse, w, apps, t, Level(plan, k));
  }

  lemma FirstAppIsOpened(parse: Parser, w: World, apps: seq<string>, target: string, layer: set<string>)
    requires apps != [] && !IsOpen(w, apps[0]) && forall app :: app in apps ==> app in layer
    ensures var log := ProcessLayer(parse, w, [], apps, target).log;
            |w.log| < |log| && log[|w.log|] == BudgetSet(apps[0], 1)
  {
    hide ProcessLayer, Honest, SawIn;
    var put := PutBudget(w, apps[0], 1);
    assert !HasBudget(w, apps[0], 1);
    assert EnsurePdb(w, [], apps[0], 1, RETRY_STEPS) == Outcome(put, [], true);
    hide EnsurePdb;
    assert EnsureAll(w, [], apps, 1) == EnsureAll(put, [], apps[1..], 1);
    ProcessLayerIsHonest(parse, w, [], apps, target, layer);
    EnsureAllWrites(put, [], apps[1..], 1);
    assert put.log[|w.log|] == BudgetSet(apps[0], 1);
  }

  /** Every app of the second layer has a dependency in the first. */
  lemma SecondLayerDepends(plan: Plan, app: string) returns (d: string)
    requires app in Level(plan, 1)
    ensures DependsTransitively(plan, app, d)
  {
    assert Deps(plan, app) <= Resolved(plan, 1);
    assert app !in Resolved(plan, 1);
    assert !(Deps(plan, app) <= Resolved(plan, 0));
    d :| d in Deps(plan, app);
    var c := [d, app];
    assert IsChain(plan, c);
  }

  /**
   The condition can fail: for every plan of two layers or more and any three versions there
   is a run in which an app of the second layer is opened for the newest version although the
   only pod of a dependency was on the middle one in every pass.
   */
  lemma TargetMayChange(plan: Plan, parse: Parser, low: string, mid: string, newest: string)
    returns (run: seq<Pass>, m: nat, d: string)
    requires Build(plan).Ok? && Depth(plan) >= 2 && Ascending(parse, low, mid) && Ascending(parse, mid, newest)
    ensures IsFreshRun(plan, run) && |run| == 3 && UpgradeSince(run, 0, 2) && LoggedBy(run, 2, m)
    ensures Opening(LogAfter(run[2])[m]) && DependsTransitively(plan, LogAfter(run[2])[m].app, d)
    ensures forall j :: 0 <= j < 3 ==> !AppMoved(run[j].c.parse, run[j].before, d, TargetOf(run[2]))
  {
    hide Reconcile, OpenAfter, FindTarget, Inv, IsDepth, Level, Build, AppMoved, DependsTransitively, IsOpen, Compare;
    var c := Config(plan, parse);
    LayerIsLevel(plan, 1);
    var app := Layers(plan)[1][0];
    assert app in Layers(plan)[1];
    d := SecondLayerDepends(plan, app);
    var w0 := IdleCluster(plan, d, low, mid);
    IdleClusterStarts(plan, c, d, low, mid);
    var p0 := Pass(c, w0, []);
    var p1 := Pass(c, w0.(phase := Upgrading, log := [START]), []);
    FreshIsInv(plan, w0);
    PassSafe(plan, c, w0, []);
    FirstLayerIsLeft(plan, p1, d, low, mid);
    var w2 := Reconcile(c, p1.before, []);
    PassSafe(plan, c, p1.before, []);
    var p2 := Pass(c, w2.(nodes := [NodeOf("b", mid), NodeOf("c", newest)]), []);
    TwoVersions(parse, NodeOf("b", mid), NodeOf("c", newest));
    EnvironmentKeepsInv(plan, w2, p2.before);
    LayerIsOpened(plan, p2);
    run, m := [p0, p1, p2], |w2.log|;
    forall j | 0 <= j < 3 ensures !AppMoved(parse, run[j].before, d, newest) {
      PodStaysBehind(parse, run[j].before, d, "b", mid, newest);
    }
  }

  lemma EnvironmentKeepsInv(plan: Plan, a: World, b: World)
    requires EnvironmentStep(a, b) && Inv(plan, a)
    ensures Inv(plan, b)
  {}

  lemma PodStaysBehind(parse: Parser, w: World, d: string, node: string, version: string, target: string)
    requires Ascending(parse, version, target) && Pod(map["app" := d], node, Running) in w.pods
    requires FindNode(w.nodes, node) == Some(NodeOf(node, version))
    ensures !AppMoved(parse, w, d, target)
  {
    assert !PodMoved(parse, w.nodes, Pod(map["app" := d], node, Running), target);
  }
}
