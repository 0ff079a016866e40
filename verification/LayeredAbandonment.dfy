/**
 What becomes of an upgrade that the nodes show as over while it is still under way: it comes
 to rest in Idle exactly when no budget was open, and a run in which one was.
 */
module LayeredAbandonment {
  import opened Common
  import opened Api
  import opened DependencyGraph
  import opened SemVer
  import opened LayeredModel
  import opened LayeredSafety
  import opened LayeredProgress
  import opened LayeredSightings
  import opened LayeredTargets

  ghost predicate NoneOpen(plan: Plan, w: World) {
    forall app :: app in AppsInOrder(plan) ==> !IsOpen(w, app)
  }

  // ---------- rest ----------

  lemma {:induction false} CheckKeepsZero(w: World, rs: Replies, apps: seq<string>, other: string)
    requires HasBudget(w, other, 0)
    ensures HasBudget(CheckApps(w, rs, apps, 0).w, other, 0)
    decreases apps
  {
    hide EnsurePdb, HasBudget, PutBudget;
    if apps != [] {
      EnsureWritesOnce(w, Rest(rs), apps[0], 0, RETRY_STEPS);
      PutKeepsOthers(w, apps[0], 0, other);
      var a := IsPdbInState(w, rs, apps[0], 0);
      CheckKeepsZero(a.w, a.rs, apps[1..], other);
    }
  }

  lemma IdlePassKeepsZero(plan: Plan, c: Config, w: World, rs: Replies)
    requires w.phase == Idle && AllAtZero(plan, w) && Build(c.plan) == Build(plan)
    ensures AllAtZero(plan, Reconcile(c, w, rs))
  {
    hide CheckApps, FindTarget, Flatten, HasBudget, Layers;
    var apps, rs1 := AppsInOrder(plan), Rest(rs);
    var a := CheckApps(w, rs1, apps, 0);
    SetPhaseKeepsBudgets(a.w, a.rs, Initializing, a.w.currentLayer);
    SetPhaseKeepsBudgets(a.w, FindTarget(c.parse, a.w.nodes, a.rs).0, Upgrading, 0);
    forall app | app in apps ensures HasBudget(Reconcile(c, w, rs), app, 0) {
      CheckKeepsZero(w, rs1, apps, app);
    }
  }

  /** Idle with all budgets at zero lasts until the nodes show an upgrade, whatever calls fail. */
  lemma {:induction false} CalmIdleLasts(plan: Plan, run: seq<Pass>, i: nat, j: nat)
    requires IsRun(plan, run) && Build(plan).Ok? && i <= j < |run|
    requires run[i].before.phase == Idle && AllAtZero(plan, run[i].before)
    requires forall x :: i <= x < j ==> !Visible(run[x].c, run[x].before, true)
    ensures run[j].before.phase == Idle && AllAtZero(plan, run[j].before)
  {
    hide Reconcile, AllAtZero, Inv, Build, IsRun, Visible;
    if i < j {
      CalmIdleLasts(plan, run, i, j-1);
      RunStep(plan, run, j-1);
      var p := run[j-1];
      PassFollowsProtocol(plan, p.c, p.before, p.rs);
      IdlePassKeepsZero(plan, p.c, p.before, p.rs);
      SameZero(plan, Reconcile(p.c, p.before, p.rs), run[j].before);
    }
  }

  lemma SameZero(plan: Plan, a: World, b: World)
    requires a.budgets == b.budgets
    ensures AllAtZero(plan, a) <==> AllAtZero(plan, b)
  {
    SameBudgets(a, b);
  }

  // ---------- the exact condition ----------

  lemma EquippedAtZeroIff(plan: Plan, w: World)
    requires Equipped(plan, w)
    ensures AllAtZero(plan, w) <==> NoneOpen(plan, w)
  {
    hide AppsInOrder, PdbName;
  }

  lemma RunSuffix(plan: Plan, run: seq<Pass>, i: nat)
    requires IsRun(plan, run) && Build(plan).Ok? && i < |run|
    ensures Passes(plan, run[i..])
  {
    hide Reconcile, Build;
    var tail := run[i..];
    forall x | 0 <= x < |tail| - 1
      ensures EnvironmentStep(Reconcile(tail[x].c, tail[x].before, tail[x].rs), tail[x+1].before)
    {
      assert tail[x] == run[i+x] && tail[x+1] == run[i+x+1];
    }
  }

  /**
   Main result, the exact condition: after the nodes have shown an upgrade in progress as over,
   and while they show no new one, the machine is back in Idle to stay exactly when no budget was
   open at that moment. One pass without failing calls after the one that gave up settles it.
   */
  lemma AbandonedUpgradeRestsIff(plan: Plan, run: seq<Pass>, i: nat, j: nat)
    requires IsFreshRun(plan, run) && Build(plan).Ok? && i < j < |run|
    requires run[i].before.phase == Upgrading && run[i].rs == [] && Visible(run[i].c, run[i].before, false)
    requires forall x :: i < x < j ==> !Visible(run[x].c, run[x].before, true)
    requires exists x :: i < x < j && run[x].rs == []
    ensures run[j].before.phase == Idle <==> NoneOpen(plan, run[i].before)
    ensures run[j].before.phase == Idle || run[j].before.phase == Initializing
  {
    hide Reconcile, IsRun, Visible, Inv, Build, AppsInOrder, Equipped, AllAtZero, Passes, IsOpen;
    var p := run[i];
    UpgradingIsEquipped(plan, run, i);
    EquippedAtZeroIff(plan, p.before);
    RunStep(plan, run, i);
    UpgradeIsAbandoned(p.c, p.before);
    SameZero(plan, p.before, run[i+1].before);
    if NoneOpen(plan, p.before) {
      CalmIdleLasts(plan, run, i+1, j);
    } else {
      var app :| app in AppsInOrder(plan) && IsOpen(p.before, app);
      var tail := run[i..];
      RunSuffix(plan, run, i);
      var x :| i < x < j && run[x].rs == [];
      assert tail[x-i] == run[x] && tail[j-i] == run[j] && tail[0] == p;
      AbandonedLayerStaysOpen(plan, tail, j-i, app);
    }
  }

  // ---------- a run that is abandoned with an open layer ----------

  lemma OneVersion(c: Config, w: World, n: Node)
    requires w.nodes == [n] && !n.unschedulable && c.parse(Normalise(n.kubeletVersion)).Some?
    ensures Visible(c, w, false)
  {
    hide Normalise;
    var one := [n];
    assert one[..|one|-1] == [];
    assert NodeVersions(c.parse, one) == [Normalise(n.kubeletVersion)];
  }

  /** A layer with an app that has not moved is opened, or stays open, and is not left. */
  lemma LayerStaysOpen(plan: Plan, p: Pass, app: string)
    requires Build(p.c.plan) == Build(plan) && Build(plan).Ok? && p.rs == [] && TargetOf(p) != ""
    requires p.before.phase == Upgrading && p.before.currentLayer < Depth(plan) && Inv(plan, p.before)
    requires FindTarget(p.c.parse, p.before.nodes, []).1.value.inProgress
    requires app in Level(plan, p.before.currentLayer) && !AppMoved(p.c.parse, p.before, app, TargetOf(p))
    ensures var w' := Reconcile(p.c, p.before, p.rs);
            w'.phase == Upgrading && IsOpen(w', app)
  {
    hide FindTarget, EnsureAll, AllOnTarget, Layers, Level, AtLayer, Inv, AppMoved, SawIn;
    var w, k, target := p.before, p.before.currentLayer, TargetOf(p);
    TargetUsesOneCall(p.c.parse, w.nodes);
    LayerIsLevel(plan, k);
    var apps := Layers(plan)[k];
    InvIsAtLayer(plan, w);
    RaiseStage(plan, w, [], k);
    EnsureAllSucceeds(w, apps, 1);
    var raised := EnsureAll(w, [], apps, 1);
    assert AppMoved(p.c.parse, raised.w, app, target) == AppMoved(p.c.parse, w, app, target) by {
      SamePodsSameAnswer(p.c.parse, raised.w, w, app, target);
    }
    UnmovedIsNotSeen(p.c.parse, raised.w, apps, target, app);
    AllOnTargetKeepsRest(p.c.parse, raised.w, [], apps, target);
  }

  lemma SamePodsSameAnswer(parse: Parser, a: World, b: World, app: string, target: string)
    requires a.nodes == b.nodes && a.pods == b.pods
    ensures AppMoved(parse, a, app, target) == AppMoved(parse, b, app, target)
  {}

  lemma UnmovedIsNotSeen(parse: Parser, w: World, apps: seq<string>, target: string, app: string)
    requires app in apps && !AppMoved(parse, w, app, target)
    ensures AllOnTarget(parse, w, [], apps, target).r != Ok(true)
  {
    hide AppMoved, AllOnTarget;
    AllOnTargetIsHonest(parse, w, [], apps, target, {});
  }

  /**
   It happens: for every plan with a layer and any two versions there is a run in which the nodes
   converge to one version while an app of the first layer is open and its pod has not moved.
   */
  lemma LayerMayBeAbandoned(plan: Plan, parse: Parser, low: string, high: string) returns (run: seq<Pass>, app: string)
    requires Build(plan).Ok? && Depth(plan) > 0 && Ascending(parse, low, high)
    ensures IsFreshRun(plan, run) && |run| == 3 && app in AppsInOrder(plan)
    ensures run[2].before.phase == Upgrading && IsOpen(run[2].before, app)
    ensures run[2].rs == [] && Visible(run[2].c, run[2].before, false)
  {
    hide Reconcile, OpenAfter, FindTarget, Inv, IsDepth, Level, Build, AppMoved, IsOpen, Compare, Flatten, Visible;
    var c := Config(plan, parse);
    LayerIsLevel(plan, 0);
    app := Layers(plan)[0][0];
    assert app in Layers(plan)[0];
    InFlatten(Layers(plan), 0, app);
    var w0 := IdleCluster(plan, app, low, high);
    IdleClusterStarts(plan, c, app, low, high);
    FreshIsInv(plan, w0);
    PassSafe(plan, c, w0, []);
    var started := w0.(phase := Upgrading, log := [START]);
    var p1 := Pass(c, started.(pods := [Pod(map["app" := app], "a", Running)]), []);
    EnvironmentKeepsInv(plan, started, p1.before);
    TwoVersions(parse, NodeOf("a", low), NodeOf("b", high));
    PodStaysBehind(parse, p1.before, app, "a", low, high);
    LayerStaysOpen(plan, p1, app);
    var w2 := Reconcile(c, p1.before, []);
    var p2 := Pass(c, w2.(nodes := [NodeOf("b", high)]), []);
    OneVersion(c, p2.before, NodeOf("b", high));
    SameIsOpen(w2, p2.before, app);
    run := [Pass(c, w0, []), p1, p2];
  }

  lemma SameIsOpen(a: World, b: World, app: string)
    requires a.budgets == b.budgets
    ensures IsOpen(a, app) == IsOpen(b, app)
  {}
}
