/**
 The layered reconciler as an object whose methods change the cluster step by step. Every
 method is proved to do exactly what its namesake in module LayeredModel says, for every
 outcome of every API call.
 */
module LayeredController {
  import opened Common
  import opened Api
  import opened DependencyGraph
  import opened LayerBuilder
  import opened SemVer
  import opened LayeredModel
  import M = LayeredModel

  lemma FlattenFrom(layers: seq<seq<string>>)
    ensures Flatten(layers[0..]) == Flatten(layers) && Flatten(layers[|layers|..]) == []
  {
    assert layers[0..] == layers;
  }

  lemma FlattenNext(layers: seq<seq<string>>, i: nat)
    requires i < |layers|
    ensures Flatten(layers[i..]) == layers[i] + Flatten(layers[i+1..])
  {
    assert layers[i..][1..] == layers[i+1..];
  }

  class Reconciler {
    const plan: Plan
    const parse: Parser

    // the orchestrator's status and the API server's objects
    var phase: Phase
    var currentLayer: nat
    var budgets: map<string, Option<IntOrString>>
    var nodes: seq<Node>
    var pods: seq<Pod>

    /** The outcomes of the API calls to come. */
    var replies: Replies

    /** What has reached the API server and what has been observed. */
    ghost var log: seq<Event>

    constructor (plan: Plan, parse: Parser, w: World, replies: Replies)
      ensures this.plan == plan && this.parse == parse
      ensures Cluster() == w && this.replies == replies
    {
      this.plan, this.parse := plan, parse;
      phase, currentLayer, budgets, nodes, pods := w.phase, w.currentLayer, w.budgets, w.nodes, w.pods;
      this.replies := replies;
      log := w.log;
    }

    ghost function Cluster(): World
      reads this
    {
      World(phase, currentLayer, budgets, nodes, pods, log)
    }

    /** One API call. */
    method Call() returns (r: Reply)
      modifies `replies
      ensures r == Next(old(replies)) && replies == Rest(old(replies))
    {
      r := Next(replies);
      replies := Rest(replies);
    }

    // ---------- budgets ----------

    /** The loop is `retry.RetryOnConflict`. */
    method EnsurePdbState(app: string, value: int) returns (ok: bool)
      modifies `replies, `budgets, `log
      ensures Outcome(Cluster(), replies, ok) == EnsurePdb(old(Cluster()), old(replies), app, value, RETRY_STEPS)
    {
      var name := PdbName(app);
      var tries := RETRY_STEPS;
      while tries > 0
        invariant 0 <= tries <= RETRY_STEPS
        invariant Cluster() == old(Cluster())
        invariant EnsurePdb(Cluster(), replies, app, value, tries)
               == EnsurePdb(old(Cluster()), old(replies), app, value, RETRY_STEPS)
      {
        tries := tries - 1;
        var reply := Call();
        if reply.Conflict? {
          continue;
        }
        if !reply.Done? {
          return false;
        }
        if name in budgets && InState(budgets[name], value) {
          return true;
        }
        reply := Call();
        if reply.Conflict? {
          continue;
        }
        if Applied(reply) {
          budgets := budgets[name := Some(Int(value))];
          log := log + [BudgetSet(app, value)];
        }
        return reply.Done?;
      }
      return false;
    }

    method EnsureApps(apps: seq<string>, value: int) returns (ok: bool)
      modifies `replies, `budgets, `log
      ensures Outcome(Cluster(), replies, ok) == EnsureAll(old(Cluster()), old(replies), apps, value)
    {
      for i := 0 to |apps|
        invariant EnsureAll(Cluster(), replies, apps[i..], value)
               == EnsureAll(old(Cluster()), old(replies), apps, value)
      {
        assert apps[i..][0] == apps[i] && apps[i..][1..] == apps[i+1..];
        ok := EnsurePdbState(apps[i], value);
        if !ok {
          return false;
        }
      }
      return true;
    }

    method IsPdbInState(app: string, value: int) returns (r: Result<bool>)
      modifies `replies, `budgets, `log
      ensures Answer(Cluster(), replies, r) == M.IsPdbInState(old(Cluster()), old(replies), app, value)
    {
      var reply := Call();
      if !reply.Done? {
        return Err;
      }
      if PdbName(app) !in budgets {
        var ok := EnsurePdbState(app, value);
        return if ok then Ok(false) else Err;
      }
      return Ok(InState(budgets[PdbName(app)], value));
    }

    method CheckAllPdbsState(layers: seq<seq<string>>, value: int) returns (r: Result<bool>)
      modifies `replies, `budgets, `log
      ensures Answer(Cluster(), replies, r) == CheckApps(old(Cluster()), old(replies), Flatten(layers), value)
    {
      hide Flatten;
      FlattenFrom(layers);
      for i := 0 to |layers|
        invariant CheckApps(Cluster(), replies, Flatten(layers[i..]), value)
               == CheckApps(old(Cluster()), old(replies), Flatten(layers), value)
      {
        var layer := layers[i];
        ghost var later := Flatten(layers[i+1..]);
        assert layer[0..] == layer;
        FlattenNext(layers, i);
        for j := 0 to |layer|
          invariant CheckApps(Cluster(), replies, layer[j..] + later, value)
                 == CheckApps(old(Cluster()), old(replies), Flatten(layers), value)
        {
          ghost var rest := layer[j..] + later;
          assert rest[0] == layer[j] && rest[1..] == layer[j+1..] + later;
          var ready := IsPdbInState(layer[j], value);
          if ready != Ok(true) {
            return ready;
          }
        }
        assert layer[|layer|..] + later == later;
      }
      return Ok(true);
    }

    // ---------- observing pods and nodes ----------

    method IsAppOnTargetVersion(app: string, target: string) returns (r: Result<bool>)
      modifies `replies
      ensures (replies, r) == IsAppOnTarget(parse, Cluster(), old(replies), app, target)
    {
      hide AppPods, CompareText, Normalise;
      var reply := Call();
      if !reply.Done? {
        return Err;
      }
      var podList := AppPods(pods, app);
      for i := 0 to |podList|
        invariant PodsOnTarget(parse, nodes, podList[i..], target, replies)
               == PodsOnTarget(parse, nodes, podList, target, Rest(old(replies)))
      {
        var pod := podList[i];
        assert podList[i..][0] == pod && podList[i..][1..] == podList[i+1..];
        if pod.phase == Succeeded || pod.phase == Failed {
          continue;
        }
        if pod.phase != Running {
          return Ok(false);
        }
        reply := Call();
        if !reply.Done? {
          return Err;
        }
        var node := FindNode(nodes, pod.nodeName);
        if node.None? {
          continue;
        }
        if CompareText(parse, Normalise(node.value.kubeletVersion), target) != 0 {
          return Ok(false);
        }
      }
      return Ok(true);
    }

    method AreAppsOnTargetVersion(apps: seq<string>, target: string) returns (r: Result<bool>)
      modifies `replies, `log
      ensures Answer(Cluster(), replies, r) == AllOnTarget(parse, old(Cluster()), old(replies), apps, target)
    {
      for i := 0 to |apps|
        invariant AllOnTarget(parse, Cluster(), replies, apps[i..], target)
               == AllOnTarget(parse, old(Cluster()), old(replies), apps, target)
      {
        assert apps[i..][0] == apps[i] && apps[i..][1..] == apps[i+1..];
        var migrated := IsAppOnTargetVersion(apps[i], target);
        if migrated != Ok(true) {
          return migrated;
        }
        log := log + [SeenOnTarget(apps[i], target)];
      }
      return Ok(true);
    }

    method FindTargetNodeVersion() returns (r: Result<Target>)
      modifies `replies
      ensures (replies, r) == FindTarget(parse, nodes, old(replies))
    {
      var reply := Call();
      if !reply.Done? || |nodes| == 0 {
        return Err;
      }
      var versions: seq<string> := [];
      var hasUnschedulableNode := false;
      for i := 0 to |nodes|
        invariant versions == NodeVersions(parse, nodes[..i])
        invariant hasUnschedulableNode <==> exists n :: n in nodes[..i] && n.unschedulable
      {
        assert nodes[..i+1][..i] == nodes[..i];
        assert forall n :: n in nodes[..i+1] <==> n in nodes[..i] || n == nodes[i];
        if nodes[i].unschedulable {
          hasUnschedulableNode := true;
        }
        var v := Normalise(nodes[i].kubeletVersion);
        if v !in versions && parse(v).Some? {
          versions := versions + [v];
        }
      }
      assert nodes[..|nodes|] == nodes;
      if |versions| == 0 {
        return Err;
      }
      if |versions| <= 1 && !hasUnschedulableNode {
        return Ok(Target("", false));
      }
      if |versions| > 1 {
        return Ok(Target(Greatest(parse, versions), true));
      }
      return Ok(Target("", true));
    }

    // ---------- the four phases ----------

    method UpdateStatus(newPhase: Phase, newLayer: nat) returns (ok: bool)
      modifies `replies, `phase, `currentLayer, `log
      ensures Outcome(Cluster(), replies, ok) == SetPhase(old(Cluster()), old(replies), newPhase, newLayer)
    {
      var reply := Call();
      if Applied(reply) {
        phase, currentLayer := newPhase, newLayer;
        log := log + [PhaseSet(newPhase, newLayer)];
      }
      return reply.Done?;
    }

    method ReconcileInitializing(layers: seq<seq<string>>)
      modifies this
      ensures Cluster() == M.ReconcileInitializing(old(Cluster()), old(replies), layers)
    {
      var ready := CheckAllPdbsState(layers, 0);
      if ready == Ok(true) {
        var ok := UpdateStatus(Idle, currentLayer);
      }
    }

    method ReconcileIdle(layers: seq<seq<string>>)
      modifies this
      ensures Cluster() == M.ReconcileIdle(parse, old(Cluster()), old(replies), layers)
    {
      var ready := CheckAllPdbsState(layers, 0);
      if ready.Err? {
        return;
      }
      if !ready.value {
        assert ready == Ok(false);
        var ok := UpdateStatus(Initializing, currentLayer);
        return;
      }
      var target := FindTargetNodeVersion();
      if target.Ok? && target.value.inProgress {
        var ok := UpdateStatus(Upgrading, 0);
      }
    }

    method ReconcileUpgrading(layers: seq<seq<string>>)
      modifies this
      ensures Cluster() == M.ReconcileUpgrading(parse, old(Cluster()), old(replies), layers)
    {
      hide EnsureAll, AllOnTarget, FindTarget;
      var target := FindTargetNodeVersion();
      if target.Err? {
        return;
      }
      var ok;
      if !target.value.inProgress {
        ok := UpdateStatus(Idle, 0);
        return;
      }
      if target.value.version == "" {
        return;
      }
      if currentLayer >= |layers| {
        ok := UpdateStatus(Completed, currentLayer);
        return;
      }
      var apps := layers[currentLayer];
      ok := EnsureApps(apps, 1);
      if !ok {
        return;
      }
      var allMigrated := AreAppsOnTargetVersion(apps, target.value.version);
      if allMigrated == Ok(true) {
        ok := EnsureApps(apps, 0);
        if !ok {
          return;
        }
        ok := UpdateStatus(Upgrading, currentLayer + 1);
      }
    }

    method ReconcileCompleted()
      modifies this
      ensures Cluster() == M.ReconcileCompleted(parse, old(Cluster()), old(replies))
    {
      var target := FindTargetNodeVersion();
      if target.Ok? && !target.value.inProgress {
        var ok := UpdateStatus(Idle, 0);
      }
    }

    method Reconcile()
      modifies this
      ensures Cluster() == M.Reconcile(Config(plan, parse), old(Cluster()), old(replies))
    {
      var reply := Call();
      if !reply.Done? {
        return;
      }
      if phase == NoPhase {
        var ok := UpdateStatus(Initializing, 0);
        return;
      }
      var layers := BuildDependencyLayers(plan);
      if layers.Err? {
        return;
      }
      match phase {
        case Initializing =>
          ReconcileInitializing(layers.value);
        case Idle =>
          ReconcileIdle(layers.value);
        case Upgrading =>
          ReconcileUpgrading(layers.value);
        case Completed =>
          ReconcileCompleted();
        case _ =>
      }
    }
  }
}
