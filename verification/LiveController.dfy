/**
 The live reconciler as an object whose methods change the cluster step by step. Every method
 is proved to do exactly what its namesake in module LiveModel says, for every outcome of
 every API call.
 */
module LiveController {
  import opened Common
  import opened Api
  import opened DependencyGraph
  import opened Lexicographic
  import opened SemVer
  import opened LiveModel
  import opened PdbCalls
  import M = LiveModel

  class Reconciler {
    const plan: Plan
    const parse: Parser
    const refreshes: bool

    // the API server's objects
    var stored: Orchestrator
    var nodes: seq<Node>
    var pods: seq<Pod>
    var pdbs: seq<Pdb>
    var workloads: map<Key, Workload>

    /** The clock in seconds, and the outcomes of the API calls to come. */
    var now: int
    var replies: Replies

    constructor (plan: Plan, parse: Parser, refreshes: bool, w: World, replies: Replies)
      ensures this.plan == plan && this.parse == parse && this.refreshes == refreshes
      ensures Cluster() == w && this.replies == replies
    {
      this.plan, this.parse, this.refreshes := plan, parse, refreshes;
      stored, nodes, pods, pdbs, workloads, now := w.stored, w.nodes, w.pods, w.pdbs, w.workloads, w.now;
      this.replies := replies;
    }

    ghost function Cluster(): World
      reads this
    {
      World(stored, nodes, pods, pdbs, workloads, now)
    }

    ghost function Settings(): Config {
      Config(plan, parse, refreshes)
    }

    /** One API call. */
    method Call() returns (r: Reply)
      modifies `replies
      ensures r == Next(old(replies)) && replies == Rest(old(replies))
    {
      r := Next(replies);
      replies := Rest(replies);
    }

    // ---------- reading ----------

    method GetWorkload(name: string) returns (key: Option<Key>)
      modifies `replies
      ensures (replies, key) == M.GetWorkload(Cluster(), old(replies), name)
    {
      var r := Call();
      if r.Done? && Key(StatefulSet, name) in workloads {
        return Some(Key(StatefulSet, name));
      }
      r := Call();
      if r.Done? && Key(PlainDeployment, name) in workloads {
        return Some(Key(PlainDeployment, name));
      }
      return None;
    }

    method PodsOnTarget(podList: seq<Pod>, target: string) returns (r: Result<bool>)
      modifies `replies
      ensures (replies, r) == M.PodsOnTarget(nodes, podList, target, old(replies))
    {
      for i := 0 to |podList|
        invariant M.PodsOnTarget(nodes, podList[i..], target, replies)
               == M.PodsOnTarget(nodes, podList, target, old(replies))
      {
        var pod := podList[i];
        assert podList[i..][0] == pod && podList[i..][1..] == podList[i+1..];
        if pod.nodeName == "" {
          return Ok(false);
        }
        var reply := Call();
        var node := FindNode(nodes, pod.nodeName);
        if !reply.Done? || node.None? {
          return Err;
        }
        if node.value.kubeletVersion != target {
          return Ok(false);
        }
      }
      return Ok(true);
    }

    method IsWorkloadMigrated(name: string, target: string) returns (r: Result<bool>)
      modifies `replies
      ensures (replies, r) == M.IsWorkloadMigrated(Cluster(), old(replies), name, target)
    {
      var key := GetWorkload(name);
      if key.None? {
        return Err;
      }
      var selector := workloads[key.value].selector;
      if !ValidSelector(selector) {
        return Err;
      }
      var reply := Call();
      if !reply.Done? {
        return Err;
      }
      r := PodsOnTarget(SelectedPods(pods, selector), target);
    }

    method DependenciesMet(deps: seq<string>) returns (r: Result<bool>)
      modifies `replies
      ensures (replies, r) == M.DependenciesMet(Cluster(), old(replies), deps)
    {
      if |deps| == 0 {
        return Ok(true);
      }
      var target := stored.targetVersion;
      if target == "" {
        return Err;
      }
      for i := 0 to |deps|
        invariant AllMigrated(Cluster(), replies, deps[i..], target)
               == AllMigrated(Cluster(), old(replies), deps, target)
      {
        assert deps[i..][0] == deps[i] && deps[i..][1..] == deps[i+1..];
        var migrated := IsWorkloadMigrated(deps[i], target);
        if migrated != Ok(true) {
          return migrated;
        }
      }
      return Ok(true);
    }

    method AreAllWorkloadsMigrated(target: string) returns (r: Result<bool>)
      modifies `replies
      ensures (replies, r) == AllMigrated(Cluster(), old(replies), PlanNames(plan), target)
    {
      ghost var names := PlanNames(plan);
      for i := 0 to |plan|
        invariant AllMigrated(Cluster(), replies, names[i..], target)
               == AllMigrated(Cluster(), old(replies), names, target)
      {
        assert names[i..][0] == plan[i].name && names[i..][1..] == names[i+1..];
        var migrated := IsWorkloadMigrated(plan[i].name, target);
        if migrated != Ok(true) {
          return migrated;
        }
      }
      return Ok(true);
    }

    /** Go's map iteration yields the versions in any order; `vs` is the one it took. */
    method DetectNodeVersions() returns (r: Result<seq<string>>, ghost vs: seq<string>)
      modifies `replies
      ensures replies == Rest(old(replies)) && Lists(vs, Versions(nodes))
      ensures r == if Next(old(replies)).Done? then Ok(vs) else Err
    {
      var reply := Call();
      vs := Enumerate(Versions(nodes));
      if !reply.Done? {
        return Err, vs;
      }
      var versionSet := {};
      for i := 0 to |nodes|
        invariant versionSet == Versions(nodes[..i])
      {
        assert nodes[..i+1] == nodes[..i] + [nodes[i]];
        versionSet := versionSet + {nodes[i].kubeletVersion};
      }
      assert nodes[..|nodes|] == nodes;
      var versions: seq<string> := [];
      var rest := versionSet;
      while rest != {}
        invariant rest <= versionSet && Lists(versions, versionSet - rest)
      {
        var v :| v in rest;
        rest := rest - {v};
        versions := versions + [v];
      }
      assert versionSet - rest == versionSet;
      return Ok(versions), versions;
    }

    method IsAnyNodeCordoned() returns (r: Result<bool>)
      modifies `replies
      ensures replies == Rest(old(replies))
      ensures r == if Next(old(replies)).Done? then Ok(Cordoned(nodes)) else Err
    {
      var reply := Call();
      if !reply.Done? {
        return Err;
      }
      for i := 0 to |nodes|
        invariant forall n, t :: n in nodes[..i] && t in n.taints ==> !(t.key == CORDON_KEY && t.effect == NO_SCHEDULE)
      {
        var taints := nodes[i].taints;
        for j := 0 to |taints|
          invariant forall t :: t in taints[..j] ==> !(t.key == CORDON_KEY && t.effect == NO_SCHEDULE)
        {
          if taints[j].key == CORDON_KEY && taints[j].effect == NO_SCHEDULE {
            assert nodes[i] in nodes && taints[j] in nodes[i].taints;
            return Ok(true);
          }
        }
        assert taints[..|taints|] == taints;
        assert nodes[..i+1] == nodes[..i] + [nodes[i]];
      }
      assert nodes[..|nodes|] == nodes;
      return Ok(false);
    }

    // ---------- budgets ----------

    method FindUserManagedPdb(wl: Workload) returns (found: Option<nat>)
      ensures found == FindUserPdb(pdbs, wl)
      ensures found.Some? ==> FirstGuarding(pdbs, wl.labels, found.value)
      ensures found.None? ==> wl.labels == map[] || forall j :: 0 <= j < |pdbs| ==> !Guards(pdbs[j], wl.labels)
    {
      UserBudgetIff(pdbs, wl);
      if wl.labels == map[] {
        return None;
      }
      for i := 0 to |pdbs|
        invariant FirstGuard(pdbs, wl.labels, i) == FirstGuard(pdbs, wl.labels, 0)
      {
        var pdb := pdbs[i];
        if MANAGED_BY in pdb.annotations {
          continue;
        }
        if !ValidSelector(pdb.spec.selector) {
          continue;
        }
        if Matches(pdb.spec.selector, wl.labels) {
          return Some(i);
        }
      }
      return None;
    }

    method ReconcilePdb(key: Key, allowDisruption: bool) returns (ok: bool)
      requires key in workloads
      modifies `replies, `pdbs
      ensures Outcome(Cluster(), replies, ok) == M.ReconcilePdb(old(Cluster()), old(replies), key, allowDisruption)
    {
      var wl := workloads[key];
      var reply := Call();
      if !reply.Done? {
        return false;
      }
      var user := FindUserManagedPdb(wl);
      reply := Call();
      if !reply.Done? {
        return false;
      }
      var own := FindPdb(pdbs, BlockerName(key.name));
      var after := pdbs;
      if allowDisruption {
        if user.Some? && ORIGINAL_SPEC in pdbs[user.value].annotations {
          var restored := Restored(pdbs[user.value]);
          if restored.None? {
            return false;
          }
          after := pdbs[user.value := restored.value];
        } else if own.Some? {
          after := pdbs[..own.value] + pdbs[own.value+1..];
        } else {
          return true;
        }
      } else {
        if user.Some? {
          if ORIGINAL_SPEC in pdbs[user.value].annotations {
            return true;
          }
          after := pdbs[user.value := Locked(pdbs[user.value])];
        } else if own.Some? {
          return true;
        } else {
          after := pdbs + [NewBlocker(key.name, wl.selector)];
        }
      }
      reply := Call();
      if Applied(reply) {
        pdbs := after;
      }
      return reply.Done?;
    }

    // ---------- nodes and tolerations ----------

    method PrepareNodes(target: string) returns (ok: bool)
      modifies `replies, `nodes
      ensures Outcome(Cluster(), replies, ok) == M.PrepareNodes(old(Cluster()), old(replies), target)
    {
      var reply := Call();
      if !reply.Done? {
        return false;
      }
      var items := nodes;
      for i := 0 to |items|
        invariant |nodes| == |items| && nodes[i..] == items[i..]
        invariant PrepareFrom(Cluster(), replies, target, i)
               == PrepareFrom(old(Cluster()), Rest(old(replies)), target, 0)
      {
        assert nodes[i] == nodes[i..][0] == items[i];
        if items[i].kubeletVersion == target {
          reply := Call();
          if Applied(reply) {
            nodes := nodes[i := Prepared(items[i], target)];
          }
          if !reply.Done? {
            return false;
          }
        }
        assert nodes[i+1..] == items[i..][1..];
      }
      return true;
    }

    method SetTolerations(key: Key, tolerations: seq<Toleration>)
      requires key in workloads
      modifies `workloads
      ensures Cluster() == WithTolerations(old(Cluster()), key, tolerations)
    {
      workloads := workloads[key := workloads[key].(tolerations := tolerations)];
    }

    method AddToleration(name: string) returns (ok: bool)
      modifies `replies, `workloads
      ensures Outcome(Cluster(), replies, ok) == M.AddToleration(old(Cluster()), old(replies), name)
    {
      var key := GetWorkload(name);
      if key.None? {
        return false;
      }
      var ts := workloads[key.value].tolerations;
      if UPGRADE_TOLERATION in ts {
        return true;
      }
      var reply := Call();
      if Applied(reply) {
        SetTolerations(key.value, ts + [UPGRADE_TOLERATION]);
      }
      return reply.Done?;
    }

    // ---------- the plan loops ----------

    /** The plan loop of `handleUpgradeInProgressState`, with its `continue` branches. */
    method GrantAll()
      modifies `replies, `pdbs, `workloads
      ensures (Cluster(), replies) == M.GrantAll(old(Cluster()), old(replies), plan)
    {
      for i := 0 to |plan|
        invariant M.GrantAll(Cluster(), replies, plan[i..]) == M.GrantAll(old(Cluster()), old(replies), plan)
      {
        var e := plan[i];
        assert plan[i..][0] == e && plan[i..][1..] == plan[i+1..];
        var key := GetWorkload(e.name);
        if key.Some? {
          var met := DependenciesMet(e.dependsOn);
          if met == Ok(true) {
            var ok := ReconcilePdb(key.value, true);
            if ok {
              ok := AddToleration(e.name);
            }
          }
        }
      }
    }

    method SetInitialPdbState()
      modifies `replies, `pdbs
      ensures (Cluster(), replies) == M.SetInitialPdbState(old(Cluster()), old(replies), plan)
    {
      for i := 0 to |plan|
        invariant M.SetInitialPdbState(Cluster(), replies, plan[i..])
               == M.SetInitialPdbState(old(Cluster()), old(replies), plan)
      {
        var e := plan[i];
        assert plan[i..][0] == e && plan[i..][1..] == plan[i+1..];
        var key := GetWorkload(e.name);
        if key.Some? {
          var ok := ReconcilePdb(key.value, |e.dependsOn| == 0);
        }
      }
    }

    // ---------- cleanup ----------

    /** The filter of the node loop of cleanup: the taints to keep, and whether any was dropped. */
    method WithoutUpgradeTaints(taints: seq<Taint>) returns (newTaints: seq<Taint>, taintFound: bool)
      ensures newTaints == StripTaints(taints)
      ensures !taintFound <==> forall t :: t in taints ==> t.key != TAINT_KEY
    {
      newTaints, taintFound := [], false;
      for j := 0 to |taints|
        invariant newTaints == StripTaints(taints[..j])
        invariant taintFound <==> exists t :: t in taints[..j] && t.key == TAINT_KEY
      {
        assert taints[..j+1][..j] == taints[..j];
        assert forall t :: t in taints[..j+1] <==> t in taints[..j] || t == taints[j];
        if taints[j].key == TAINT_KEY {
          taintFound := true;
        } else {
          newTaints := newTaints + [taints[j]];
        }
      }
      assert taints[..|taints|] == taints;
    }

    method UntaintNodes()
      modifies `replies, `nodes
      ensures (Cluster(), replies) == UntaintFrom(old(Cluster()), old(replies), 0)
    {
      hide StripTaints;
      var items := nodes;
      for i := 0 to |items|
        invariant |nodes| == |items| && nodes[i..] == items[i..]
        invariant UntaintFrom(Cluster(), replies, i) == UntaintFrom(old(Cluster()), old(replies), 0)
      {
        assert nodes[i] == nodes[i..][0] == items[i];
        var newTaints, taintFound := WithoutUpgradeTaints(items[i].taints);
        if taintFound {
          var reply := Call();
          if Applied(reply) {
            nodes := nodes[i := items[i].(taints := newTaints)];
          }
        }
        assert nodes[i+1..] == items[i..][1..];
      }
    }

    method StripWorkload(key: Key)
      requires key in workloads
      modifies `replies, `workloads
      ensures var ts := old(workloads[key].tolerations);
              (Cluster(), replies) ==
                if forall t :: t in ts ==> t.key != TAINT_KEY then (old(Cluster()), old(replies))
                else (if Applied(Next(old(replies))) then WithTolerations(old(Cluster()), key, StripTolerations(ts))
                      else old(Cluster()), Rest(old(replies)))
    {
      hide WithTolerations;
      var ts := workloads[key].tolerations;
      var newTolerations, tolerationFound := [], false;
      for j := 0 to |ts|
        invariant newTolerations == StripTolerations(ts[..j])
        invariant tolerationFound <==> exists t :: t in ts[..j] && t.key == TAINT_KEY
      {
        assert ts[..j+1][..j] == ts[..j];
        assert forall t :: t in ts[..j+1] <==> t in ts[..j] || t == ts[j];
        if ts[j].key == TAINT_KEY {
          tolerationFound := true;
        } else {
          newTolerations := newTolerations + [ts[j]];
        }
      }
      assert ts[..|ts|] == ts;
      if tolerationFound {
        var reply := Call();
        if Applied(reply) {
          SetTolerations(key, newTolerations);
        }
      }
    }

    method CleanupGlobalUpgradeArtifacts() returns (ok: bool)
      modifies `replies, `nodes, `pdbs, `workloads
      ensures Outcome(Cluster(), replies, ok) == Cleanup(old(Cluster()), old(replies), plan)
    {
      var reply := Call();
      if !reply.Done? {
        return false;
      }
      UntaintNodes();
      ghost var w, rs := Cluster(), replies;
      for i := 0 to |plan|
        invariant CleanupAll(Cluster(), replies, plan[i..]) == CleanupAll(w, rs, plan)
      {
        var e := plan[i];
        assert plan[i..][0] == e && plan[i..][1..] == plan[i+1..];
        var key := GetWorkload(e.name);
        if key.Some? {
          var restored := ReconcilePdb(key.value, true);
          StripWorkload(key.value);
        }
      }
      return true;
    }

    // ---------- the orchestrator object ----------

    method StatusUpdate(o: Orchestrator) returns (ok: bool)
      modifies `replies, `stored
      ensures Outcome(Cluster(), replies, ok) == M.StatusUpdate(old(Cluster()), old(replies), o)
    {
      var reply := Call();
      if Applied(reply) {
        stored := o.(lastKnown := stored.lastKnown);
      }
      return reply.Done?;
    }

    /** `client.Update`; `copy` is the caller's object afterwards. */
    method MetaUpdate(o: Orchestrator) returns (ok: bool, copy: Orchestrator)
      modifies `replies, `stored
      ensures Outcome(Cluster(), replies, ok) == M.MetaUpdate(old(Cluster()), old(replies), o)
      ensures copy == if ok && refreshes then stored else o
    {
      var reply := Call();
      if Applied(reply) {
        stored := stored.(lastKnown := o.lastKnown);
      }
      ok := reply.Done?;
      copy := if ok && refreshes then stored else o;
    }

    // ---------- the state machine ----------

    method CheckForCordon()
      modifies `replies, `stored
      ensures (Cluster(), replies) == CordonCheck(old(Cluster()), old(replies))
    {
      var cordoned := IsAnyNodeCordoned();
      if cordoned == Ok(true) {
        var ok := StatusUpdate(stored.(state := AwaitingUpgradeConfirmation, lastTransition := now));
      }
    }

    method HandleNoUpgradeState() returns (ghost vs: seq<string>)
      modifies this
      ensures Lists(vs, Versions(old(nodes)))
      ensures (Cluster(), replies) == HandleNoUpgrade(Settings(), old(Cluster()), old(replies), vs)
    {
      vs := Enumerate(Versions(nodes));
      if stored.lastKnown == Some(UpgradeInProgress) {
        var versions;
        versions, vs := DetectNodeVersions();
        if versions.Err? || |versions.value| != 1 {
          return;
        }
        var all := AreAllWorkloadsMigrated(versions.value[0]);
        if all == Ok(true) {
          var o := stored;
          var ok := CleanupGlobalUpgradeArtifacts();
          if ok {
            var copy;
            ok, copy := MetaUpdate(o.(lastKnown := None));
          }
          return;
        }
      }
      CheckForCordon();
    }

    method HandleAwaitingConfirmationState() returns (ghost vs: seq<string>)
      modifies this
      ensures Lists(vs, Versions(old(nodes)))
      ensures (Cluster(), replies) == HandleAwaiting(Settings(), old(Cluster()), old(replies), vs)
    {
      vs := Enumerate(Versions(nodes));
      var ok;
      if now - stored.lastTransition > CONFIRMATION_TIMEOUT {
        ok := StatusUpdate(stored.(state := NoUpgrade, lastTransition := now));
        return;
      }
      var versions;
      versions, vs := DetectNodeVersions();
      if versions.Err? {
        return;
      }
      if |versions.value| == 2 {
        SetInitialPdbState();
        var o := stored.(state := UpgradeInProgress, lastTransition := now, lastKnown := Some(UpgradeInProgress));
        ok, o := MetaUpdate(o);
        if !ok {
          return;
        }
        ok := StatusUpdate(o);
      }
    }

    method HandleUpgradeInProgressState() returns (ghost vs: seq<string>)
      modifies this
      ensures Lists(vs, Versions(old(nodes)))
      ensures (Cluster(), replies) == HandleInProgress(Settings(), old(Cluster()), old(replies), vs)
    {
      var versions;
      versions, vs := DetectNodeVersions();
      if versions.Err? || |versions.value| < 2 {
        return;
      }
      var target := DetermineTarget(parse, versions.value);
      if target.Err? {
        return;
      }
      if stored.targetVersion != target.value {
        var ok := StatusUpdate(stored.(targetVersion := target.value));
        if !ok {
          return;
        }
      }
      var ok := PrepareNodes(target.value);
      if !ok {
        return;
      }
      GrantAll();
    }

    method Reconcile() returns (ghost vs: seq<string>)
      modifies this
      ensures Lists(vs, Versions(old(nodes)))
      ensures (Cluster(), replies) == M.Reconcile(Settings(), old(Cluster()), old(replies), vs)
    {
      vs := Enumerate(Versions(nodes));
      var reply := Call();
      if !reply.Done? {
        return;
      }
      if stored.state == Unset {
        var ok := StatusUpdate(stored.(state := NoUpgrade, lastTransition := now));
        if !ok {
          return;
        }
      }
      match stored.state {
        case NoUpgrade =>
          vs := HandleNoUpgradeState();
        case AwaitingUpgradeConfirmation =>
          vs := HandleAwaitingConfirmationState();
        case UpgradeInProgress =>
          vs := HandleUpgradeInProgressState();
        case _ =>
      }
    }
  }
}
