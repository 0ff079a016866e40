/**
 Progress of the layered controller: initialization creates the missing budgets one by one,
 and an upgrade walks through the layers in order and ends with every budget closed.
 */
module LayeredProgress {
  import opened Common
  import opened Api
  import opened DependencyGraph
  import opened Lexicographic
  import opened SemVer
  import opened LayeredModel
  import opened LayeredSafety

  // ---------- what "seen on target" means ----------

  /** The pod is done, or runs on a node of the target's precedence or on one that is gone. */
  predicate PodMoved(parse: Parser, nodes: seq<Node>, p: Pod, target: string) {
    || p.phase == Succeeded || p.phase == Failed
    || (p.phase == Running &&
        var node := FindNode(nodes, p.nodeName);
        node.Some? ==> CompareText(parse, Normalise(node.value.kubeletVersion), target) == 0)
  }

  ghost predicate AppMoved(parse: Parser, w: World, app: string, target: string) {
    forall p :: p in w.pods && "app" in p.labels && p.labels["app"] == app ==> PodMoved(parse, w.nodes, p, target)
  }

  ghost predicate AllMoved(parse: Parser, nodes: seq<Node>, pods: seq<Pod>, target: string) {
    forall p :: p in pods ==> PodMoved(parse, nodes, p, target)
  }

  lemma {:induction false} PodsOnTargetMeans(parse: Parser, nodes: seq<Node>, pods: seq<Pod>,
                                             target: string, rs: Replies)
    ensures var (rs', r) := PodsOnTarget(parse, nodes, pods, target, rs);
            && (r == Ok(true) ==> AllMoved(parse, nodes, pods, target))
            && (rs == [] ==> rs' == [] && (r == Ok(true) <==> AllMoved(parse, nodes, pods, target)))
    decreases pods
  {
    if pods != [] {
      PodsOnTargetMeans(parse, nodes, pods[1..], target, rs);
      PodsOnTargetMeans(parse, nodes, pods[1..], target, Rest(rs));
      assert pods[0] in pods && forall p :: p in pods <==> p == pods[0] || p in pods[1..];
    }
  }

  /** The operator's test answers yes only, and without failing calls exactly, when the app has moved. */
  lemma IsAppOnTargetMeans(parse: Parser, w: World, rs: Replies, app: string, target: string)
    ensures var (rs', r) := IsAppOnTarget(parse, w, rs, app, target);
            && (r == Ok(true) ==> AppMoved(parse, w, app, target))
            && (rs == [] ==> rs' == [] && (r == Ok(true) <==> AppMoved(parse, w, app, target)))
  {
    PodsOnTargetMeans(parse, w.nodes, AppPods(w.pods, app), target, Rest(rs));
  }

  /** How many of the pods have to be looked up on their node. */
  function RunningPods(pods: seq<Pod>): nat {
    if pods == [] then 0
    else (if pods[0].phase == Running then 1 else 0) + RunningPods(pods[1..])
  }

  lemma {:induction false} PodsNeedAnswers(parse: Parser, nodes: seq<Node>, pods: seq<Pod>, target: string, rs: Replies)
    ensures PodsOnTarget(parse, nodes, pods, target, rs).1 == Ok(true) ==> Answered(rs, RunningPods(pods))
    decreases pods
  {
    if pods != [] {
      PodsNeedAnswers(parse, nodes, pods[1..], target, rs);
      PodsNeedAnswers(parse, nodes, pods[1..], target, Rest(rs));
      if pods[0].phase == Running && rs != [] && PodsOnTarget(parse, nodes, pods, target, rs).1 == Ok(true) {
        forall i | 0 <= i < RunningPods(pods) && i < |rs| ensures rs[i].Done? {
          assert i > 0 ==> rs[i] == rs[1..][i-1];
        }
      }
    }
  }

  /** A yes needs an answered list of the app's pods and an answered read of a node for each running one. */
  lemma SightingNeedsAnswers(parse: Parser, w: World, rs: Replies, app: string, target: string)
    ensures IsAppOnTarget(parse, w, rs, app, target).1 == Ok(true) ==>
              Next(rs).Done? && Answered(Rest(rs), RunningPods(AppPods(w.pods, app)))
  {
    PodsNeedAnswers(parse, w.nodes, AppPods(w.pods, app), target, Rest(rs));
  }

  // ---------- the target version ----------

  lemma {:induction false} NodeVersionsMeans(parse: Parser, nodes: seq<Node>, versions: set<string>)
    requires forall v :: v in versions <==> exists n :: n in nodes && Normalise(n.kubeletVersion) == v && parse(v).Some?
    ensures Lists(NodeVersions(parse, nodes), versions)
  {
    hide Normalise;
    assert versions == ReadableVersions(parse, nodes);
    if nodes != [] {
      var before, last := nodes[..|nodes|-1], nodes[|nodes|-1];
      NodeVersionsMeans(parse, before, ReadableVersions(parse, before));
      assert nodes == before + [last];
      OneMoreNode(parse, before, last);
      hide ReadableVersions;
      assert Lists(NodeVersions(parse, before), ReadableVersions(parse, before));
    }
  }

  ghost function ReadableVersions(parse: Parser, nodes: seq<Node>): set<string> {
    set n | n in nodes && parse(Normalise(n.kubeletVersion)).Some? :: Normalise(n.kubeletVersion)
  }

  lemma OneMoreNode(parse: Parser, before: seq<Node>, last: Node)
    ensures var v := Normalise(last.kubeletVersion);
            ReadableVersions(parse, before + [last])
            == ReadableVersions(parse, before) + if parse(v).Some? then {v} else {}
  {
    hide Normalise;
    var v := Normalise(last.kubeletVersion);
    assert forall n :: n in before + [last] <==> n in before || n == last;
    assert parse(v).Some? ==> v in ReadableVersions(parse, before + [last]);
  }

  /**
   What the operator takes for the target depends on the set of nodes only; with two versions
   to be seen it is one that no readable node version sorts after.
   */
  lemma TargetIgnoresNodeOrder(parse: Parser, a: seq<Node>, b: seq<Node>, rs: Replies)
    requires forall n :: n in a <==> n in b
    ensures FindTarget(parse, a, rs) == FindTarget(parse, b, rs)
    ensures var t := FindTarget(parse, a, rs).1;
            t.Ok? && t.value.version != "" ==>
              forall n :: n in a && parse(Normalise(n.kubeletVersion)).Some? ==>
                SortsBefore(parse, Normalise(n.kubeletVersion), t.value.version)
  {
    var versions := ReadableVersions(parse, a);
    NodeVersionsMeans(parse, a, versions);
    NodeVersionsMeans(parse, b, versions);
    var va, vb := NodeVersions(parse, a), NodeVersions(parse, b);
    ListsSize(va, versions);
    ListsSize(vb, versions);
    if a != [] { assert a[0] in b; }
    if b != [] { assert b[0] in a; }
    if va != [] {
      GreatestIgnoresOrder(parse, va, vb);
    }
  }

  /**
   What the operator takes for the target, on the nodes: an error without a readable version; an
   upgrade if there are two of them or a node is unschedulable; and the version only if there are two.
   */
  lemma TargetMeans(parse: Parser, nodes: seq<Node>)
    ensures var versions, t := ReadableVersions(parse, nodes), FindTarget(parse, nodes, []).1;
            && (t.Err? <==> versions == {})
            && (t.Ok? ==> (t.value.inProgress <==> |versions| > 1 || exists n :: n in nodes && n.unschedulable))
            && (t.Ok? && |versions| == 1 ==> t.value.version == "")
            && (t.Ok? && |versions| > 1 ==> t.value.version in versions)
  {
    var versions := ReadableVersions(parse, nodes);
    NodeVersionsMeans(parse, nodes, versions);
    ListsSize(NodeVersions(parse, nodes), versions);
    hide Normalise;
    if versions == {} {
      assert |NodeVersions(parse, nodes)| == 0;
    }
  }

  /** With several readable versions the one with the greatest numbers is the target. */
  lemma TargetHasGreatestNumbers(parse: Parser, nodes: seq<Node>, v: string)
    requires v in ReadableVersions(parse, nodes) && |ReadableVersions(parse, nodes)| > 1
    requires forall w :: w in ReadableVersions(parse, nodes) && w != v ==>
               parse(w).Some? && OlderNumbers(parse(w).value, parse(v).value)
    ensures FindTarget(parse, nodes, []).1 == Ok(Target(v, true))
  {
    var versions := ReadableVersions(parse, nodes);
    NodeVersionsMeans(parse, nodes, versions);
    ListsSize(NodeVersions(parse, nodes), versions);
    hide Normalise, OlderNumbers;
    GreatestHasGreatestNumbers(parse, NodeVersions(parse, nodes), v);
  }

  // ---------- what budget operations leave alone ----------

  /** The budget is there and has a `maxUnavailable`. */
  predicate Present(w: World, name: string) {
    name in w.budgets && w.budgets[name].Some?
  }

  /** A `maxUnavailable`, if there is one, is a number and not a percentage or other text. */
  predicate Numeric(w: World, name: string) {
    Present(w, name) ==> w.budgets[name].value.Int?
  }

  /** No budget went away, and none that was a number became something else. */
  ghost predicate BudgetsKept(a: World, b: World) {
    forall name :: (Present(a, name) ==> Present(b, name)) && (Numeric(a, name) ==> Numeric(b, name))
  }

  /** Only budgets were written, and the log has gained nothing but those writes. */
  ghost predicate Wrote(a: World, b: World) {
    && b == a.(budgets := b.budgets, log := b.log)
    && BudgetsKept(a, b)
    && a.log <= b.log
    && forall l :: |a.log| <= l < |b.log| ==> b.log[l].BudgetSet?
  }

  lemma WroteTransitive(a: World, b: World, c: World)
    requires Wrote(a, b) && Wrote(b, c)
    ensures Wrote(a, c)
  {
    forall l | |a.log| <= l < |c.log| ensures c.log[l].BudgetSet? {
      if l < |b.log| { assert c.log[l] == b.log[l]; }
    }
  }

  lemma PutWrites(w: World, app: string, value: int)
    ensures Wrote(w, w) && Wrote(w, PutBudget(w, app, value))
  {}

  /** However often it retries, `ensurePDBState` writes its own budget once at most. */
  lemma {:induction false} EnsureWritesOnce(w: World, rs: Replies, app: string, value: int, tries: nat)
    ensures var out := EnsurePdb(w, rs, app, value, tries);
            && Wrote(w, out.w) && (out.w == w || out.w == PutBudget(w, app, value))
            && (rs == [] && tries > 0 ==> out.ok && out.rs == [])
    decreases tries
  {
    hide HasBudget, PutBudget, Wrote;
    PutWrites(w, app, value);
    if tries > 0 {
      EnsureWritesOnce(w, Rest(rs), app, value, tries - 1);
      EnsureWritesOnce(w, Rest(Rest(rs)), app, value, tries - 1);
    }
  }

  lemma {:induction false} EnsureAllWrites(w: World, rs: Replies, apps: seq<string>, value: int)
    ensures Wrote(w, EnsureAll(w, rs, apps, value).w)
    decreases apps
  {
    if apps != [] {
      hide EnsurePdb, Wrote;
      EnsureWritesOnce(w, rs, apps[0], value, RETRY_STEPS);
      var out := EnsurePdb(w, rs, apps[0], value, RETRY_STEPS);
      EnsureAllWrites(out.w, out.rs, apps[1..], value);
      WroteTransitive(w, out.w, EnsureAll(out.w, out.rs, apps[1..], value).w);
    }
  }

  lemma {:induction false} CheckAppsMeans(w: World, rs: Replies, apps: seq<string>)
    ensures var a := CheckApps(w, rs, apps, 0);
            && Wrote(w, a.w)
            && (a.r == Ok(true) ==> a.w == w && forall app :: app in apps ==> HasBudget(w, app, 0))
            && (a.r == Ok(false) ==> exists app :: app in apps && !HasBudget(w, app, 0))
            && (rs == [] ==> a.r.Ok? && a.rs == [])
    decreases apps
  {
    if apps != [] {
      assert apps[0] in apps && forall app :: app in apps <==> app == apps[0] || app in apps[1..];
      EnsureWritesOnce(w, Rest(rs), apps[0], 0, RETRY_STEPS);
      var a := IsPdbInState(w, rs, apps[0], 0);
      if a.r == Ok(true) {
        CheckAppsMeans(a.w, a.rs, apps[1..]);
      }
    }
    hide EnsurePdb, PdbName, InState;
  }

  lemma {:induction false} AllOnTargetKeepsRest(parse: Parser, w: World, rs: Replies, apps: seq<string>, target: string)
    ensures var a := AllOnTarget(parse, w, rs, apps, target); a.w == w.(log := a.w.log)
    decreases apps
  {
    if apps != [] {
      var (rs1, migrated) := IsAppOnTarget(parse, w, rs, apps[0], target);
      AllOnTargetKeepsRest(parse, Observed(w, apps[0], target), rs1, apps[1..], target);
    }
    hide IsAppOnTarget;
  }

  // ---------- initialization ----------

  /** The apps without a budget, in order. */
  function MissingApps(w: World, apps: seq<string>): seq<string>
    decreases apps
  {
    if apps == [] then []
    else (if PdbName(apps[0]) in w.budgets then [] else [apps[0]]) + MissingApps(w, apps[1..])
  }

  /** No existing budget of these apps has the wrong value. */
  ghost predicate NoneWrong(w: World, apps: seq<string>) {
    forall app :: app in apps && PdbName(app) in w.budgets ==> HasBudget(w, app, 0)
  }

  ghost predicate DistinctApps(apps: seq<string>) {
    forall i, j :: 0 <= i < j < |apps| ==> apps[i] != apps[j]
  }

  lemma {:induction false} PutLeavesRest(w: World, app: string, apps: seq<string>)
    requires app !in apps
    ensures MissingApps(PutBudget(w, app, 0), apps) == MissingApps(w, apps)
    decreases apps
  {
    if apps != [] {
      PdbNameInjective(app, apps[0]);
      PutLeavesRest(w, app, apps[1..]);
    }
  }

  /** Without failing calls the check creates the first missing budget and no other. */
  lemma {:induction false} CheckCreatesFirstMissing(w: World, apps: seq<string>)
    requires NoneWrong(w, apps) && DistinctApps(apps)
    ensures var a := CheckApps(w, [], apps, 0);
            var missing := MissingApps(w, apps);
            && a.rs == []
            && (missing == [] ==> a.w == w && a.r == Ok(true) && forall app :: app in apps ==> HasBudget(w, app, 0))
            && (missing != [] ==> a.w == PutBudget(w, missing[0], 0) && a.r == Ok(false)
                                  && missing[0] in apps && MissingApps(a.w, apps) == missing[1..])
    decreases apps
  {
    if apps != [] {
      assert apps[0] in apps && forall app :: app in apps <==> app == apps[0] || app in apps[1..];
      if PdbName(apps[0]) in w.budgets {
        CheckCreatesFirstMissing(w, apps[1..]);
        var missing := MissingApps(w, apps[1..]);
        if missing != [] {
          assert PdbName(apps[0]) in PutBudget(w, missing[0], 0).budgets;
        }
      } else {
        PutLeavesRest(w, apps[0], apps[1..]);
      }
    }
  }

  lemma NoneWrongAfterPut(w: World, app: string, apps: seq<string>)
    requires NoneWrong(w, apps)
    ensures NoneWrong(PutBudget(w, app, 0), apps)
  {
    forall other | other in apps && PdbName(other) in PutBudget(w, app, 0).budgets
      ensures HasBudget(PutBudget(w, app, 0), other, 0)
    {
      PdbNameInjective(app, other);
    }
  }

  /** Sorted levels laid end to end repeat no name. */
  lemma {:induction false} FirstLayersDistinct(plan: Plan, k: nat)
    requires k <= Depth(plan)
    ensures DistinctApps(Flatten(FirstLayers(plan, k)))
    ensures forall app :: app in Flatten(FirstLayers(plan, k)) ==> app in Resolved(plan, k)
  {
    if k > 0 {
      FirstLayersDistinct(plan, k-1);
      var before, last := FirstLayers(plan, k-1), Enumerate(Level(plan, k-1));
      FlattenSnoc(before, last);
      ResolvedGrows(plan, k-1, k);
      var a := Flatten(before);
      forall i, j | 0 <= i < j < |a + last| ensures (a + last)[i] != (a + last)[j] {
        if i < |a| <= j {
          assert a[i] in a && last[j - |a|] in last;
        }
      }
    }
  }

  lemma {:induction false} FlattenSnoc(layers: seq<seq<string>>, last: seq<string>)
    ensures Flatten(layers + [last]) == Flatten(layers) + last
  {
    if layers == [] {
      assert [last][1..] == [];
    } else {
      FlattenSnoc(layers[1..], last);
      assert (layers + [last])[1..] == layers[1..] + [last];
    }
  }

  /** The apps in the order initialization visits them. */
  ghost function AppsInOrder(plan: Plan): seq<string> {
    Flatten(Layers(plan))
  }

  /** Consecutive passes over the same plan, each from where the one before it ended. */
  ghost predicate Passes(plan: Plan, run: seq<Pass>) {
    && run != [] && Build(plan).Ok?
    && (forall i :: 0 <= i < |run| ==> multiset(run[i].c.plan) == multiset(plan))
    && forall i :: 0 <= i < |run| - 1 ==>
         EnvironmentStep(Reconcile(run[i].c, run[i].before, run[i].rs), run[i+1].before)
  }

  lemma NextPass(plan: Plan, run: seq<Pass>, i: nat)
    requires Passes(plan, run) && 0 < i < |run|
    ensures var w, w' := Reconcile(run[i-1].c, run[i-1].before, run[i-1].rs), run[i].before;
            w'.phase == w.phase && w'.currentLayer == w.currentLayer && w'.budgets == w.budgets && w'.log == w.log
    ensures Build(run[i-1].c.plan) == Build(plan)
  {
    assert EnvironmentStep(Reconcile(run[i-1].c, run[i-1].before, run[i-1].rs), run[i-1+1].before);
    LayeringIgnoresOrder(run[i-1].c.plan, plan);
  }

  lemma {:induction false} MissingDependsOnBudgets(a: World, b: World, apps: seq<string>)
    requires a.budgets == b.budgets
    ensures MissingApps(a, apps) == MissingApps(b, apps)
    ensures NoneWrong(a, apps) <==> NoneWrong(b, apps)
    decreases apps
  {
    if apps != [] {
      MissingDependsOnBudgets(a, b, apps[1..]);
    }
    assert forall app :: HasBudget(a, app, 0) == HasBudget(b, app, 0);
  }

  lemma InitializingPass(plan: Plan, c: Config, w: World)
    requires Build(plan).Ok? && Build(c.plan) == Build(plan) && w.phase == Initializing
    requires NoneWrong(w, AppsInOrder(plan))
    ensures var w' := Reconcile(c, w, []);
            var missing := MissingApps(w, AppsInOrder(plan));
            && NoneWrong(w', AppsInOrder(plan))
            && (missing == [] ==> w'.phase == Idle && w'.budgets == w.budgets
                                  && forall app :: app in AppsInOrder(plan) ==> HasBudget(w', app, 0))
            && (missing != [] ==> w' == PutBudget(w, missing[0], 0)
                                  && MissingApps(w', AppsInOrder(plan)) == missing[1..])
  {
    hide Flatten, Resolved, Level, IsDepth, CheckApps, MissingApps;
    var apps := AppsInOrder(plan);
    FirstLayersDistinct(plan, Depth(plan));
    CheckCreatesFirstMissing(w, apps);
    var missing := MissingApps(w, apps);
    if missing != [] {
      NoneWrongAfterPut(w, missing[0], apps);
    }
    hide Layers, Depth;
  }

  /**
   Main result: with no wrong budget around and no failing call, each Initializing pass
   creates exactly the next missing budget in layer order, and the pass after the last one
   reaches Idle with every layered app at zero.
   */
  lemma {:induction false} InitializationConverges(plan: Plan, run: seq<Pass>, i: nat)
    requires Passes(plan, run) && i < |run| && run[0].before.phase == Initializing
    requires NoneWrong(run[0].before, AppsInOrder(plan))
    requires forall j :: 0 <= j < i ==> run[j].rs == []
    ensures var missing := MissingApps(run[0].before, AppsInOrder(plan));
            && (i <= |missing| ==> run[i].before.phase == Initializing
                                   && MissingApps(run[i].before, AppsInOrder(plan)) == missing[i..]
                                   && NoneWrong(run[i].before, AppsInOrder(plan)))
            && (i == |missing| + 1 ==> run[i].before.phase == Idle)
            && (i == |missing| + 1 ==> forall app :: app in AppsInOrder(plan) ==> HasBudget(run[i].before, app, 0))
  {
    hide AppsInOrder, MissingApps, NoneWrong, Reconcile, HasBudget;
    var apps := AppsInOrder(plan);
    if 0 < i <= |MissingApps(run[0].before, apps)| + 1 {
      InitializationConverges(plan, run, i-1);
      NextPass(plan, run, i);
      var w := run[i-1].before;
      InitializingPass(plan, run[i-1].c, w);
      var w' := Reconcile(run[i-1].c, w, []);
      MissingDependsOnBudgets(w', run[i].before, apps);
      SameBudgets(w', run[i].before);
    }
  }

  lemma SameBudgets(a: World, b: World)
    requires a.budgets == b.budgets
    ensures forall app, v :: HasBudget(a, app, v) <==> HasBudget(b, app, v)
  {}

  /** An existing budget of a layered app that does not read as zero. */
  ghost predicate Wrong(w: World, plan: Plan, app: string) {
    app in AppsInOrder(plan) && PdbName(app) in w.budgets && !HasBudget(w, app, 0)
  }

  lemma {:induction false} CheckStopsAtWrong(w: World, rs: Replies, apps: seq<string>, app: string)
    requires app in apps && PdbName(app) in w.budgets && !HasBudget(w, app, 0)
    ensures var a := CheckApps(w, rs, apps, 0);
            && a.r != Ok(true) && a.w.phase == w.phase && (rs == [] ==> a.r == Ok(false) && a.rs == [])
            && PdbName(app) in a.w.budgets && a.w.budgets[PdbName(app)] == w.budgets[PdbName(app)]
    decreases apps
  {
    var first := apps[0];
    EnsureTouchesOnly(w, Rest(rs), first, app, RETRY_STEPS);
    var a := IsPdbInState(w, rs, first, 0);
    if a.r == Ok(true) {
      assert first != app;
      CheckStopsAtWrong(a.w, a.rs, apps[1..], app);
    }
  }

  lemma EnsureTouchesOnly(w: World, rs: Replies, app: string, other: string, tries: nat)
    requires PdbName(other) in w.budgets
    ensures var out := EnsurePdb(w, rs, app, 0, tries);
            && out.w.phase == w.phase && PdbName(other) in out.w.budgets
            && (app != other ==> out.w.budgets[PdbName(other)] == w.budgets[PdbName(other)])
  {
    PdbNameInjective(app, other);
    EnsureWritesOnce(w, rs, app, 0, tries);
    hide EnsurePdb, PdbName;
  }

  /**
   The other half: an existing wrong budget is never repaired, so while one is there no run
   leaves Initializing, whatever its calls answer.
   */
  lemma {:induction false} WrongBudgetBlocksInitialization(plan: Plan, run: seq<Pass>, i: nat, app: string)
    requires Passes(plan, run) && i < |run| && run[0].before.phase == Initializing && Wrong(run[0].before, plan, app)
    ensures run[i].before.phase == Initializing && Wrong(run[i].before, plan, app)
  {
    hide AppsInOrder;
    if i > 0 {
      WrongBudgetBlocksInitialization(plan, run, i-1, app);
      NextPass(plan, run, i);
      WrongPass(plan, run[i-1].c, run[i-1].before, run[i-1].rs, app);
    }
  }

  lemma WrongPass(plan: Plan, c: Config, w: World, rs: Replies, app: string)
    requires Build(plan).Ok? && Build(c.plan) == Build(plan) && Wrong(w, plan, app)
    requires w.phase == Initializing || w.phase == Idle
    ensures var w' := Reconcile(c, w, rs);
            && Wrong(w', plan, app) && w'.budgets[PdbName(app)] == w.budgets[PdbName(app)]
            && (w'.phase == w.phase || w'.phase == Initializing)
            && (rs == [] ==> w'.phase == Initializing)
  {
    hide CheckApps, Flatten, Layers, PdbName, FindTarget, InState;
    CheckStopsAtWrong(w, Rest(rs), AppsInOrder(plan), app);
    var a := CheckApps(w, Rest(rs), AppsInOrder(plan), 0);
    if a.r.Ok? {
      assert a.r == Ok(a.r.value);
      if a.r.value {
        assert false;
      }
      assert a.r == Ok(false);
    }
  }

  /**
   And such budgets come about: when the nodes converge to one version while a layer is open,
   its budgets stay open for ever. The machine falls back to Idle and then to Initializing,
   and leaves neither again, whatever later calls answer.
   */
  lemma {:induction false} AbandonedLayerStaysOpen(plan: Plan, run: seq<Pass>, i: nat, app: string)
    requires Passes(plan, run) && 0 < i < |run| && app in AppsInOrder(plan)
    requires run[0].before.phase == Upgrading && IsOpen(run[0].before, app)
    requires run[0].rs == [] && Visible(run[0].c, run[0].before, false)
    ensures IsOpen(run[i].before, app) && (run[i].before.phase == Idle || run[i].before.phase == Initializing)
    ensures (exists j :: 0 < j < i && run[j].rs == []) ==> run[i].before.phase == Initializing
  {
    hide AppsInOrder, Reconcile, Visible, PdbName, Build;
    NextPass(plan, run, i);
    var p := run[i-1];
    if i == 1 {
      UpgradeIsAbandoned(p.c, p.before);
    } else {
      hide Passes;
      AbandonedLayerStaysOpen(plan, run, i-1, app);
      WrongPass(plan, p.c, p.before, p.rs, app);
    }
  }

  lemma UpgradeIsAbandoned(c: Config, w: World)
    requires w.phase == Upgrading && Visible(c, w, false) && Build(c.plan).Ok?
    ensures var w' := Reconcile(c, w, []);
            w'.phase == Idle && w'.budgets == w.budgets
  {
    hide FindTarget, Build;
    TargetUsesOneCall(c.parse, w.nodes);
  }

  // ---------- the cursor ----------

  /** From Upgrading at cursor `k`, the states one pass can lead to. */
  ghost predicate CursorStep(plan: Plan, k: nat, w': World) {
    || (w'.phase == Upgrading && w'.currentLayer == k)
    || (w'.phase == Upgrading && w'.currentLayer == k + 1 && k < Depth(plan)
        && OpenAfter(w'.log) == {} && forall app :: app in Level(plan, k) ==> SeenSinceStart(w'.log, app))
    || (w'.phase == Completed && w'.currentLayer == k && k >= Depth(plan) && OpenAfter(w'.log) == {})
    || (w'.phase == Idle && w'.currentLayer == 0)
  }

  lemma PhaseWriteKeepsOpen(w: World, rs: Replies, phase: Phase, layer: nat)
    ensures OpenAfter(SetPhase(w, rs, phase, layer).w.log) == OpenAfter(w.log)
  {
    ExtendLog(w.log, PhaseSet(phase, layer));
  }

  /**
   The cursor stays, or rises by one past a layer all of which was seen on the target version
   and closed again; Completed is entered only beyond the last layer with everything closed.
   */
  lemma CursorMovesByOne(plan: Plan, c: Config, w: World, rs: Replies)
    requires Inv(plan, w) && w.phase == Upgrading && Build(c.plan) == Build(plan) && Build(plan).Ok?
    ensures CursorStep(plan, w.currentLayer, Reconcile(c, w, rs))
  {
    hide Inv, AtLayer, Layers, Level, OpenAfter, SeenSinceStart, ProcessLayer, FindTarget, IsDepth;
    var k := w.currentLayer;
    var (rs2, t) := FindTarget(c.parse, w.nodes, Rest(rs));
    if k < Depth(plan) {
      InvIsAtLayer(plan, w);
      if t.Ok? {
        ProcessLayerSafe(plan, c.parse, w, rs2, t.value.version, k);
      }
    } else {
      NothingOpenAtTheEnd(plan, w);
      PhaseWriteKeepsOpen(w, rs2, Completed, k);
    }
  }

  lemma NothingOpenAtTheEnd(plan: Plan, w: World)
    requires Inv(plan, w) && w.phase == Upgrading && w.currentLayer >= Depth(plan)
    ensures OpenAfter(w.log) == {}
  {}

  /** One pass of a run and the environment step after it. */
  lemma RunStep(plan: Plan, run: seq<Pass>, i: nat)
    requires IsRun(plan, run) && i + 1 < |run|
    ensures var p, w' := run[i], run[i+1].before;
            && Inv(plan, p.before) && Build(p.c.plan) == Build(plan)
            && w'.phase == Reconcile(p.c, p.before, p.rs).phase
            && w'.currentLayer == Reconcile(p.c, p.before, p.rs).currentLayer
            && w'.log == Reconcile(p.c, p.before, p.rs).log
            && w'.budgets == Reconcile(p.c, p.before, p.rs).budgets
  {
    RunKeepsInv(plan, run, i);
    assert EnvironmentStep(Reconcile(run[i].c, run[i].before, run[i].rs), run[i+1].before);
    LayeringIgnoresOrder(run[i].c.plan, plan);
    hide Inv, Reconcile, Build;
  }

  /** In a run the cursor of an upgrade starts at zero, climbs by single steps and never passes the last layer. */
  lemma {:induction false} CursorStaysInRange(plan: Plan, run: seq<Pass>, i: nat)
    requires IsFreshRun(plan, run) && Build(plan).Ok? && 0 < i < |run| && run[i].before.phase == Upgrading
    ensures run[i].before.currentLayer <= Depth(plan)
    ensures var k, was := run[i].before.currentLayer, run[i-1].before;
            if was.phase == Upgrading then was.currentLayer <= k <= was.currentLayer + 1 else k == 0
  {
    hide Inv, IsDepth, Reconcile, Build, Level, OpenAfter, SeenSinceStart, IsRun;
    RunStep(plan, run, i-1);
    if run[i-1].before.phase == Upgrading {
      assert i - 1 > 0;
      CursorStaysInRange(plan, run, i-1);
      CursorMovesByOne(plan, run[i-1].c, run[i-1].before, run[i-1].rs);
    } else {
      PassFollowsProtocol(plan, run[i-1].c, run[i-1].before, run[i-1].rs);
    }
  }

  // ---------- passes that advance an upgrade ----------

  /**
   A progress pass: no call fails, the target is visible, and by the time it looks every app of
   the current layer has moved, whether during this pass's opening of the layer or an earlier one's.
   */
  ghost predicate Unhindered(plan: Plan, p: Pass) {
    && p.rs == []
    && var t := FindTarget(p.c.parse, p.before.nodes, []).1;
       && t.Ok? && t.value.inProgress && t.value.version != ""
       && (p.before.currentLayer < Depth(plan) ==>
             forall app :: app in Level(plan, p.before.currentLayer) ==>
               AppMoved(p.c.parse, p.before, app, t.value.version))
  }

  lemma {:induction false} EnsureAllSucceeds(w: World, apps: seq<string>, value: int)
    ensures var out := EnsureAll(w, [], apps, value);
            out.ok && out.rs == [] && out.w == w.(budgets := out.w.budgets, log := out.w.log)
    decreases apps
  {
    if apps != [] {
      EnsureAllSucceeds(EnsurePdb(w, [], apps[0], value, RETRY_STEPS).w, apps[1..], value);
    }
  }

  lemma {:induction false} AllOnTargetSucceeds(parse: Parser, w: World, apps: seq<string>, target: string)
    requires forall app :: app in apps ==> AppMoved(parse, w, app, target)
    ensures var a := AllOnTarget(parse, w, [], apps, target);
            a.r == Ok(true) && a.rs == [] && a.w == w.(log := a.w.log)
    decreases apps
  {
    if apps != [] {
      IsAppOnTargetMeans(parse, w, [], apps[0], target);
      assert forall app :: app in apps[1..] ==> app in apps;
      var w1 := Observed(w, apps[0], target);
      assert forall app :: AppMoved(parse, w1, app, target) == AppMoved(parse, w, app, target);
      AllOnTargetSucceeds(parse, w1, apps[1..], target);
    }
  }

  lemma UnhinderedPass(plan: Plan, p: Pass)
    requires Unhindered(plan, p) && Build(p.c.plan) == Build(plan) && Build(plan).Ok? && p.before.phase == Upgrading
    ensures var k, w' := p.before.currentLayer, Reconcile(p.c, p.before, p.rs);
            if k < Depth(plan) then w'.phase == Upgrading && w'.currentLayer == k + 1
            else w'.phase == Completed && w'.currentLayer == k
  {
    hide EnsureAll, AllOnTarget, Layers, Level, IsDepth, FindTarget;
    var w, k := p.before, p.before.currentLayer;
    var t := FindTarget(p.c.parse, w.nodes, []).1.value;
    TargetUsesOneCall(p.c.parse, w.nodes);
    if k < Depth(plan) {
      var apps := Layers(plan)[k];
      LayerIsLevel(plan, k);
      EnsureAllSucceeds(w, apps, 1);
      var raised := EnsureAll(w, [], apps, 1);
      AllOnTargetSucceeds(p.c.parse, raised.w, apps, t.version);
      var a := AllOnTarget(p.c.parse, raised.w, [], apps, t.version);
      EnsureAllSucceeds(a.w, apps, 0);
    }
  }

  lemma TargetUsesOneCall(parse: Parser, nodes: seq<Node>)
    ensures FindTarget(parse, nodes, []).0 == []
  {}

  lemma UnhinderedStep(plan: Plan, p: Pass)
    requires Unhindered(plan, p) && Build(p.c.plan) == Build(plan) && Build(plan).Ok?
    requires p.before.phase == Upgrading && Inv(plan, p.before)
    ensures var k, w' := p.before.currentLayer, Reconcile(p.c, p.before, p.rs);
            if k < Depth(plan) then w'.phase == Upgrading && w'.currentLayer == k + 1
            else w'.phase == Completed && OpenAfter(w'.log) == {}
  {
    UnhinderedPass(plan, p);
    CursorMovesByOne(plan, p.c, p.before, p.rs);
    hide Reconcile, Inv, OpenAfter, Unhindered, Build, IsDepth;
  }

  // ---------- every phase ----------

  /** Whether the nodes show an upgrade, as far as they can be read. */
  ghost predicate Visible(c: Config, w: World, inProgress: bool) {
    var t := FindTarget(c.parse, w.nodes, []).1;
    t.Ok? && t.value.inProgress == inProgress
  }

  ghost predicate AllAtZero(plan: Plan, w: World) {
    forall app :: app in AppsInOrder(plan) ==> HasBudget(w, app, 0)
  }

  /** Where one pass can lead from each phase, and what must have been seen for it. */
  ghost predicate Protocol(plan: Plan, c: Config, w: World, w': World) {
    match w.phase
    case NoPhase => w'.phase == NoPhase || (w'.phase == Initializing && w'.currentLayer == 0)
    case Initializing => w'.phase == Initializing || (w'.phase == Idle && AllAtZero(plan, w'))
    case Idle =>
      || w'.phase == Idle
      || (w'.phase == Initializing && !AllAtZero(plan, w))
      || (w'.phase == Upgrading && w'.currentLayer == 0 && START in w'.log
          && Visible(c, w, true) && AllAtZero(plan, w'))
    case Upgrading =>
      || w'.phase == Upgrading
      || (w'.phase == Completed && w.currentLayer >= Depth(plan) && Visible(c, w, true))
      || (w'.phase == Idle && w'.currentLayer == 0 && Visible(c, w, false))
    case Completed => w'.phase == Completed || (w'.phase == Idle && w'.currentLayer == 0 && Visible(c, w, false))
    case OtherPhase => w' == w
  }

  ghost predicate Kept(a: World, b: World) {
    b.nodes == a.nodes && b.pods == a.pods && BudgetsKept(a, b)
  }

  lemma KeptTransitive(a: World, b: World, c: World)
    requires Kept(a, b) && Kept(b, c)
    ensures Kept(a, c)
  {}

  lemma WroteKeeps(a: World, b: World)
    requires Wrote(a, b)
    ensures Kept(a, b) && b.phase == a.phase
  {}

  /** Processing a layer changes the cursor, budgets and log at most, and no budget goes away. */
  lemma ProcessLayerKeepsRest(parse: Parser, w: World, rs: Replies, apps: seq<string>, target: string)
    requires w.phase == Upgrading
    ensures var w' := ProcessLayer(parse, w, rs, apps, target);
            w'.phase == Upgrading && Kept(w, w')
  {
    hide EnsureAll, AllOnTarget, Wrote, Present;
    EnsureAllWrites(w, rs, apps, 1);
    var raised := EnsureAll(w, rs, apps, 1);
    WroteKeeps(w, raised.w);
    AllOnTargetKeepsRest(parse, raised.w, raised.rs, apps, target);
    var a := AllOnTarget(parse, raised.w, raised.rs, apps, target);
    assert Kept(raised.w, a.w) by { SameBudgetsKept(raised.w, a.w); }
    EnsureAllWrites(a.w, a.rs, apps, 0);
    var closed := EnsureAll(a.w, a.rs, apps, 0);
    WroteKeeps(a.w, closed.w);
    SameBudgetsKept(closed.w, SetPhase(closed.w, closed.rs, Upgrading, closed.w.currentLayer + 1).w);
    hide Kept;
    KeptTransitive(w, raised.w, a.w);
    KeptTransitive(w, a.w, closed.w);
    KeptTransitive(w, closed.w, SetPhase(closed.w, closed.rs, Upgrading, closed.w.currentLayer + 1).w);
  }

  lemma SameBudgetsKept(a: World, b: World)
    requires b.nodes == a.nodes && b.pods == a.pods && b.budgets == a.budgets
    ensures Kept(a, b)
  {}

  /** A readable answer about the target does not depend on the calls still to come. */
  lemma TargetFromNodes(parse: Parser, nodes: seq<Node>, rs: Replies)
    ensures FindTarget(parse, nodes, rs).1.Ok? ==> FindTarget(parse, nodes, rs).1 == FindTarget(parse, nodes, []).1
    ensures FindTarget(parse, nodes, rs).1.Ok? <==> Next(rs).Done? && FindTarget(parse, nodes, []).1.Ok?
  {}

  lemma InitializingFollowsProtocol(plan: Plan, c: Config, w: World, rs: Replies)
    requires w.phase == Initializing
    ensures Protocol(plan, c, w, ReconcileInitializing(w, rs, Layers(plan)))
  {
    hide CheckApps, Flatten, Layers, HasBudget, IsDepth;
    var a := CheckApps(w, rs, AppsInOrder(plan), 0);
    CheckAppsMeans(w, rs, AppsInOrder(plan));
    SetPhaseKeepsBudgets(a.w, a.rs, Idle, a.w.currentLayer);
  }

  lemma IdleFollowsProtocol(plan: Plan, c: Config, w: World, rs: Replies)
    requires w.phase == Idle
    ensures Protocol(plan, c, w, ReconcileIdle(c.parse, w, rs, Layers(plan)))
  {
    hide CheckApps, FindTarget, Flatten, Layers, HasBudget, IsDepth;
    var a := CheckApps(w, rs, AppsInOrder(plan), 0);
    CheckAppsMeans(w, rs, AppsInOrder(plan));
    match a.r
    case Err =>
    case Ok(ready) =>
      assert a.r == Ok(ready);
      if ready {
        TargetFromNodes(c.parse, w.nodes, a.rs);
        SetPhaseKeepsBudgets(w, FindTarget(c.parse, w.nodes, a.rs).0, Upgrading, 0);
        assert (w.log + [START])[|w.log|] == START;
      }
  }

  lemma UpgradingFollowsProtocol(plan: Plan, c: Config, w: World, rs: Replies)
    requires w.phase == Upgrading
    ensures Protocol(plan, c, w, ReconcileUpgrading(c.parse, w, rs, Layers(plan)))
  {
    hide ProcessLayer, FindTarget, Flatten, Layers, HasBudget, IsDepth;
    TargetFromNodes(c.parse, w.nodes, rs);
    var (rs2, t) := FindTarget(c.parse, w.nodes, rs);
    if t.Ok? && w.currentLayer < Depth(plan) {
      ProcessLayerKeepsRest(c.parse, w, rs2, Layers(plan)[w.currentLayer], t.value.version);
    }
  }

  /** Every pass from every phase, whatever its calls answer, follows the protocol. */
  lemma PassFollowsProtocol(plan: Plan, c: Config, w: World, rs: Replies)
    requires Build(c.plan) == Build(plan)
    ensures Protocol(plan, c, w, Reconcile(c, w, rs))
  {
    hide FindTarget, Layers, HasBudget, IsDepth, ReconcileInitializing, ReconcileIdle, ReconcileUpgrading;
    var rs1 := Rest(rs);
    match w.phase
    case Initializing => InitializingFollowsProtocol(plan, c, w, rs1);
    case Idle => IdleFollowsProtocol(plan, c, w, rs1);
    case Upgrading => UpgradingFollowsProtocol(plan, c, w, rs1);
    case Completed => TargetFromNodes(c.parse, w.nodes, rs1);
    case _ =>
  }

  lemma SetPhaseKeepsBudgets(w: World, rs: Replies, phase: Phase, layer: nat)
    ensures forall app, v :: HasBudget(SetPhase(w, rs, phase, layer).w, app, v) <==> HasBudget(w, app, v)
  {}

  // ---------- whole upgrades ----------

  /** Every layered app has a budget. */
  ghost predicate Equipped(plan: Plan, w: World) {
    forall app :: app in AppsInOrder(plan) ==> Present(w, PdbName(app))
  }

  lemma CheckingKeeps(parse: Parser, w: World, rs: Replies, layers: seq<seq<string>>)
    ensures Kept(w, ReconcileInitializing(w, rs, layers)) && Kept(w, ReconcileIdle(parse, w, rs, layers))
  {
    hide CheckApps, FindTarget, Flatten, Wrote;
    CheckAppsMeans(w, rs, Flatten(layers));
    WroteKeeps(w, CheckApps(w, rs, Flatten(layers), 0).w);
  }

  lemma UpgradingKeeps(parse: Parser, w: World, rs: Replies, layers: seq<seq<string>>)
    requires w.phase == Upgrading
    ensures Kept(w, ReconcileUpgrading(parse, w, rs, layers))
  {
    hide ProcessLayer, FindTarget;
    var (rs2, t) := FindTarget(parse, w.nodes, rs);
    if t.Ok? && w.currentLayer < |layers| {
      ProcessLayerKeepsRest(parse, w, rs2, layers[w.currentLayer], t.value.version);
    }
  }

  /** No pass touches nodes or pods or takes a budget away, whatever its calls answer. */
  lemma PassKeeps(c: Config, w: World, rs: Replies)
    ensures Kept(w, Reconcile(c, w, rs))
  {
    hide ReconcileInitializing, ReconcileIdle, ReconcileUpgrading, FindTarget, Build;
    if Build(c.plan).Ok? {
      CheckingKeeps(c.parse, w, Rest(rs), Build(c.plan).value);
      if w.phase == Upgrading {
        UpgradingKeeps(c.parse, w, Rest(rs), Build(c.plan).value);
      }
    }
  }

  /** An upgrade starts with all budgets in place, and they stay. */
  lemma {:induction false} UpgradingIsEquipped(plan: Plan, run: seq<Pass>, i: nat)
    requires IsFreshRun(plan, run) && i < |run| && run[i].before.phase == Upgrading
    ensures Equipped(plan, run[i].before)
  {
    hide AppsInOrder, Reconcile, Inv, Build, PdbName;
    assert i > 0;
    RunStep(plan, run, i-1);
    hide IsRun;
    var p := run[i-1];
    PassFollowsProtocol(plan, p.c, p.before, p.rs);
    if p.before.phase == Upgrading {
      UpgradingIsEquipped(plan, run, i-1);
      PassKeeps(p.c, p.before, p.rs);
    }
  }

  lemma {:induction false} NumbersStayNumbers(plan: Plan, run: seq<Pass>, i: nat, name: string)
    requires IsRun(plan, run) && i < |run| && Numeric(run[0].before, name)
    ensures Numeric(run[i].before, name)
  {
    hide Reconcile, Inv, Build;
    if i > 0 {
      NumbersStayNumbers(plan, run, i-1, name);
      RunStep(plan, run, i-1);
      PassKeeps(run[i-1].c, run[i-1].before, run[i-1].rs);
    }
  }

  /**
   While an upgrade is under way every layered app outside the current layer is protected: it
   has a budget that reads as zero, and that is the number zero unless it was a text to begin with.
   */
  lemma OtherLayersStayProtected(plan: Plan, run: seq<Pass>, i: nat, app: string)
    requires IsFreshRun(plan, run) && i < |run| && run[i].before.phase == Upgrading
    requires app in AppsInOrder(plan) && app !in CurrentApps(plan, run[i].before.currentLayer)
    ensures HasBudget(run[i].before, app, 0)
    ensures Numeric(run[0].before, PdbName(app)) ==> run[i].before.budgets[PdbName(app)] == Some(Int(0))
  {
    RunKeepsInv(plan, run, i);
    UpgradingIsEquipped(plan, run, i);
    FlattenIsPlanned(plan);
    hide IsRun, Reconcile, Flatten, Layers, Level, OpenAfter, PdbName;
    if Numeric(run[0].before, PdbName(app)) {
      NumbersStayNumbers(plan, run, i, PdbName(app));
    }
  }

  lemma NothingOpenIsAllAtZero(plan: Plan, w: World)
    requires Inv(plan, w) && Equipped(plan, w) && OpenAfter(w.log) == {}
    ensures AllAtZero(plan, w)
  {
    FlattenIsPlanned(plan);
    hide Flatten, Layers, PdbName;
  }

  lemma CompletedStays(c: Config, w: World, rs: Replies)
    requires w.phase == Completed && !Visible(c, w, false)
    ensures Reconcile(c, w, rs) == w
  {
    TargetFromNodes(c.parse, w.nodes, Rest(rs));
    hide FindTarget, Build;
  }

  /** How many of the `n` passes from `start` on are progress passes. */
  ghost function ProgressPasses(plan: Plan, run: seq<Pass>, start: nat, n: nat): nat
    requires start + n <= |run|
  {
    if n == 0 then 0
    else ProgressPasses(plan, run, start, n-1) + if Unhindered(plan, run[start + n - 1]) then 1 else 0
  }

  /** Where `n` passes, `progress` of them progress passes, can have led from layer `k`. */
  ghost predicate Advanced(plan: Plan, w: World, k: nat, n: nat, progress: nat) {
    && Equipped(plan, w)
    && (|| (w.phase == Upgrading && k + progress <= w.currentLayer <= k + n && w.currentLayer <= Depth(plan))
        || (w.phase == Completed && OpenAfter(w.log) == {} && k + n > Depth(plan)))
  }

  lemma AdvancedStep(plan: Plan, p: Pass, k: nat, n: nat, progress: nat)
    requires Advanced(plan, p.before, k, n, progress) && Inv(plan, p.before)
    requires Build(p.c.plan) == Build(plan) && Build(plan).Ok? && !Visible(p.c, p.before, false)
    ensures Advanced(plan, Reconcile(p.c, p.before, p.rs), k, n + 1,
                     progress + if Unhindered(plan, p) then 1 else 0)
  {
    hide Reconcile, Inv, OpenAfter, Unhindered, IsDepth, Build, Level, SeenSinceStart, AppsInOrder, PdbName, Visible;
    PassKeeps(p.c, p.before, p.rs);
    if p.before.phase == Completed {
      CompletedStays(p.c, p.before, p.rs);
    } else {
      PassFollowsProtocol(plan, p.c, p.before, p.rs);
      CursorMovesByOne(plan, p.c, p.before, p.rs);
      if Unhindered(plan, p) {
        UnhinderedStep(plan, p);
      }
    }
  }

  lemma {:induction false} PassesAdvance(plan: Plan, run: seq<Pass>, start: nat, n: nat)
    requires IsFreshRun(plan, run) && Build(plan).Ok? && start + n < |run| && run[start].before.phase == Upgrading
    requires forall i :: start <= i < start + n ==> !Visible(run[i].c, run[i].before, false)
    ensures Advanced(plan, run[start + n].before, run[start].before.currentLayer, n,
                     ProgressPasses(plan, run, start, n))
  {
    hide Reconcile, Inv, OpenAfter, Unhindered, IsDepth, Build, Visible, AppsInOrder;
    if n == 0 {
      assert start > 0;
      CursorStaysInRange(plan, run, start);
      UpgradingIsEquipped(plan, run, start);
    } else {
      var i := start + n - 1;
      PassesAdvance(plan, run, start, n-1);
      RunStep(plan, run, i);
      AdvancedStep(plan, run[i], run[start].before.currentLayer, n-1, ProgressPasses(plan, run, start, n-1));
    }
  }

  /**
   Main result: as long as the nodes do not show the upgrade as over, every progress pass takes
   it one layer further, whatever waiting and failing passes come in between. After as many
   progress passes as layers are left and one more it is Completed, with every budget at zero.
   */
  lemma UpgradeCompletes(plan: Plan, run: seq<Pass>, start: nat, n: nat)
    requires IsFreshRun(plan, run) && Build(plan).Ok? && start + n < |run| && run[start].before.phase == Upgrading
    requires forall i :: start <= i < start + n ==> !Visible(run[i].c, run[i].before, false)
    ensures var k, w := run[start].before.currentLayer, run[start + n].before;
            var progress := ProgressPasses(plan, run, start, n);
            && (w.phase == Upgrading || w.phase == Completed)
            && (w.phase == Upgrading ==> k + progress <= w.currentLayer <= k + n && w.currentLayer <= Depth(plan))
            && (w.phase == Completed ==> AllAtZero(plan, w) && OpenAfter(w.log) == {} && k + n > Depth(plan))
            && (k + progress > Depth(plan) ==> w.phase == Completed)
  {
    PassesAdvance(plan, run, start, n);
    RunKeepsInv(plan, run, start + n);
    hide Reconcile, Inv, OpenAfter, Unhindered, IsDepth, IsRun, Build, Visible, AllAtZero, Equipped;
    if run[start + n].before.phase == Completed {
      NothingOpenIsAllAtZero(plan, run[start + n].before);
    }
  }
}
