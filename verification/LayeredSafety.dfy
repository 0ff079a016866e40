/**
 Safety of the layered controller over whole runs, at the granularity of single writes: only
 one layer's budgets are ever open, and a budget is opened only after everything the app
 depends on was seen on the target version earlier in the same upgrade.
 */
module LayeredSafety {
  import opened Common
  import opened Api
  import opened DependencyGraph
  import opened SemVer
  import opened LayeredModel

  // ---------- what the log says ----------

  /** The open apps after one more event. */
  function OpenWith(apps: set<string>, e: Event): set<string> {
    if !e.BudgetSet? then apps
    else if e.value != 0 then apps + {e.app}
    else apps - {e.app}
  }

  /** The apps whose budget is non-zero after the logged writes, none being so before. */
  function OpenAfter(log: seq<Event>): set<string> {
    if log == [] then {} else OpenWith(OpenAfter(log[..|log|-1]), log[|log|-1])
  }

  /** An upgrade starts where the machine enters Upgrading at the first layer. */
  const START := PhaseSet(Upgrading, 0)

  /** `app` was seen on the target version since the last start of an upgrade. */
  ghost predicate SeenSinceStart(log: seq<Event>, app: string) {
    exists j :: 0 <= j < |log| && log[j].SeenOnTarget? && log[j].app == app
      && forall m :: j < m < |log| ==> log[m] != START
  }

  /** Seen in the current upgrade, as far as the log goes back: it may have begun in mid-upgrade. */
  ghost predicate KnownSeen(log: seq<Event>, app: string) {
    SeenSinceStart(log, app) || forall m :: 0 <= m < |log| ==> log[m] != START
  }

  /** All of `apps` sit in one layer of the plan. */
  ghost predicate OneLayer(plan: Plan, apps: set<string>) {
    apps == {} || exists k :: 0 <= k < Depth(plan) && apps <= Level(plan, k)
  }

  /** In every state between two writes the open apps form part of one layer. */
  ghost predicate Exclusive(plan: Plan, log: seq<Event>) {
    forall n :: 0 <= n <= |log| ==> OneLayer(plan, OpenAfter(log[..n]))
  }

  ghost predicate DependenciesSeen(plan: Plan, app: string, log: seq<Event>) {
    forall d :: DependsTransitively(plan, app, d) ==> KnownSeen(log, d)
  }

  /** No budget was ever opened before everything under the app was known to be seen. */
  ghost predicate Ordered(plan: Plan, log: seq<Event>) {
    forall i :: 0 <= i < |log| && log[i].BudgetSet? && log[i].value != 0 ==>
      DependenciesSeen(plan, log[i].app, log[..i])
  }

  // ---------- the invariant ----------

  /** The log is good, and it tells which budgets of planned apps are non-zero. */
  ghost predicate GoodLog(plan: Plan, w: World) {
    && Exclusive(plan, w.log) && Ordered(plan, w.log)
    && OpenAfter(w.log) <= Names(plan)
    && forall app :: app in Names(plan) ==> (app in OpenAfter(w.log) <==> IsOpen(w, app))
  }

  /**
   The budget exists and reads as non-zero, the way the operator reads it: a text such as a
   percentage counts as zero. A missing budget is not open either; during an upgrade no
   layered app is without one (LayeredProgress.OtherLayersStayProtected).
   */
  ghost predicate IsOpen(w: World, app: string) {
    && PdbName(app) in w.budgets && w.budgets[PdbName(app)].Some?
    && IntValue(w.budgets[PdbName(app)].value) != 0
  }

  /** Only apps of `layer` are open. */
  ghost predicate Confined(plan: Plan, w: World, layer: set<string>) {
    GoodLog(plan, w) && OpenAfter(w.log) <= layer
  }

  ghost predicate LayersBelowSeen(plan: Plan, log: seq<Event>, k: nat) {
    forall j, d :: 0 <= j < k && j < Depth(plan) && d in Level(plan, j) ==> KnownSeen(log, d)
  }

  /** The apps that may be open in a phase with this cursor. */
  ghost function CurrentApps(plan: Plan, k: nat): set<string> {
    if k < Depth(plan) then Level(plan, k) else {}
  }

  ghost predicate Inv(plan: Plan, w: World) {
    && GoodLog(plan, w)
    && (w.phase == Upgrading ==>
          OpenAfter(w.log) <= CurrentApps(plan, w.currentLayer) && LayersBelowSeen(plan, w.log, w.currentLayer))
  }

  // ---------- single events ----------

  lemma ExtendLog(log: seq<Event>, e: Event)
    ensures OpenAfter(log + [e]) == OpenWith(OpenAfter(log), e)
    ensures e != START ==> forall app :: SeenSinceStart(log, app) ==> SeenSinceStart(log + [e], app)
    ensures e != START ==> forall app :: KnownSeen(log, app) ==> KnownSeen(log + [e], app)
    ensures e.SeenOnTarget? ==> SeenSinceStart(log + [e], e.app)
  {
    var all := log + [e];
    assert all[..|all|-1] == log;
    if e != START {
      forall app | SeenSinceStart(log, app) ensures SeenSinceStart(all, app) {
        var j :| 0 <= j < |log| && log[j].SeenOnTarget? && log[j].app == app
          && forall m :: j < m < |log| ==> log[m] != START;
        assert all[j] == log[j];
      }
    }
    if e.SeenOnTarget? {
      assert all[|log|] == e;
    }
  }

  lemma ExtendGood(plan: Plan, log: seq<Event>, e: Event)
    requires Exclusive(plan, log) && Ordered(plan, log)
    requires OneLayer(plan, OpenAfter(log + [e]))
    requires e.BudgetSet? && e.value != 0 ==> DependenciesSeen(plan, e.app, log)
    ensures Exclusive(plan, log + [e]) && Ordered(plan, log + [e])
  {
    var all := log + [e];
    forall n | 0 <= n <= |all| ensures OneLayer(plan, OpenAfter(all[..n])) {
      if n <= |log| {
        assert all[..n] == log[..n];
      } else {
        assert all[..n] == all;
      }
    }
    forall i | 0 <= i < |all| && all[i].BudgetSet? && all[i].value != 0
      ensures DependenciesSeen(plan, all[i].app, all[..i])
    {
      assert all[..i] == log[..i];
    }
    assert log[..|log|] == log;
  }

  lemma PdbNameInjective(a: string, b: string)
    ensures PdbName(a) == PdbName(b) ==> a == b
  {
    assert PdbName(a)[..|a|] == a && PdbName(b)[..|b|] == b;
  }

  /** What may be opened in a state where only `layer` may be open. */
  ghost predicate MayOpen(plan: Plan, layer: set<string>, log: seq<Event>, app: string) {
    && app in layer && OneLayer(plan, layer)
    && DependenciesSeen(plan, app, log)
  }

  lemma PutKeepsConfined(plan: Plan, w: World, layer: set<string>, app: string, value: int)
    requires Confined(plan, w, layer) && app in Names(plan) && OneLayer(plan, layer)
    requires value != 0 ==> MayOpen(plan, layer, w.log, app)
    ensures Confined(plan, PutBudget(w, app, value), layer)
  {
    var e := BudgetSet(app, value);
    ExtendLog(w.log, e);
    SubsetOfLayer(plan, OpenAfter(w.log + [e]), layer);
    ExtendGood(plan, w.log, e);
    hide DependenciesSeen, OneLayer, Exclusive, Ordered, Names;
    PutTracksOpen(plan, w, app, value);
  }

  lemma PutTracksOpen(plan: Plan, w: World, app: string, value: int)
    requires forall other :: other in Names(plan) ==> (other in OpenAfter(w.log) <==> IsOpen(w, other))
    ensures var w' := PutBudget(w, app, value);
            forall other :: other in Names(plan) ==> (other in OpenAfter(w'.log) <==> IsOpen(w', other))
  {
    ExtendLog(w.log, BudgetSet(app, value));
    var w' := PutBudget(w, app, value);
    hide Names, OpenAfter, PdbName;
    forall other | other in Names(plan) ensures other in OpenAfter(w'.log) <==> IsOpen(w', other) {
      PdbNameInjective(other, app);
    }
  }

  lemma SubsetOfLayer(plan: Plan, apps: set<string>, layer: set<string>)
    requires OneLayer(plan, layer) && apps <= layer
    ensures OneLayer(plan, apps)
  {}

  /** Events that touch no budget leave everything but the log alone. */
  lemma NoteKeepsConfined(plan: Plan, w: World, layer: set<string>, w': World, e: Event)
    requires Confined(plan, w, layer) && !e.BudgetSet?
    requires w'.budgets == w.budgets && w'.log == w.log + [e]
    ensures Confined(plan, w', layer)
  {
    ExtendLog(w.log, e);
    assert OneLayer(plan, OpenAfter(w.log)) by { assert w.log[..|w.log|] == w.log; }
    ExtendGood(plan, w.log, e);
  }

  // ---------- budget operations ----------

  /** Same cluster apart from budgets and log, the log only longer, without a new start. */
  ghost predicate Grown(a: World, b: World) {
    && b == a.(budgets := b.budgets, log := b.log)
    && a.log <= b.log
    && forall i :: |a.log| <= i < |b.log| ==> b.log[i] != START
  }

  lemma KnownSurvives(a: World, b: World, app: string)
    requires Grown(a, b) && KnownSeen(a.log, app)
    ensures KnownSeen(b.log, app)
  {
    if SeenSinceStart(a.log, app) {
      SeenSurvives(a, b, app);
    } else {
      assert forall m :: 0 <= m < |b.log| && m < |a.log| ==> b.log[m] == a.log[m];
    }
  }

  lemma SeenSurvives(a: World, b: World, app: string)
    requires Grown(a, b) && SeenSinceStart(a.log, app)
    ensures SeenSinceStart(b.log, app)
  {
    var j :| 0 <= j < |a.log| && a.log[j].SeenOnTarget? && a.log[j].app == app
      && forall m :: j < m < |a.log| ==> a.log[m] != START;
    assert b.log[j] == a.log[j];
    forall m | j < m < |b.log| ensures b.log[m] != START {
      if m < |a.log| { assert b.log[m] == a.log[m]; }
    }
  }

  lemma DependenciesSurvive(plan: Plan, a: World, b: World, app: string)
    requires Grown(a, b) && DependenciesSeen(plan, app, a.log)
    ensures DependenciesSeen(plan, app, b.log)
  {
    forall d | DependsTransitively(plan, app, d) ensures KnownSeen(b.log, d) {
      KnownSurvives(a, b, d);
    }
  }

  lemma MayOpenSurvives(plan: Plan, a: World, b: World, layer: set<string>, app: string)
    requires Grown(a, b) && MayOpen(plan, layer, a.log, app)
    ensures MayOpen(plan, layer, b.log, app)
  {
    DependenciesSurvive(plan, a, b, app);
  }

  lemma PutGrows(w: World, app: string, value: int)
    ensures Grown(w, PutBudget(w, app, value)) && Grown(w, w) && HasBudget(PutBudget(w, app, value), app, value)
  {}

  lemma {:induction false} EnsurePdbSafe(plan: Plan, w: World, rs: Replies, app: string, value: int,
                                         tries: nat, layer: set<string>)
    requires Confined(plan, w, layer) && app in Names(plan) && OneLayer(plan, layer)
    requires value != 0 ==> MayOpen(plan, layer, w.log, app)
    ensures var out := EnsurePdb(w, rs, app, value, tries);
            && Confined(plan, out.w, layer) && Grown(w, out.w)
            && (out.w == w || out.w == PutBudget(w, app, value))
            && (out.ok ==> HasBudget(out.w, app, value))
    decreases tries
  {
    hide Confined, MayOpen, OneLayer, Names, Grown, HasBudget, PutBudget, PdbName, InState, Depth, IsDepth;
    PutKeepsConfined(plan, w, layer, app, value);
    PutGrows(w, app, value);
    if tries > 0 {
      if Next(rs).Conflict? {
        EnsurePdbSafe(plan, w, Rest(rs), app, value, tries - 1, layer);
      } else if Next(rs).Done? && !HasBudget(w, app, value) && Next(Rest(rs)).Conflict? {
        EnsurePdbSafe(plan, w, Rest(Rest(rs)), app, value, tries - 1, layer);
      }
    }
  }

  /** Apps keep the state they have when other budgets, or their own to the same value, are set. */
  lemma PutKeepsOthers(w: World, app: string, value: int, other: string)
    ensures HasBudget(w, other, value) ==> HasBudget(PutBudget(w, app, value), other, value)
  {
    PdbNameInjective(app, other);
  }

  lemma GrownTransitive(a: World, b: World, c: World)
    requires Grown(a, b) && Grown(b, c)
    ensures Grown(a, c)
  {
    forall i | |a.log| <= i < |c.log| ensures c.log[i] != START {
      if i < |b.log| { assert c.log[i] == b.log[i]; }
    }
  }

  lemma {:induction false} EnsureAllSafe(plan: Plan, w: World, rs: Replies, apps: seq<string>, value: int,
                                         layer: set<string>)
    requires Confined(plan, w, layer) && OneLayer(plan, layer)
    requires forall app :: app in apps ==> app in Names(plan) && (value != 0 ==> MayOpen(plan, layer, w.log, app))
    ensures var out := EnsureAll(w, rs, apps, value);
            && Confined(plan, out.w, layer) && Grown(w, out.w)
            && (forall other :: HasBudget(w, other, value) ==> HasBudget(out.w, other, value))
            && (out.ok ==> forall app :: app in apps ==> HasBudget(out.w, app, value))
    decreases apps
  {
    hide Confined, MayOpen, OneLayer, HasBudget, EnsurePdb, Grown, PutBudget, IsDepth;
    if apps == [] {
      PutGrows(w, "", value);
    } else {
      assert apps[0] in apps && forall app :: app in apps[1..] ==> app in apps;
      EnsurePdbSafe(plan, w, rs, apps[0], value, RETRY_STEPS, layer);
      var out := EnsurePdb(w, rs, apps[0], value, RETRY_STEPS);
      forall other ensures HasBudget(w, other, value) ==> HasBudget(out.w, other, value) {
        PutKeepsOthers(w, apps[0], value, other);
      }
      forall app | app in apps && value != 0 ensures MayOpen(plan, layer, out.w.log, app) {
        MayOpenSurvives(plan, w, out.w, layer, app);
      }
      if out.ok {
        EnsureAllSafe(plan, out.w, out.rs, apps[1..], value, layer);
        GrownTransitive(w, out.w, EnsureAll(out.w, out.rs, apps[1..], value).w);
      }
      assert forall app :: app in apps <==> app == apps[0] || app in apps[1..];
    }
  }

  lemma {:induction false} CheckAppsSafe(plan: Plan, w: World, rs: Replies, apps: seq<string>, layer: set<string>)
    requires Confined(plan, w, layer) && OneLayer(plan, layer)
    requires forall app :: app in apps ==> app in Names(plan)
    ensures var a := CheckApps(w, rs, apps, 0);
            && Confined(plan, a.w, layer) && Grown(w, a.w)
            && (a.r == Ok(true) ==> a.w == w && forall app :: app in apps ==> HasBudget(w, app, 0))
    decreases apps
  {
    if apps != [] {
      assert apps[0] in apps && forall app :: app in apps[1..] ==> app in apps;
      if Next(rs).Done? && PdbName(apps[0]) !in w.budgets {
        EnsurePdbSafe(plan, w, Rest(rs), apps[0], 0, RETRY_STEPS, layer);
      }
      var a := IsPdbInState(w, rs, apps[0], 0);
      if a.r == Ok(true) {
        CheckAppsSafe(plan, a.w, a.rs, apps[1..], layer);
      }
      assert forall app :: app in apps <==> app == apps[0] || app in apps[1..];
    }
    hide Confined, OneLayer, HasBudget, EnsurePdb;
  }

  /** Looking at pods changes nothing but the log, which then has each app that was seen. */
  lemma {:induction false} AllOnTargetSafe(plan: Plan, parse: Parser, w: World, rs: Replies, apps: seq<string>,
                                           target: string, layer: set<string>)
    requires Confined(plan, w, layer)
    ensures var a := AllOnTarget(parse, w, rs, apps, target);
            && Confined(plan, a.w, layer) && Grown(w, a.w) && a.w.budgets == w.budgets
            && (a.r == Ok(true) ==> forall app :: app in apps ==> SeenSinceStart(a.w.log, app))
    decreases apps
  {
    if apps != [] {
      assert forall app :: app in apps <==> app == apps[0] || app in apps[1..];
      var (rs1, migrated) := IsAppOnTarget(parse, w, rs, apps[0], target);
      if migrated == Ok(true) {
        var w1 := Observed(w, apps[0], target);
        NoteKeepsConfined(plan, w, layer, w1, SeenOnTarget(apps[0], target));
        ExtendLog(w.log, SeenOnTarget(apps[0], target));
        AllOnTargetSafe(plan, parse, w1, rs1, apps[1..], target, layer);
        var a := AllOnTarget(parse, w1, rs1, apps[1..], target);
        SeenSurvives(w1, a.w, apps[0]);
        hide Confined, SeenSinceStart;
        GrownTransitive(w, w1, a.w);
      }
    }
  }

  // ---------- the phases ----------

  /** A write of the status keeps the log good; what it means for the phase is the caller's. */
  lemma SetPhaseSafe(plan: Plan, w: World, rs: Replies, phase: Phase, layer: nat, apps: set<string>)
    requires Confined(plan, w, apps)
    ensures Confined(plan, SetPhase(w, rs, phase, layer).w, apps)
  {
    if Applied(Next(rs)) {
      NoteKeepsConfined(plan, w, apps, SetPhase(w, rs, phase, layer).w, PhaseSet(phase, layer));
    }
  }

  /** Everything an app of layer `k` needs lies in layers already seen. */
  lemma LayerMayOpen(plan: Plan, log: seq<Event>, k: nat, app: string)
    requires Build(plan).Ok? && k < Depth(plan) && app in Level(plan, k) && LayersBelowSeen(plan, log, k)
    ensures MayOpen(plan, Level(plan, k), log, app)
  {
    LayerIsLevel(plan, k);
    forall d | DependsTransitively(plan, app, d) ensures KnownSeen(log, d) {
      DependenciesInEarlierLayers(plan, app, k, d);
      var j :| 0 <= j < k && d in Build(plan).value[j];
      LayerIsLevel(plan, j);
    }
    assert Level(plan, k) <= Level(plan, k);
  }

  lemma LayersStaySeen(plan: Plan, a: World, b: World, k: nat)
    requires Grown(a, b) && LayersBelowSeen(plan, a.log, k)
    ensures LayersBelowSeen(plan, b.log, k)
  {
    forall j, d | 0 <= j < k && j < Depth(plan) && d in Level(plan, j) ensures KnownSeen(b.log, d) {
      KnownSurvives(a, b, d);
    }
  }

  lemma ClosedMeansNoneOpen(plan: Plan, w: World, layer: set<string>)
    requires Confined(plan, w, layer) && forall app :: app in layer ==> HasBudget(w, app, 0)
    ensures OpenAfter(w.log) == {}
  {
    forall app | app in layer && app in Names(plan) ensures app !in OpenAfter(w.log) {
      assert app in OpenAfter(w.log) <==> IsOpen(w, app);
    }
  }

  /** Upgrading at layer `k`: only that layer is open, and everything below it has been seen. */
  ghost predicate AtLayer(plan: Plan, w: World, k: nat) {
    && Build(plan).Ok? && k < Depth(plan)
    && w.phase == Upgrading && w.currentLayer == k
    && Confined(plan, w, Level(plan, k)) && LayersBelowSeen(plan, w.log, k)
  }

  lemma GrownStaysAtLayer(plan: Plan, a: World, b: World, k: nat)
    requires AtLayer(plan, a, k) && Grown(a, b) && Confined(plan, b, Level(plan, k))
    ensures AtLayer(plan, b, k)
  {
    LayersStaySeen(plan, a, b, k);
  }

  lemma RaiseStage(plan: Plan, w: World, rs: Replies, k: nat)
    requires AtLayer(plan, w, k)
    ensures var out := EnsureAll(w, rs, Layers(plan)[k], 1);
            AtLayer(plan, out.w, k) && (out.ok ==> forall app :: app in Layers(plan)[k] ==> HasBudget(out.w, app, 1))
  {
    var apps := Layers(plan)[k];
    LayerIsLevel(plan, k);
    LayerIsOneLayer(plan, k);
    forall app | app in apps ensures app in Names(plan) && MayOpen(plan, Level(plan, k), w.log, app) {
      LayerMayOpen(plan, w.log, k, app);
    }
    hide Confined, Grown, MayOpen, OneLayer, Level, Layers, Build, HasBudget, LayersBelowSeen, AtLayer;
    EnsureAllSafe(plan, w, rs, apps, 1, Level(plan, k));
    GrownStaysAtLayer(plan, w, EnsureAll(w, rs, apps, 1).w, k);
  }

  lemma LookStage(plan: Plan, parse: Parser, w: World, rs: Replies, target: string, k: nat)
    requires AtLayer(plan, w, k)
    ensures var a := AllOnTarget(parse, w, rs, Layers(plan)[k], target);
            && AtLayer(plan, a.w, k)
            && (a.r == Ok(true) ==> forall app :: app in Level(plan, k) ==> SeenSinceStart(a.w.log, app))
  {
    var apps := Layers(plan)[k];
    LayerIsLevel(plan, k);
    AllOnTargetSafe(plan, parse, w, rs, apps, target, Level(plan, k));
    GrownStaysAtLayer(plan, w, AllOnTarget(parse, w, rs, apps, target).w, k);
  }

  lemma CloseStage(plan: Plan, w: World, rs: Replies, k: nat)
    requires AtLayer(plan, w, k) && forall app :: app in Level(plan, k) ==> SeenSinceStart(w.log, app)
    ensures var out := EnsureAll(w, rs, Layers(plan)[k], 0);
            && AtLayer(plan, out.w, k)
            && (forall app :: app in Level(plan, k) ==> SeenSinceStart(out.w.log, app))
            && (out.ok ==> OpenAfter(out.w.log) == {})
  {
    var apps, layer := Layers(plan)[k], Level(plan, k);
    LayerIsLevel(plan, k);
    LayerIsOneLayer(plan, k);
    EnsureAllSafe(plan, w, rs, apps, 0, layer);
    var out := EnsureAll(w, rs, apps, 0);
    GrownStaysAtLayer(plan, w, out.w, k);
    forall app | app in layer ensures SeenSinceStart(out.w.log, app) {
      SeenSurvives(w, out.w, app);
    }
    if out.ok {
      ClosedMeansNoneOpen(plan, out.w, layer);
    }
  }

  /** Beyond layer `k`, all of which was seen in this upgrade and is closed. */
  ghost predicate PastLayer(plan: Plan, w: World, k: nat) {
    && w.currentLayer == k + 1 && OpenAfter(w.log) == {}
    && forall app :: app in Level(plan, k) ==> SeenSinceStart(w.log, app)
  }

  /** What holds after any step taken at layer `k`. */
  ghost predicate AtOrPast(plan: Plan, w: World, k: nat) {
    && Inv(plan, w) && w.phase == Upgrading
    && (w.currentLayer == k || PastLayer(plan, w, k))
  }

  lemma FinishLayer(plan: Plan, w: World, rs: Replies, k: nat)
    requires k < Depth(plan) && AtLayer(plan, w, k)
    requires forall app :: app in Level(plan, k) ==> SeenSinceStart(w.log, app)
    ensures var closed := EnsureAll(w, rs, Layers(plan)[k], 0);
            && AtOrPast(plan, closed.w, k)
            && (closed.ok ==> AtOrPast(plan, SetPhase(closed.w, closed.rs, Upgrading, closed.w.currentLayer + 1).w, k))
  {
    hide AtLayer, EnsureAll, SeenSinceStart, Inv, OpenAfter, Level, Layers, Names, IsDepth;
    CloseStage(plan, w, rs, k);
    var closed := EnsureAll(w, rs, Layers(plan)[k], 0);
    AtLayerIsInv(plan, closed.w, k);
    if closed.ok {
      NextLayer(plan, closed.w, closed.rs, k);
    }
  }

  /** Layer `k` is processed: it alone is open meanwhile, and the cursor moves only past a seen, closed layer. */
  lemma ProcessLayerSafe(plan: Plan, parse: Parser, w: World, rs: Replies, target: string, k: nat)
    requires k < Depth(plan) && AtLayer(plan, w, k)
    ensures AtOrPast(plan, ProcessLayer(parse, w, rs, Layers(plan)[k], target), k)
  {
    hide AtLayer, EnsureAll, AllOnTarget, SeenSinceStart, Inv, OpenAfter, Level, Layers, SetPhase, Names, IsDepth;
    var apps := Layers(plan)[k];
    RaiseStage(plan, w, rs, k);
    var raised := EnsureAll(w, rs, apps, 1);
    AtLayerIsInv(plan, raised.w, k);
    LookStage(plan, parse, raised.w, raised.rs, target, k);
    var a := AllOnTarget(parse, raised.w, raised.rs, apps, target);
    AtLayerIsInv(plan, a.w, k);
    if a.r == Ok(true) {
      FinishLayer(plan, a.w, a.rs, k);
    }
  }

  lemma AtLayerIsInv(plan: Plan, w: World, k: nat)
    requires AtLayer(plan, w, k)
    ensures Inv(plan, w) && w.phase == Upgrading && w.currentLayer == k
  {}

  lemma LayerIsOneLayer(plan: Plan, k: nat)
    requires k < Depth(plan)
    ensures OneLayer(plan, Level(plan, k)) && Level(plan, k) <= Names(plan)
  {
    assert Level(plan, k) <= Level(plan, k);
  }

  /** The cursor moves past layer `k`. */
  lemma NextLayer(plan: Plan, w: World, rs: Replies, k: nat)
    requires AtLayer(plan, w, k) && OpenAfter(w.log) == {}
    requires forall app :: app in Level(plan, k) ==> SeenSinceStart(w.log, app)
    ensures var w' := SetPhase(w, rs, Upgrading, k + 1).w;
            AtOrPast(plan, w', k)
  {
    hide SeenSinceStart, Level, Build, Names, Depth, OpenAfter, GoodLog, IsDepth;
    var w' := SetPhase(w, rs, Upgrading, k + 1).w;
    SetPhaseSafe(plan, w, rs, Upgrading, k + 1, Level(plan, k));
    ExtendLog(w.log, PhaseSet(Upgrading, k + 1));
    forall j, d | 0 <= j < k + 1 && j < Depth(plan) && d in Level(plan, j) ensures KnownSeen(w'.log, d) {
      assert KnownSeen(w.log, d);
    }
  }

  /** With Idle's test passed nothing is open. */
  lemma AllClosedMeansNoneOpen(plan: Plan, w: World)
    requires GoodLog(plan, w) && forall app :: app in Flatten(Layers(plan)) ==> HasBudget(w, app, 0)
    ensures OpenAfter(w.log) == {}
  {
    assert w.log[..|w.log|] == w.log;
    var apps := OpenAfter(w.log);
    if apps != {} {
      var k :| 0 <= k < Depth(plan) && apps <= Level(plan, k);
      forall app | app in apps ensures app in Flatten(Layers(plan)) {
        LayerIsLevel(plan, k);
        InFlatten(Layers(plan), k, app);
      }
      ClosedMeansNoneOpen(plan, w, apps);
    }
  }

  lemma {:induction false} InFlatten(layers: seq<seq<string>>, k: nat, app: string)
    requires k < |layers| && app in layers[k]
    ensures app in Flatten(layers)
  {
    if k > 0 {
      InFlatten(layers[1..], k-1, app);
    }
  }

  lemma {:induction false} FlattenMembers(layers: seq<seq<string>>, app: string)
    requires app in Flatten(layers)
    ensures exists k :: 0 <= k < |layers| && app in layers[k]
  {
    if app in layers[0] {
    } else {
      FlattenMembers(layers[1..], app);
      var k :| 0 <= k < |layers[1..]| && app in layers[1..][k];
      assert app in layers[k+1];
    }
  }

  lemma FlattenIsPlanned(plan: Plan)
    ensures forall app :: app in Flatten(Layers(plan)) ==> app in Names(plan)
  {
    forall app | app in Flatten(Layers(plan)) ensures app in Names(plan) {
      FlattenMembers(Layers(plan), app);
      var k :| 0 <= k < Depth(plan) && app in Layers(plan)[k];
      LayerIsLevel(plan, k);
    }
  }

  /** Outside Upgrading the open apps are whatever one layer was left with. */
  lemma InvIsConfined(plan: Plan, w: World)
    requires GoodLog(plan, w)
    ensures Confined(plan, w, OpenAfter(w.log)) && OneLayer(plan, OpenAfter(w.log))
  {
    assert w.log[..|w.log|] == w.log;
  }

  lemma SetOtherPhase(plan: Plan, w: World, rs: Replies, phase: Phase, layer: nat)
    requires Inv(plan, w) && phase != Upgrading
    ensures Inv(plan, SetPhase(w, rs, phase, layer).w)
  {
    SetPhaseSafe(plan, w, rs, phase, layer, OpenAfter(w.log));
  }

  lemma CheckPassSafe(plan: Plan, w: World, rs: Replies)
    requires Inv(plan, w) && w.phase != Upgrading
    ensures var a := CheckApps(w, rs, Flatten(Layers(plan)), 0);
            && Inv(plan, a.w) && a.w.phase == w.phase && a.w.nodes == w.nodes && a.w.pods == w.pods
            && (a.r == Ok(true) ==> a.w == w && OpenAfter(w.log) == {})
  {
    FlattenIsPlanned(plan);
    InvIsConfined(plan, w);
    CheckAppsSafe(plan, w, rs, Flatten(Layers(plan)), OpenAfter(w.log));
    var a := CheckApps(w, rs, Flatten(Layers(plan)), 0);
    if a.r == Ok(true) {
      AllClosedMeansNoneOpen(plan, w);
    }
  }

  lemma StartUpgrade(plan: Plan, w: World, rs: Replies)
    requires Inv(plan, w) && OpenAfter(w.log) == {}
    ensures Inv(plan, SetPhase(w, rs, Upgrading, 0).w)
  {
    SetPhaseSafe(plan, w, rs, Upgrading, 0, {});
  }

  lemma InvIsAtLayer(plan: Plan, w: World)
    requires Inv(plan, w) && w.phase == Upgrading && w.currentLayer < Depth(plan) && Build(plan).Ok?
    ensures AtLayer(plan, w, w.currentLayer)
  {}

  lemma IdleSafe(plan: Plan, parse: Parser, w: World, rs: Replies)
    requires Inv(plan, w) && w.phase == Idle
    ensures Inv(plan, ReconcileIdle(parse, w, rs, Layers(plan)))
  {
    CheckPassSafe(plan, w, rs);
    var a := CheckApps(w, rs, Flatten(Layers(plan)), 0);
    SetOtherPhase(plan, a.w, a.rs, Initializing, a.w.currentLayer);
    hide Inv, Layers, Level, OpenAfter, CheckApps, FindTarget, Flatten, SetPhase;
    match a.r
    case Err =>
    case Ok(ready) =>
      if ready {
        assert a.r == Ok(true);
        StartUpgrade(plan, w, FindTarget(parse, a.w.nodes, a.rs).0);
      }
  }

  /** Every pass in every phase keeps the invariant, whatever its calls answer. */
  lemma PassSafe(plan: Plan, c: Config, w: World, rs: Replies)
    requires Inv(plan, w) && Build(c.plan) == Build(plan)
    ensures Inv(plan, Reconcile(c, w, rs))
  {
    var rs1 := Rest(rs);
    hide Inv, Layers, Level, OpenAfter, CheckApps, ProcessLayer, FindTarget, Flatten;
    if w.phase == NoPhase {
      SetOtherPhase(plan, w, rs1, Initializing, 0);
    } else if Build(plan).Ok? {
      match w.phase
      case Initializing =>
        CheckPassSafe(plan, w, rs1);
        var a := CheckApps(w, rs1, Flatten(Layers(plan)), 0);
        SetOtherPhase(plan, a.w, a.rs, Idle, a.w.currentLayer);
      case Idle =>
        IdleSafe(plan, c.parse, w, rs1);
      case Upgrading =>
        var (rs2, t) := FindTarget(c.parse, w.nodes, rs1);
        SetOtherPhase(plan, w, rs2, Idle, 0);
        SetOtherPhase(plan, w, rs2, Completed, w.currentLayer);
        if t.Ok? && w.currentLayer < Depth(plan) {
          InvIsAtLayer(plan, w);
          ProcessLayerSafe(plan, c.parse, w, rs2, t.value.version, w.currentLayer);
        }
      case Completed =>
        SetOtherPhase(plan, w, FindTarget(c.parse, w.nodes, rs1).0, Idle, 0);
      case _ =>
    }
  }

  // ---------- whole runs ----------

  /** One pass: the plan as listed at the time, the cluster it starts from, its calls' outcomes. */
  datatype Pass = Pass(c: Config, before: World, rs: Replies)

  /** Between passes nodes and pods change freely; only the operator edits budgets and status. */
  ghost predicate EnvironmentStep(a: World, b: World) {
    b == a.(nodes := b.nodes, pods := b.pods)
  }

  /**
   A run of passes over one plan, whose entries may be listed in a different order each time,
   from any phase with an empty log and no planned budget open.
   */
  ghost predicate IsRun(plan: Plan, run: seq<Pass>) {
    && run != []
    && run[0].before.log == []
    && (forall app :: app in Names(plan) ==> !IsOpen(run[0].before, app))
    && (forall i :: 0 <= i < |run| ==> multiset(run[i].c.plan) == multiset(plan))
    && forall i :: 0 <= i < |run| - 1 ==>
         EnvironmentStep(Reconcile(run[i].c, run[i].before, run[i].rs), run[i+1].before)
  }

  /** A run that starts with no upgrade under way, so that its log covers every upgrade from the start. */
  ghost predicate IsFreshRun(plan: Plan, run: seq<Pass>) {
    IsRun(plan, run) && run[0].before.phase != Upgrading
  }

  lemma FreshIsInv(plan: Plan, w: World)
    requires w.log == [] && forall app :: app in Names(plan) ==> !IsOpen(w, app)
    ensures Inv(plan, w)
  {
    forall n | 0 <= n <= |w.log| ensures OneLayer(plan, OpenAfter(w.log[..n])) {
      assert w.log[..n] == [];
    }
  }

  lemma {:induction false} RunKeepsInv(plan: Plan, run: seq<Pass>, i: nat)
    requires IsRun(plan, run) && i < |run|
    ensures Inv(plan, run[i].before) && Inv(plan, Reconcile(run[i].c, run[i].before, run[i].rs))
  {
    if i == 0 {
      FreshIsInv(plan, run[0].before);
    } else {
      RunKeepsInv(plan, run, i-1);
      assert EnvironmentStep(Reconcile(run[i-1].c, run[i-1].before, run[i-1].rs), run[i-1+1].before);
    }
    LayeringIgnoresOrder(run[i].c.plan, plan);
    hide Reconcile;
    PassSafe(plan, run[i].c, run[i].before, run[i].rs);
  }

  lemma LayerMatesAreIndependent(plan: Plan, a: string, d: string, k: nat)
    requires a in Level(plan, k) && d in Level(plan, k)
    ensures !DependsTransitively(plan, a, d)
  {
    if DependsTransitively(plan, a, d) {
      var c :| IsChain(plan, c) && |c| >= 2 && c[0] == d && c[|c|-1] == a;
      ChainClimbs(plan, c, k + 1);
      ResolvedGrows(plan, k + 2 - |c|, k);
    }
  }

  /**
   Main result: in every state of every run, between any two single writes and after any
   failed or half-failed one, all open apps belong to one layer, so never are an app and
   anything it depends on, directly or not, open at the same time.
   */
  lemma NeverOpenTogether(plan: Plan, run: seq<Pass>, i: nat, n: nat, a: string, d: string)
    requires IsRun(plan, run) && i < |run|
    requires var log := Reconcile(run[i].c, run[i].before, run[i].rs).log;
             n <= |log| && a in OpenAfter(log[..n]) && d in OpenAfter(log[..n])
    ensures OneLayer(plan, OpenAfter(Reconcile(run[i].c, run[i].before, run[i].rs).log[..n]))
    ensures !DependsTransitively(plan, a, d)
  {
    RunKeepsInv(plan, run, i);
    hide Reconcile, OpenAfter;
    var apps := OpenAfter(Reconcile(run[i].c, run[i].before, run[i].rs).log[..n]);
    assert OneLayer(plan, apps);
    var k :| 0 <= k < Depth(plan) && apps <= Level(plan, k);
    LayerMatesAreIndependent(plan, a, d, k);
  }
}
