/**
 Where a layered pass must lead when every API call answers: the moves that the protocol only
 allows, stated exactly and on the nodes. Also how often a budget write is tried again.
 */
module LayeredMoves {
  import opened Common
  import opened Api
  import opened DependencyGraph
  import opened SemVer
  import opened LayeredModel
  import opened LayeredSafety
  import opened LayeredProgress
  import opened LayeredAbandonment

  // ---------- what the nodes show ----------

  ghost predicate SomeUnschedulable(nodes: seq<Node>) {
    exists n :: n in nodes && n.unschedulable
  }

  /** Two readable versions, or one and an unschedulable node. */
  ghost predicate ShowsUpgrade(parse: Parser, nodes: seq<Node>) {
    var versions := ReadableVersions(parse, nodes);
    |versions| > 1 || (|versions| == 1 && SomeUnschedulable(nodes))
  }

  /** A single readable version and every node schedulable. */
  ghost predicate ShowsNone(parse: Parser, nodes: seq<Node>) {
    |ReadableVersions(parse, nodes)| == 1 && !SomeUnschedulable(nodes)
  }

  /** On the nodes, what a pass can see: an upgrade, none, or nothing readable. */
  lemma VisibleIff(c: Config, w: World)
    ensures Visible(c, w, true) <==> ShowsUpgrade(c.parse, w.nodes)
    ensures Visible(c, w, false) <==> ShowsNone(c.parse, w.nodes)
  {
    TargetMeans(c.parse, w.nodes);
    hide FindTarget, ReadableVersions;
    var versions := ReadableVersions(c.parse, w.nodes);
    assert |versions| == 0 <==> versions == {};
  }

  // ---------- the moves ----------

  /** Same cluster with this phase and cursor, the change of which is all that was logged. */
  ghost predicate Moved(a: World, b: World, phase: Phase, layer: nat) {
    b == a.(phase := phase, currentLayer := layer, log := a.log + [PhaseSet(phase, layer)])
  }

  /** A new object starts initializing; an invalid plan stops everything else. */
  lemma FirstMove(c: Config, w: World)
    ensures w.phase == NoPhase ==> Moved(w, Reconcile(c, w, []), Initializing, 0)
    ensures w.phase != NoPhase && Build(c.plan).Err? ==> Reconcile(c, w, []) == w
    ensures w.phase == OtherPhase ==> Reconcile(c, w, []) == w
  {
    hide Build;
  }

  /** A pass that cannot read the object does nothing. */
  lemma UnreadObjectStays(c: Config, w: World, rs: Replies)
    requires !Next(rs).Done?
    ensures Reconcile(c, w, rs) == w
  {
    hide Build;
  }

  /** Idle is left for an upgrade when the nodes show one, and for Initializing on a wrong budget. */
  lemma IdleMove(plan: Plan, c: Config, w: World)
    requires w.phase == Idle && Build(plan).Ok? && Build(c.plan) == Build(plan)
    ensures var w' := Reconcile(c, w, []);
            && (AllAtZero(plan, w) && ShowsUpgrade(c.parse, w.nodes) ==> Moved(w, w', Upgrading, 0))
            && (AllAtZero(plan, w) && !ShowsUpgrade(c.parse, w.nodes) ==> w' == w)
            && (!AllAtZero(plan, w) ==> w'.phase == Initializing && w'.currentLayer == w.currentLayer)
  {
    VisibleIff(c, w);
    hide CheckApps, FindTarget, Flatten, Layers, HasBudget, ShowsUpgrade, ShowsNone;
    CheckAppsMeans(w, [], AppsInOrder(plan));
    TargetUsesOneCall(c.parse, w.nodes);
    var a := CheckApps(w, [], AppsInOrder(plan), 0);
    assert a.r == Ok(a.r.value);
    assert a.r.value <==> AllAtZero(plan, w);
  }

  /** Initializing is left for Idle exactly when every layered app's budget reads as zero. */
  lemma InitializingMove(plan: Plan, c: Config, w: World)
    requires w.phase == Initializing && Build(plan).Ok? && Build(c.plan) == Build(plan)
    ensures var w' := Reconcile(c, w, []);
            && (AllAtZero(plan, w) ==> Moved(w, w', Idle, w.currentLayer))
            && (!AllAtZero(plan, w) ==> w'.phase == Initializing && w'.currentLayer == w.currentLayer)
  {
    hide CheckApps, Flatten, Layers, HasBudget;
    CheckAppsMeans(w, [], AppsInOrder(plan));
    var a := CheckApps(w, [], AppsInOrder(plan), 0);
    assert a.r == Ok(a.r.value);
    assert a.r.value <==> AllAtZero(plan, w);
  }

  /** Upgrading is left when the nodes show no upgrade, or beyond the last layer on a visible target. */
  lemma UpgradingMove(plan: Plan, c: Config, w: World)
    requires w.phase == Upgrading && Build(plan).Ok? && Build(c.plan) == Build(plan)
    ensures var w', t := Reconcile(c, w, []), FindTarget(c.parse, w.nodes, []).1;
            && (ShowsNone(c.parse, w.nodes) ==> Moved(w, w', Idle, 0))
            && (ReadableVersions(c.parse, w.nodes) == {} ==> w' == w)
            && (|ReadableVersions(c.parse, w.nodes)| == 1 && SomeUnschedulable(w.nodes) ==> w' == w)
            && (|ReadableVersions(c.parse, w.nodes)| > 1 && t.Ok? && t.value.version != "" ==>
                  w.currentLayer >= Depth(plan) ==> Moved(w, w', Completed, w.currentLayer))
  {
    VisibleIff(c, w);
    TargetMeans(c.parse, w.nodes);
    TargetUsesOneCall(c.parse, w.nodes);
    hide FindTarget, Layers, ReadableVersions, SomeUnschedulable, ProcessLayer, IsDepth;
  }

  /**
   Main result: Completed is left for Idle, with the cursor back at zero and every budget as it
   was, exactly when the nodes have one readable version and all are schedulable.
   */
  lemma CompletedReturnsIff(plan: Plan, c: Config, w: World)
    requires w.phase == Completed && Build(plan).Ok? && Build(c.plan) == Build(plan)
    ensures Moved(w, Reconcile(c, w, []), Idle, 0) <==> ShowsNone(c.parse, w.nodes)
    ensures !ShowsNone(c.parse, w.nodes) ==> Reconcile(c, w, []) == w
  {
    VisibleIff(c, w);
    TargetUsesOneCall(c.parse, w.nodes);
    hide FindTarget, ReadableVersions, SomeUnschedulable, Build;
  }

  /**
   Main result: a whole upgrade and back. Once there were enough progress passes, the first clean
   pass on nodes that show no upgrade any more leads to Idle at layer zero with every budget at
   zero, and there the machine stays until the nodes show an upgrade again.
   */
  lemma UpgradeReturnsToIdle(plan: Plan, run: seq<Pass>, start: nat, n: nat, j: nat)
    requires IsFreshRun(plan, run) && Build(plan).Ok? && start + n < j < |run| && run[start].before.phase == Upgrading
    requires forall i :: start <= i < start + n ==> !Visible(run[i].c, run[i].before, false)
    requires run[start].before.currentLayer + ProgressPasses(plan, run, start, n) > Depth(plan)
    requires run[start + n].rs == [] && ShowsNone(run[start + n].c.parse, run[start + n].before.nodes)
    requires forall i :: start + n < i < j ==> !Visible(run[i].c, run[i].before, true)
    ensures run[j].before.phase == Idle && AllAtZero(plan, run[j].before)
    ensures j == start + n + 1 ==> run[j].before.currentLayer == 0
  {
    hide Reconcile, Inv, IsRun, Build, Visible, AllAtZero, OpenAfter, ShowsNone, Unhindered;
    var i := start + n;
    var p := run[i];
    UpgradeCompletes(plan, run, start, n);
    RunStep(plan, run, i);
    CompletedReturnsIff(plan, p.c, p.before);
    SameZero(plan, p.before, run[i+1].before);
    CalmIdleLasts(plan, run, i+1, j);
  }

  /** A budget is ready if it can be read and has the value; a failed read or creation is an error. */
  lemma ReadyMeans(w: World, rs: Replies, app: string, value: int)
    ensures var r := IsPdbInState(w, rs, app, value).r;
            && (r == Ok(true) <==> Next(rs).Done? && HasBudget(w, app, value))
            && (r.Err? <==> || !Next(rs).Done?
                            || (PdbName(app) !in w.budgets && !EnsureAll(w, Rest(rs), [app], value).ok))
  {
    assert [app][1..] == [];
    hide EnsurePdb, PdbName, InState;
  }

  // ---------- retries ----------

  /** The replies of attempts that each end in a conflict, on the read or on the write. */
  function Conflicts(onRead: seq<bool>): Replies {
    if onRead == [] then []
    else (if onRead[0] then [Conflict] else [Done, Conflict]) + Conflicts(onRead[1..])
  }

  /**
   Main result: a budget that needs a write gets it exactly if fewer attempts than allowed meet
   a conflict before a clean one; the write then happens once, and without success not at all.
   */
  lemma {:induction false} RetriesSucceedIff(w: World, app: string, value: int, onRead: seq<bool>, tries: nat)
    requires !HasBudget(w, app, value)
    ensures var out := EnsurePdb(w, Conflicts(onRead), app, value, tries);
            && (out.ok <==> |onRead| < tries)
            && out.w == if out.ok then PutBudget(w, app, value) else w
    decreases tries
  {
    hide HasBudget, PutBudget;
    if tries > 0 && onRead != [] {
      var rs := Conflicts(onRead);
      RetriesSucceedIff(w, app, value, onRead[1..], tries - 1);
      assert onRead[0] ==> Rest(rs) == Conflicts(onRead[1..]);
      assert !onRead[0] ==> Rest(Rest(rs)) == Conflicts(onRead[1..]);
    }
  }

  /** Five attempts are made, as `retry.DefaultRetry` says. */
  lemma FourConflictsAreRetried(w: World, app: string, value: int, onRead: seq<bool>)
    requires !HasBudget(w, app, value)
    ensures EnsureAll(w, Conflicts(onRead), [app], value).ok <==> |onRead| <= 4
  {
    RetriesSucceedIff(w, app, value, onRead, RETRY_STEPS);
    assert [app][1..] == [];
    hide EnsurePdb;
  }

  /** Any other error ends the attempts at once, and a budget that has the value is not written. */
  lemma OtherErrorsAreNotRetried(w: World, rs: Replies, app: string, value: int)
    ensures Next(rs) == Refused || Next(rs) == Lost ==>
      EnsurePdb(w, rs, app, value, RETRY_STEPS) == Outcome(w, Rest(rs), false)
    ensures Next(rs).Done? && HasBudget(w, app, value) ==>
      EnsurePdb(w, rs, app, value, RETRY_STEPS) == Outcome(w, Rest(rs), true)
    ensures Next(rs).Done? && !HasBudget(w, app, value) && Next(Rest(rs)) == Refused ==>
      EnsurePdb(w, rs, app, value, RETRY_STEPS) == Outcome(w, Rest(Rest(rs)), false)
    ensures Next(rs).Done? && !HasBudget(w, app, value) && Next(Rest(rs)) == Lost ==>
      EnsurePdb(w, rs, app, value, RETRY_STEPS) == Outcome(PutBudget(w, app, value), Rest(Rest(rs)), false)
  {
    hide HasBudget, PutBudget;
  }
}
