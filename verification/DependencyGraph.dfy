/**
 The dependency plan of an UpgradeOrchestrator and its layering, defined without any
 algorithm: `Resolved(plan, k)` holds the names whose dependencies are all resolved in
 fewer rounds, and layer `k` is what round `k` adds.
 */
module DependencyGraph {
  import opened Common
  import opened Lexicographic

  /** One item of `spec.deployments`. */
  datatype Deployment = Deployment(name: string, dependsOn: seq<string>)

  type Plan = seq<Deployment>

  ghost function Names(plan: Plan): set<string> {
    set d | d in plan :: d.name
  }

  /** Everything some entry named `n` depends on. */
  ghost function Deps(plan: Plan, n: string): set<string> {
    set d, x | d in plan && d.name == n && x in d.dependsOn :: x
  }

  ghost predicate DistinctNames(plan: Plan) {
    forall i, j :: 0 <= i < j < |plan| ==> plan[i].name != plan[j].name
  }

  ghost predicate AllDeclared(plan: Plan) {
    forall n :: n in Names(plan) ==> Deps(plan, n) <= Names(plan)
  }

  /** `c` walks up the graph: every element depends on the one before it. */
  ghost predicate IsChain(plan: Plan, c: seq<string>) {
    && c != []
    && c[|c|-1] in Names(plan)
    && forall i :: 0 < i < |c| ==> c[i] in Names(plan) && c[i-1] in Deps(plan, c[i])
  }

  ghost predicate IsCycle(plan: Plan, c: seq<string>) {
    IsChain(plan, c) && |c| >= 2 && c[0] == c[|c|-1]
  }

  ghost predicate Acyclic(plan: Plan) {
    forall c :: !IsCycle(plan, c)
  }

  /** `n` needs `d` directly or through other names. */
  ghost predicate DependsTransitively(plan: Plan, n: string, d: string) {
    exists c :: IsChain(plan, c) && |c| >= 2 && c[0] == d && c[|c|-1] == n
  }

  // ---------- rounds ----------

  ghost function Resolved(plan: Plan, k: nat): set<string> {
    if k == 0 then {}
    else set n | n in Names(plan) && Deps(plan, n) <= Resolved(plan, k-1)
  }

  ghost function Level(plan: Plan, k: nat): set<string> {
    Resolved(plan, k+1) - Resolved(plan, k)
  }

  lemma {:induction false} ResolvedGrows(plan: Plan, j: nat, k: nat)
    requires j <= k
    ensures Resolved(plan, j) <= Resolved(plan, k)
  {
    if j > 0 {
      ResolvedGrows(plan, j-1, k-1);
    }
  }

  lemma SameRoundSameNext(plan: Plan, j: nat, k: nat)
    requires Resolved(plan, j) == Resolved(plan, k)
    ensures Resolved(plan, j+1) == Resolved(plan, k+1)
  {}

  lemma {:induction false} EmptyLevelIsFixpoint(plan: Plan, k: nat, j: nat)
    requires Level(plan, k) == {} && k <= j
    ensures Resolved(plan, j) == Resolved(plan, k)
  {
    if j > k {
      hide Resolved;
      EmptyLevelIsFixpoint(plan, k, j-1);
      SameRoundSameNext(plan, j-1, k);
      ResolvedGrows(plan, k, k+1);
      assert Resolved(plan, k+1) == Resolved(plan, k) + Level(plan, k);
    }
  }

  /** How many names are still unresolved after `k` rounds. */
  ghost function Left(plan: Plan, k: nat): nat {
    |Names(plan) - Resolved(plan, k)|
  }

  lemma LevelShrinksRest(plan: Plan, k: nat)
    requires Level(plan, k) != {}
    ensures Left(plan, k+1) < Left(plan, k)
    ensures |Resolved(plan, k+1)| == |Resolved(plan, k)| + |Level(plan, k)|
  {
    ResolvedGrows(plan, k, k+1);
    assert Resolved(plan, k+1) == Resolved(plan, k) + Level(plan, k);
    var a, b := Names(plan) - Resolved(plan, k+1), Names(plan) - Resolved(plan, k);
    assert b == a + Level(plan, k);
  }

  // ---------- the layering as a value ----------

  /** Round `k` resolves something new. */
  ghost predicate Busy(plan: Plan, k: nat) {
    Level(plan, k) != {}
  }

  ghost predicate IsDepth(plan: Plan, k: nat) {
    !Busy(plan, k) && forall j: nat :: j < k ==> Busy(plan, j)
  }

  lemma {:induction false} FirstQuietRound(busy: nat -> bool, left: nat -> nat, k: nat) returns (d: nat)
    requires forall j: nat :: busy(j) ==> left(j+1) < left(j)
    requires forall j: nat :: j < k ==> busy(j)
    ensures !busy(d) && forall j: nat :: j < d ==> busy(j)
    decreases left(k)
  {
    d := k;
    if busy(k) {
      d := FirstQuietRound(busy, left, k+1);
    }
  }

  lemma DepthExists(plan: Plan) returns (d: nat)
    ensures IsDepth(plan, d)
  {
    forall j: nat | Busy(plan, j) ensures Left(plan, j+1) < Left(plan, j) {
      LevelShrinksRest(plan, j);
    }
    var busy := (j: nat) => Busy(plan, j);
    d := FirstQuietRound(busy, (j: nat) => Left(plan, j), 0);
    assert forall j: nat :: Busy(plan, j) == busy(j);
  }

  /** The number of layers. */
  ghost function Depth(plan: Plan): (d: nat)
    ensures IsDepth(plan, d)
  {
    assert exists d: nat :: IsDepth(plan, d) by { var d := DepthExists(plan); }
    var d: nat :| IsDepth(plan, d);
    d
  }

  /** The first `k` layers, each in sorted order. */
  ghost function FirstLayers(plan: Plan, k: nat): (layers: seq<seq<string>>)
    ensures |layers| == k
    ensures forall i :: 0 <= i < k ==> layers[i] == Enumerate(Level(plan, i))
  {
    if k == 0 then [] else FirstLayers(plan, k-1) + [Enumerate(Level(plan, k-1))]
  }

  ghost function Layers(plan: Plan): (layers: seq<seq<string>>)
    ensures |layers| == Depth(plan)
  {
    FirstLayers(plan, Depth(plan))
  }

  function Total(layers: seq<seq<string>>): nat {
    if layers == [] then 0 else Total(layers[..|layers|-1]) + |layers[|layers|-1]|
  }

  /** What `buildDependencyLayers` answers; the cycle test runs only on non-empty layers. */
  ghost function Build(plan: Plan): Result<seq<seq<string>>> {
    if Layers(plan) != [] && Total(Layers(plan)) != |plan| then Err else Ok(Layers(plan))
  }

  lemma {:induction false} TotalCountsResolved(plan: Plan, k: nat)
    requires k <= Depth(plan)
    ensures Total(FirstLayers(plan, k)) == |Resolved(plan, k)|
  {
    if k > 0 {
      TotalCountsResolved(plan, k-1);
      assert Busy(plan, k-1);
      LevelShrinksRest(plan, k-1);
      ListsSize(Enumerate(Level(plan, k-1)), Level(plan, k-1));
      assert FirstLayers(plan, k)[..k-1] == FirstLayers(plan, k-1);
    }
  }

  // ---------- chains against rounds ----------

  /** A chain that ends in a resolved name climbs at least one round per link. */
  lemma {:induction false} ChainClimbs(plan: Plan, c: seq<string>, k: nat)
    requires IsChain(plan, c) && c[|c|-1] in Resolved(plan, k)
    ensures |c| <= k && c[0] in Resolved(plan, k + 1 - |c|)
  {
    if |c| > 1 {
      var b := c[..|c|-1];
      assert b[|b|-1] in Deps(plan, c[|c|-1]);
      assert b[|b|-1] in Names(plan);
      ChainClimbs(plan, b, k-1);
    }
  }

  lemma {:induction false} CycleIsNeverResolved(plan: Plan, c: seq<string>, k: nat)
    requires IsCycle(plan, c)
    ensures c[0] !in Resolved(plan, k)
  {
    if c[0] in Resolved(plan, k) {
      ChainClimbs(plan, c, k);
      CycleIsNeverResolved(plan, c, k + 1 - |c|);
    }
  }

  /** A name first resolved in round `k` ends a chain of exactly `k + 1` names. */
  lemma {:induction false} LongestChain(plan: Plan, n: string, k: nat) returns (c: seq<string>)
    requires n in Level(plan, k)
    ensures IsChain(plan, c) && c[|c|-1] == n && |c| == k + 1
    decreases k
  {
    if k == 0 {
      c := [n];
    } else {
      assert !(Deps(plan, n) <= Resolved(plan, k-1));
      var d :| d in Deps(plan, n) && d !in Resolved(plan, k-1);
      assert d in Resolved(plan, k);
      var b := LongestChain(plan, d, k-1);
      c := b + [n];
    }
  }

  /** Names that stay unresolved for ever can be followed downwards any number of steps. */
  lemma {:induction false} StuckChain(plan: Plan, n: string, m: nat) returns (c: seq<string>)
    requires AllDeclared(plan) && n in Names(plan) - Resolved(plan, Depth(plan))
    ensures IsChain(plan, c) && c[|c|-1] == n && |c| == m + 1
    ensures forall x :: x in c ==> x in Names(plan)
    decreases m
  {
    if m == 0 {
      c := [n];
    } else {
      assert n !in Level(plan, Depth(plan));
      assert n !in Resolved(plan, Depth(plan) + 1);
      var d :| d in Deps(plan, n) && d !in Resolved(plan, Depth(plan));
      var b := StuckChain(plan, d, m-1);
      c := b + [n];
    }
  }

  lemma {:induction false} Pigeonhole(c: seq<string>, s: set<string>) returns (i: nat, j: nat)
    requires |c| > |s| && forall x :: x in c ==> x in s
    ensures i < j < |c| && c[i] == c[j]
  {
    var x := c[|c|-1];
    var b := c[..|c|-1];
    if x in b {
      i :| 0 <= i < |b| && b[i] == x;
      j := |c|-1;
    } else {
      i, j := Pigeonhole(b, s - {x});
    }
  }

  lemma MissingMember<T>(a: set<T>, b: set<T>) returns (x: T)
    requires a <= b && a != b
    ensures x in b - a
  {
    x :| x in b && x !in a;
  }

  lemma AcyclicIsResolved(plan: Plan)
    requires AllDeclared(plan) && Acyclic(plan)
    ensures Resolved(plan, Depth(plan)) == Names(plan)
  {
    assert Resolved(plan, Depth(plan)) <= Names(plan);
    if Resolved(plan, Depth(plan)) != Names(plan) {
      var n := MissingMember(Resolved(plan, Depth(plan)), Names(plan));
      var c := StuckChain(plan, n, |Names(plan)|);
      var i, j := Pigeonhole(c, Names(plan));
      assert IsCycle(plan, c[i..j+1]);
      assert false;
    }
  }

  lemma ResolvedIsClosed(plan: Plan, k: nat, n: string)
    requires n in Resolved(plan, k)
    ensures n in Names(plan) && Deps(plan, n) <= Names(plan)
  {}

  lemma DistinctNamesSplit(p: Plan, d: Deployment)
    ensures DistinctNames(p + [d]) <==> DistinctNames(p) && d.name !in Names(p)
  {
    var plan := p + [d];
    if DistinctNames(plan) {
      forall i, j | 0 <= i < j < |p| ensures p[i].name != p[j].name {
        assert plan[i].name != plan[j].name;
      }
      forall e | e in p ensures e.name != d.name {
        var i :| 0 <= i < |p| && p[i] == e;
        assert plan[i].name != plan[|p|].name;
      }
    }
    if DistinctNames(p) && d.name !in Names(p) {
      forall i, j | 0 <= i < j < |plan| ensures plan[i].name != plan[j].name {
        assert plan[i] == p[i] && p[i] in p;
      }
    }
  }

  lemma {:induction false} CountNames(plan: Plan)
    ensures |Names(plan)| <= |plan|
    ensures |Names(plan)| == |plan| <==> DistinctNames(plan)
  {
    if plan != [] {
      var p, d := plan[..|plan|-1], plan[|plan|-1];
      CountNames(p);
      assert plan == p + [d];
      DistinctNamesSplit(p, d);
      assert Names(plan) == Names(p) + {d.name};
    }
  }

  // ---------- main results ----------

  /** Layering succeeds on exactly the plans that are sets of declared, acyclic names. */
  lemma LayeringSucceedsIff(plan: Plan)
    requires plan != []
    ensures Build(plan).Ok? && Build(plan).value != []
       <==> DistinctNames(plan) && AllDeclared(plan) && Acyclic(plan)
  {
    TotalCountsResolved(plan, Depth(plan));
    CountNames(plan);
    var k := Depth(plan);
    assert Resolved(plan, k) <= Names(plan);
    assert plan[0].name in Names(plan);
    if Build(plan).Ok? && Build(plan).value != [] {
      SubsetSize(Resolved(plan, k), Names(plan));
      forall c | IsCycle(plan, c) ensures false {
        CycleIsNeverResolved(plan, c, k);
      }
      forall n | n in Names(plan) ensures Deps(plan, n) <= Names(plan) {
        ResolvedIsClosed(plan, k, n);
      }
    }
    if DistinctNames(plan) && AllDeclared(plan) && Acyclic(plan) {
      AcyclicIsResolved(plan);
    }
  }

  lemma FirstRoundIsRoots(plan: Plan)
    ensures Level(plan, 0) == {} <==> forall n :: n in Names(plan) ==> Deps(plan, n) != {}
  {
    assert Level(plan, 0) == Resolved(plan, 1);
    assert forall n :: n in Resolved(plan, 1) <==> n in Names(plan) && Deps(plan, n) <= Resolved(plan, 0);
  }

  /**
   The guard on the cycle test: a plan in which every entry's name depends on something
   yields no layers and no error, cycles or not.
   */
  lemma EmptyLayersIff(plan: Plan)
    ensures Build(plan) == Ok([]) <==> forall n :: n in Names(plan) ==> Deps(plan, n) != {}
  {
    FirstRoundIsRoots(plan);
    assert Depth(plan) == 0 <==> !Busy(plan, 0) by {
      assert IsDepth(plan, Depth(plan));
    }
    hide Deps, Names, Resolved;
    assert Layers(plan) == [] <==> Depth(plan) == 0;
  }

  lemma LayeringResolvesAll(plan: Plan)
    requires Build(plan).Ok? && Build(plan).value != []
    ensures Resolved(plan, Depth(plan)) == Names(plan)
  {
    TotalCountsResolved(plan, Depth(plan));
    CountNames(plan);
    assert Resolved(plan, Depth(plan)) <= Names(plan);
    SubsetSize(Resolved(plan, Depth(plan)), Names(plan));
  }

  /** Layer `k` is sorted and holds exactly the names first resolved in round `k`. */
  lemma LayerIsLevel(plan: Plan, k: nat)
    requires k < Depth(plan)
    ensures var layer := Layers(plan)[k];
            && Sorted(layer) && Lists(layer, Level(plan, k)) && layer != []
            && forall n :: n in layer <==> n in Level(plan, k)
  {
    assert Busy(plan, k);
    ListsSize(Enumerate(Level(plan, k)), Level(plan, k));
    assert Layers(plan)[k] == Enumerate(Level(plan, k));
  }

  lemma LevelOf(plan: Plan, n: string, k: nat) returns (i: nat)
    requires n in Resolved(plan, k)
    ensures i < k && n in Level(plan, i)
  {
    if n in Resolved(plan, k-1) {
      i := LevelOf(plan, n, k-1);
    } else {
      i := k-1;
    }
  }

  lemma LevelsDisjoint(plan: Plan, i: nat, j: nat)
    requires i < j
    ensures Level(plan, i) !! Level(plan, j)
  {
    ResolvedGrows(plan, i+1, j);
  }

  /** Every name of a layered plan sits in exactly one layer. */
  lemma LayersPartition(plan: Plan, n: string)
    requires Build(plan).Ok? && Build(plan).value != [] && n in Names(plan)
    ensures var layers := Build(plan).value;
            && (exists k :: 0 <= k < |layers| && n in layers[k])
            && (forall i, j :: 0 <= i < j < |layers| ==> !(n in layers[i] && n in layers[j]))
  {
    LayeringResolvesAll(plan);
    var layers := Build(plan).value;
    var k := LevelOf(plan, n, Depth(plan));
    LayerIsLevel(plan, k);
    assert n in layers[k];
    forall i, j | 0 <= i < j < |layers| ensures !(n in layers[i] && n in layers[j]) {
      LayerIsLevel(plan, i);
      LayerIsLevel(plan, j);
      LevelsDisjoint(plan, i, j);
    }
  }

  /** The layer index of a name is the length of its longest dependency chain. */
  lemma LayerIndexIsLongestChain(plan: Plan, n: string, k: nat)
    requires Build(plan).Ok? && k < |Build(plan).value| && n in Build(plan).value[k]
    ensures exists c :: IsChain(plan, c) && c[|c|-1] == n && |c| == k + 1
    ensures forall c :: IsChain(plan, c) && c[|c|-1] == n ==> |c| <= k + 1
  {
    LayerIsLevel(plan, k);
    var c := LongestChain(plan, n, k);
    forall c' | IsChain(plan, c') && c'[|c'|-1] == n ensures |c'| <= k + 1 {
      ChainClimbs(plan, c', k + 1);
    }
  }

  /** Whatever a name needs, directly or not, sits in a strictly earlier layer. */
  lemma DependenciesInEarlierLayers(plan: Plan, n: string, k: nat, d: string)
    requires Build(plan).Ok? && k < |Build(plan).value| && n in Build(plan).value[k]
    requires DependsTransitively(plan, n, d)
    ensures exists j :: 0 <= j < k && d in Build(plan).value[j]
  {
    hide Resolved, Deps, Names, Layers, IsDepth, IsChain;
    LayerIsLevel(plan, k);
    var c :| IsChain(plan, c) && |c| >= 2 && c[0] == d && c[|c|-1] == n;
    ChainClimbs(plan, c, k + 1);
    var j := LevelOf(plan, d, k + 2 - |c|);
    LayerIsLevel(plan, j);
    assert d in Build(plan).value[j];
  }

  /** Two plans that say the same thing about the same names, in whatever order. */
  ghost predicate SamePlan(p: Plan, q: Plan) {
    |p| == |q| && Names(p) == Names(q) && forall n :: n in Names(p) ==> Deps(p, n) == Deps(q, n)
  }

  lemma {:induction false} SamePlanSameRounds(p: Plan, q: Plan, k: nat)
    requires SamePlan(p, q)
    ensures Resolved(p, k) == Resolved(q, k)
  {
    if k > 0 {
      SamePlanSameRounds(p, q, k-1);
    }
  }

  lemma SamePlanSameLayers(p: Plan, q: Plan)
    requires SamePlan(p, q)
    ensures Layers(p) == Layers(q)
  {
    forall k: nat ensures Level(p, k) == Level(q, k) {
      SamePlanSameRounds(p, q, k);
      SamePlanSameRounds(p, q, k+1);
    }
    assert Depth(p) == Depth(q) by {
      assert IsDepth(p, Depth(p)) && IsDepth(q, Depth(q));
      assert !Busy(q, Depth(p)) && !Busy(p, Depth(q));
    }
  }

  /** Layering depends on the plan as a set: reordering the deployments changes nothing. */
  lemma LayeringIgnoresOrder(p: Plan, q: Plan)
    requires multiset(p) == multiset(q)
    ensures Build(p) == Build(q)
  {
    assert |multiset(p)| == |multiset(q)|;
    forall d ensures d in p <==> d in q {
      assert d in p <==> d in multiset(p);
      assert d in q <==> d in multiset(q);
    }
    assert forall n :: Deps(p, n) == Deps(q, n);
    SamePlanSameLayers(p, q);
  }

  // ---------- the part of a plan that can ever start ----------

  /**
   Names that can be reached in `k` rounds when only names in `existing` may start and one
   entry with all dependencies reached is enough.
   */
  ghost function Startable(plan: Plan, existing: set<string>, k: nat): set<string> {
    if k == 0 then {}
    else set e | e in plan && e.name in existing
                 && (forall d :: d in e.dependsOn ==> d in Startable(plan, existing, k-1)) :: e.name
  }

  lemma {:induction false} StartableGrows(plan: Plan, existing: set<string>, j: nat, k: nat)
    requires j <= k
    ensures Startable(plan, existing, j) <= Startable(plan, existing, k)
  {
    if j > 0 {
      StartableGrows(plan, existing, j-1, k-1);
    }
  }

  /** The bottom of a chain that ends in a startable name is startable in fewer rounds. */
  lemma {:induction false} StartableClimbs(plan: Plan, existing: set<string>, c: seq<string>, k: nat)
    requires DistinctNames(plan) && IsChain(plan, c) && c[|c|-1] in Startable(plan, existing, k)
    ensures |c| <= k && c[0] in Startable(plan, existing, k + 1 - |c|)
  {
    if |c| > 1 {
      var b, n := c[..|c|-1], c[|c|-1];
      var e :| e in plan && e.name == n && forall d :: d in e.dependsOn ==> d in Startable(plan, existing, k-1);
      assert b[|b|-1] in Deps(plan, n);
      var f :| f in plan && f.name == n && b[|b|-1] in f.dependsOn;
      assert e == f;
      assert b[|b|-1] in Names(plan) by { StartableAreNames(plan, existing, k-1); }
      StartableClimbs(plan, existing, b, k-1);
    }
  }

  lemma StartableAreNames(plan: Plan, existing: set<string>, k: nat)
    ensures Startable(plan, existing, k) <= Names(plan) * existing
  {}

  /** The chain starts at a cycle, or at something undeclared or missing. */
  ghost predicate DeadStart(plan: Plan, existing: set<string>, c: seq<string>)
    requires c != []
  {
    || c[0] !in existing || c[0] !in Names(plan)
    || exists cycle :: IsCycle(plan, cycle) && cycle[0] == c[0]
  }

  /** A cycle, an undeclared name or a missing workload under a name keeps it from ever starting. */
  ghost predicate Doomed(plan: Plan, existing: set<string>, n: string) {
    exists c :: IsChain(plan, c) && c[|c|-1] == n && DeadStart(plan, existing, c)
  }

  lemma {:induction false} CycleNeverStarts(plan: Plan, existing: set<string>, c: seq<string>, k: nat)
    requires DistinctNames(plan) && IsCycle(plan, c)
    ensures c[0] !in Startable(plan, existing, k)
  {
    if c[0] in Startable(plan, existing, k) {
      StartableClimbs(plan, existing, c, k);
      CycleNeverStarts(plan, existing, c, k + 1 - |c|);
    }
  }

  lemma DoomedNeverStarts(plan: Plan, existing: set<string>, n: string, k: nat)
    requires DistinctNames(plan) && Doomed(plan, existing, n)
    ensures n !in Startable(plan, existing, k)
  {
    if n in Startable(plan, existing, k) {
      var c :| IsChain(plan, c) && c[|c|-1] == n && DeadStart(plan, existing, c);
      StartableClimbs(plan, existing, c, k);
      StartableAreNames(plan, existing, k + 1 - |c|);
      var cycle :| IsCycle(plan, cycle) && cycle[0] == c[0];
      CycleNeverStarts(plan, existing, cycle, k + 1 - |c|);
    }
  }

  /** Until nothing changes any more, every round starts something new. */
  lemma {:induction false} StartableSize(plan: Plan, existing: set<string>, k: nat)
    ensures Startable(plan, existing, k+1) == Startable(plan, existing, k) || |Startable(plan, existing, k+1)| > k
  {
    hide Startable;
    if Startable(plan, existing, k+1) != Startable(plan, existing, k) {
      StartableGrows(plan, existing, k, k+1);
      SubsetSize(Startable(plan, existing, k), Startable(plan, existing, k+1));
      if k > 0 {
        StartableSize(plan, existing, k-1);
        if Startable(plan, existing, k) == Startable(plan, existing, k-1) {
          SettledStaysSettled(plan, existing, k);
        }
      }
    }
  }

  lemma SettledStaysSettled(plan: Plan, existing: set<string>, k: nat)
    requires k > 0 && Startable(plan, existing, k) == Startable(plan, existing, k-1)
    ensures Startable(plan, existing, k+1) == Startable(plan, existing, k)
  {}

  /** As many rounds as there are names start all that ever starts. */
  lemma StartableSettles(plan: Plan, existing: set<string>)
    ensures Startable(plan, existing, |Names(plan)| + 1) == Startable(plan, existing, |Names(plan)|)
  {
    var k := |Names(plan)|;
    StartableSize(plan, existing, k);
    StartableAreNames(plan, existing, k+1);
    SubsetSize(Startable(plan, existing, k+1), Names(plan));
  }

  /** Below a name that never starts there is a dead start, or a chain as long as one likes. */
  lemma {:induction false} NeverStartingChain(plan: Plan, existing: set<string>, n: string, m: nat)
    returns (c: seq<string>)
    requires n in Names(plan) && n !in Startable(plan, existing, |Names(plan)|)
    ensures IsChain(plan, c) && c[|c|-1] == n
    ensures DeadStart(plan, existing, c) || (|c| == m + 1 && forall x :: x in c ==> x in Names(plan))
    decreases m
  {
    c := [n];
    if m > 0 && n in existing {
      StartableSettles(plan, existing);
      var e :| e in plan && e.name == n;
      assert n !in Startable(plan, existing, |Names(plan)| + 1);
      var d :| d in e.dependsOn && d !in Startable(plan, existing, |Names(plan)|);
      assert d in Deps(plan, n);
      var b := [d];
      if d in Names(plan) {
        b := NeverStartingChain(plan, existing, d, m-1);
      }
      c := b + [n];
    }
  }

  lemma LongChainIsDoomed(plan: Plan, existing: set<string>, c: seq<string>)
    requires IsChain(plan, c) && |c| > |Names(plan)| && forall x :: x in c ==> x in Names(plan)
    ensures Doomed(plan, existing, c[|c|-1])
  {
    hide Deps, Names;
    var i, j := Pigeonhole(c, Names(plan));
    var tail, cycle := c[i..], c[i..j+1];
    assert IsChain(plan, tail) && tail[|tail|-1] == c[|c|-1];
    assert IsCycle(plan, cycle) && cycle[0] == tail[0];
    assert DeadStart(plan, existing, tail);
  }

  /**
   The exact part of a plan that never starts: a planned name is doomed or starts within as
   many rounds as there are names, one or the other.
   */
  lemma StartsIffNotDoomed(plan: Plan, existing: set<string>, n: string)
    requires DistinctNames(plan) && n in Names(plan)
    ensures n in Startable(plan, existing, |Names(plan)|) <==> !Doomed(plan, existing, n)
  {
    if n !in Startable(plan, existing, |Names(plan)|) {
      var c := NeverStartingChain(plan, existing, n, |Names(plan)|);
      if !DeadStart(plan, existing, c) {
        LongChainIsDoomed(plan, existing, c);
      }
    } else if Doomed(plan, existing, n) {
      DoomedNeverStarts(plan, existing, n, |Names(plan)|);
    }
  }

  /** With every name declared once, everything declared and every workload there, rounds are rounds. */
  lemma {:induction false} StartableIsResolved(plan: Plan, existing: set<string>, k: nat)
    requires DistinctNames(plan) && Names(plan) <= existing
    ensures Startable(plan, existing, k) == Resolved(plan, k)
  {
    if k > 0 {
      StartableIsResolved(plan, existing, k-1);
      forall e | e in plan ensures e.name in Names(plan) && Deps(plan, e.name) == set d | d in e.dependsOn {
        forall f | f in plan && f.name == e.name ensures f == e {}
      }
    }
  }
}
