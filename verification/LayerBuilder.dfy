/**
 `buildDependencyLayers`: Kahn's algorithm on two mutable maps. The method is proved to
 answer `DependencyGraph.Build(plan)` whatever order the in-degree map is enumerated in.
 */
module LayerBuilder {
  import opened Common
  import opened Lexicographic
  import opened DependencyGraph

  /** One occurrence of `dep` in the `dependsOn` list of an entry called `name`. */
  datatype Edge = Edge(dep: string, name: string)

  /** The entries that list `dep`, once per occurrence, in plan order. */
  ghost function Targets(es: seq<Edge>, dep: string): seq<string> {
    if es == [] then []
    else
      var e := es[|es|-1];
      Targets(es[..|es|-1], dep) + if e.dep == dep then [e.name] else []
  }

  /** How many edges into `n` start outside `done`. */
  ghost function Pending(es: seq<Edge>, n: string, done: set<string>): nat {
    if es == [] then 0
    else
      var e := es[|es|-1];
      Pending(es[..|es|-1], n, done) + if e.name == n && e.dep !in done then 1 else 0
  }

  /** The first `j` dependencies of an entry, in order. */
  function EntryEdges(d: Deployment, j: nat): seq<Edge>
    requires j <= |d.dependsOn|
  {
    seq(j, x requires 0 <= x < j => Edge(d.dependsOn[x], d.name))
  }

  /** Every dependency occurrence of the plan, entry by entry in plan order. */
  function EdgeList(plan: Plan): seq<Edge> {
    if plan == [] then []
    else
      var d := plan[|plan|-1];
      EdgeList(plan[..|plan|-1]) + EntryEdges(d, |d.dependsOn|)
  }

  ghost predicate EdgesOf(plan: Plan, es: seq<Edge>) {
    es == EdgeList(plan)
  }

  lemma EntryEdgesMeans(d: Deployment, dep: string, n: string)
    ensures Edge(dep, n) in EntryEdges(d, |d.dependsOn|) <==> n == d.name && dep in d.dependsOn
  {
    if n == d.name && dep in d.dependsOn {
      var x :| 0 <= x < |d.dependsOn| && d.dependsOn[x] == dep;
      assert EntryEdges(d, |d.dependsOn|)[x] == Edge(dep, n);
    }
  }

  lemma {:induction false} EdgeListMeans(plan: Plan, dep: string, n: string)
    ensures Edge(dep, n) in EdgeList(plan) <==> n in Names(plan) && dep in Deps(plan, n)
  {
    if plan != [] {
      var p, d := plan[..|plan|-1], plan[|plan|-1];
      assert plan == p + [d];
      EdgeListMeans(p, dep, n);
      EntryEdgesMeans(d, dep, n);
      assert n in Names(plan) && dep in Deps(plan, n)
        <==> (n in Names(p) && dep in Deps(p, n)) || (n == d.name && dep in d.dependsOn);
    }
  }

  lemma EdgeIsDependency(plan: Plan, es: seq<Edge>, dep: string, n: string)
    requires EdgesOf(plan, es)
    ensures Edge(dep, n) in es <==> n in Names(plan) && dep in Deps(plan, n)
  {
    EdgeListMeans(plan, dep, n);
  }

  lemma {:induction false} PendingZero(es: seq<Edge>, n: string, done: set<string>)
    ensures Pending(es, n, done) == 0 <==> forall dep :: Edge(dep, n) in es ==> dep in done
  {
    if es != [] {
      var b, e := es[..|es|-1], es[|es|-1];
      PendingZero(b, n, done);
      assert es == b + [e];
      assert e in es;
    }
  }

  lemma {:induction false} PendingDrops(es: seq<Edge>, n: string, done: set<string>, dep: string)
    requires dep !in done
    ensures Pending(es, n, done) == Pending(es, n, done + {dep}) + multiset(Targets(es, dep))[n]
  {
    if es != [] {
      PendingDrops(es[..|es|-1], n, done, dep);
    }
  }

  lemma PendingZeroIsNextRound(plan: Plan, es: seq<Edge>, n: string, k: nat)
    requires EdgesOf(plan, es) && n in Names(plan)
    ensures Pending(es, n, Resolved(plan, k)) == 0 <==> n in Resolved(plan, k+1)
  {
    PendingZero(es, n, Resolved(plan, k));
    forall dep ensures Edge(dep, n) in es <==> dep in Deps(plan, n) {
      EdgeIsDependency(plan, es, dep, n);
    }
  }

  /** The keys whose counter stands at zero. */
  ghost function Zeros(inDegree: map<string, int>): set<string> {
    set n | n in inDegree && inDegree[n] == 0
  }

  function Neighbours(graph: map<string, seq<string>>, name: string): seq<string> {
    if name in graph then graph[name] else []
  }

  /** The two maps record the edge list: adjacency in order, in-degree with multiplicity. */
  ghost predicate Recorded(graph: map<string, seq<string>>, inDegree: map<string, int>, es: seq<Edge>) {
    && (forall x :: Neighbours(graph, x) == Targets(es, x))
    && (forall n :: n in inDegree ==> inDegree[n] == Pending(es, n, {}))
  }

  lemma RecordEdge(graph: map<string, seq<string>>, inDegree: map<string, int>, es: seq<Edge>,
                   dep: string, name: string)
    requires Recorded(graph, inDegree, es) && name in inDegree
    ensures Recorded(graph[dep := Neighbours(graph, dep) + [name]],
                     inDegree[name := inDegree[name] + 1], es + [Edge(dep, name)])
  {
    var more := es + [Edge(dep, name)];
    assert more[..|more|-1] == es;
    var graph' := graph[dep := Neighbours(graph, dep) + [name]];
    forall x ensures Neighbours(graph', x) == Targets(more, x) {
      assert Neighbours(graph, x) == Targets(es, x);
    }
  }

  lemma NothingRecorded(graph: map<string, seq<string>>, inDegree: map<string, int>)
    requires (forall n :: n in inDegree ==> inDegree[n] == 0) && forall x :: x in graph ==> graph[x] == []
    ensures Recorded(graph, inDegree, [])
  {}

  lemma NoEdges(plan: Plan)
    ensures EdgeList(plan[..0]) == []
  {}

  lemma NoEntryEdges(d: Deployment)
    ensures EntryEdges(d, 0) == []
  {}

  lemma NextEdge(d: Deployment, j: nat)
    requires j < |d.dependsOn|
    ensures EntryEdges(d, j+1) == EntryEdges(d, j) + [Edge(d.dependsOn[j], d.name)]
  {}

  lemma NextEntry(plan: Plan, i: nat)
    requires i < |plan|
    ensures EdgeList(plan[..i+1]) == EdgeList(plan[..i]) + EntryEdges(plan[i], |plan[i].dependsOn|)
  {
    assert plan[..i+1][..i] == plan[..i];
  }

  /** The start of `buildDependencyLayers`: both maps, filled from the plan. */
  method CountEdges(deployments: Plan)
    returns (graph: map<string, seq<string>>, inDegree: map<string, int>, ghost es: seq<Edge>)
    ensures EdgesOf(deployments, es) && Recorded(graph, inDegree, es)
    ensures inDegree.Keys == Names(deployments)
  {
    hide Recorded, EdgeList, EntryEdges, Neighbours;
    graph, inDegree, es := map[], map[], [];
    for i := 0 to |deployments|
      invariant inDegree.Keys == set d | d in deployments[..i] :: d.name
      invariant forall n :: n in inDegree ==> inDegree[n] == 0
      invariant forall x :: x in graph ==> graph[x] == []
    {
      assert deployments[..i+1] == deployments[..i] + [deployments[i]];
      inDegree := inDegree[deployments[i].name := 0];
      graph := graph[deployments[i].name := []];
    }
    assert deployments[..|deployments|] == deployments;
    NothingRecorded(graph, inDegree);
    NoEdges(deployments);
    for i := 0 to |deployments|
      invariant inDegree.Keys == Names(deployments)
      invariant es == EdgeList(deployments[..i]) && Recorded(graph, inDegree, es)
    {
      var d := deployments[i];
      ghost var before := es;
      assert d in deployments;
      NoEntryEdges(d);
      for j := 0 to |d.dependsOn|
        invariant inDegree.Keys == Names(deployments)
        invariant es == before + EntryEdges(d, j) && Recorded(graph, inDegree, es)
      {
        var dep := d.dependsOn[j];
        RecordEdge(graph, inDegree, es, dep, d.name);
        graph := graph[dep := Neighbours(graph, dep) + [d.name]];
        inDegree := inDegree[d.name := inDegree[d.name] + 1];
        es := es + [Edge(dep, d.name)];
        NextEdge(d, j);
      }
      NextEntry(deployments, i);
    }
    assert deployments[..|deployments|] == deployments;
  }

  /** The first queue: the names without dependencies, in whatever order the map yields them. */
  method RootQueue(inDegree: map<string, int>) returns (queue: seq<string>)
    ensures Lists(queue, Zeros(inDegree))
  {
    queue := [];
    var keys := inDegree.Keys;
    while keys != {}
      invariant keys <= inDegree.Keys
      invariant Lists(queue, Zeros(inDegree) - keys)
    {
      var name :| name in keys;
      ghost var before := Zeros(inDegree) - keys;
      keys := keys - {name};
      if inDegree[name] == 0 {
        queue := queue + [name];
        assert Zeros(inDegree) - keys == before + {name};
      } else {
        assert Zeros(inDegree) - keys == before;
      }
    }
    assert Zeros(inDegree) - keys == Zeros(inDegree);
  }

  lemma {:induction false} TargetsAreEdges(es: seq<Edge>, dep: string, n: string)
    requires n in Targets(es, dep)
    ensures Edge(dep, n) in es
  {
    var b, e := es[..|es|-1], es[|es|-1];
    assert es == b + [e];
    if n in Targets(b, dep) {
      TargetsAreEdges(b, dep, n);
    }
  }

  /** A neighbour of a name of layer `k` cannot itself be in that layer or an earlier one. */
  lemma NeighbourIsLater(plan: Plan, es: seq<Edge>, k: nat, name: string, neighbor: string)
    requires EdgesOf(plan, es) && name in Level(plan, k) && neighbor in Targets(es, name)
    ensures neighbor in Names(plan) && neighbor !in Resolved(plan, k+1)
  {
    TargetsAreEdges(es, name, neighbor);
    EdgeIsDependency(plan, es, name, neighbor);
    assert name in Deps(plan, neighbor);
  }

  lemma ZerosAreNextRound(plan: Plan, es: seq<Edge>, inDegree: map<string, int>, k: nat)
    requires EdgesOf(plan, es) && inDegree.Keys == Names(plan)
    requires Counts(inDegree, es, Resolved(plan, k))
    ensures Zeros(inDegree) == Resolved(plan, k+1)
  {
    forall n | n in Names(plan)
      ensures Pending(es, n, Resolved(plan, k)) == 0 <==> n in Resolved(plan, k+1)
    {
      PendingZeroIsNextRound(plan, es, n, k);
    }
  }

  /** Each counter is the number of edges left from outside `done`. */
  ghost predicate Counts(inDegree: map<string, int>, es: seq<Edge>, done: set<string>) {
    forall n :: n in inDegree ==> inDegree[n] == Pending(es, n, done)
  }

  /** The counters still hold the edges into `rest` that the loop has not yet taken off. */
  ghost predicate CountsPlus(inDegree: map<string, int>, es: seq<Edge>, done: set<string>, rest: seq<string>) {
    forall n :: n in inDegree ==> inDegree[n] == Pending(es, n, done) + multiset(rest)[n]
  }

  /** The inner loop's state: edges into `rest` still to take off, `queued` what reached zero. */
  ghost predicate Relaxing(inDegree: map<string, int>, queued: seq<string>, es: seq<Edge>,
                           done: set<string>, rest: seq<string>, fixed: set<string>) {
    CountsPlus(inDegree, es, done, rest) && Lists(queued, Zeros(inDegree) - fixed)
  }

  lemma BeforeRelaxing(inDegree: map<string, int>, queued: seq<string>, es: seq<Edge>,
                       done: set<string>, name: string, fixed: set<string>)
    requires name !in done && Counts(inDegree, es, done) && Lists(queued, Zeros(inDegree) - fixed)
    ensures Relaxing(inDegree, queued, es, done + {name}, Targets(es, name), fixed)
  {
    forall n | n in inDegree
      ensures inDegree[n] == Pending(es, n, done + {name}) + multiset(Targets(es, name))[n]
    {
      PendingDrops(es, n, done, name);
    }
  }

  lemma RelaxingEnds(inDegree: map<string, int>, queued: seq<string>, es: seq<Edge>,
                     done: set<string>, fixed: set<string>)
    requires Relaxing(inDegree, queued, es, done, [], fixed)
    ensures Counts(inDegree, es, done) && Lists(queued, Zeros(inDegree) - fixed)
  {}

  lemma DecrementStep(inDegree: map<string, int>, queued: seq<string>, es: seq<Edge>, done: set<string>,
                      n: string, rest: seq<string>, fixed: set<string>)
    requires n in inDegree && n !in fixed && Relaxing(inDegree, queued, es, done, [n] + rest, fixed)
    ensures var after := inDegree[n := inDegree[n] - 1];
            Relaxing(after, if after[n] == 0 then queued + [n] else queued, es, done, rest, fixed)
  {
    var after := inDegree[n := inDegree[n] - 1];
    var zeros := Zeros(inDegree) - fixed;
    assert inDegree[n] > 0;
    assert Zeros(after) - fixed == zeros + (if after[n] == 0 then {n} else {});
    if after[n] == 0 {
      assert n !in zeros && n !in queued;
      assert Lists(queued + [n], zeros + {n});
    }
  }

  /** One name leaves the graph; counters that reach zero join the next queue. */
  method RelaxNeighbours(ghost es: seq<Edge>, ghost done: set<string>, ghost fixed: set<string>,
                         name: string, neighbours: seq<string>,
                         counters: map<string, int>, queued: seq<string>)
    returns (inDegree: map<string, int>, nextQueue: seq<string>)
    requires name !in done && neighbours == Targets(es, name)
    requires Counts(counters, es, done) && Lists(queued, Zeros(counters) - fixed)
    requires forall n :: n in neighbours ==> n in counters && n !in fixed
    ensures inDegree.Keys == counters.Keys
    ensures Counts(inDegree, es, done + {name}) && Lists(nextQueue, Zeros(inDegree) - fixed)
  {
    hide Relaxing, Counts, Zeros;
    inDegree, nextQueue := counters, queued;
    ghost var after := done + {name};
    BeforeRelaxing(inDegree, nextQueue, es, done, name, fixed);
    assert neighbours[0..] == neighbours;
    for j := 0 to |neighbours|
      invariant inDegree.Keys == counters.Keys
      invariant Relaxing(inDegree, nextQueue, es, after, neighbours[j..], fixed)
    {
      var neighbor := neighbours[j];
      assert neighbours[j..] == [neighbor] + neighbours[j+1..];
      DecrementStep(inDegree, nextQueue, es, after, neighbor, neighbours[j+1..], fixed);
      inDegree := inDegree[neighbor := inDegree[neighbor] - 1];
      if inDegree[neighbor] == 0 {
        nextQueue := nextQueue + [neighbor];
      }
    }
    assert neighbours[|neighbours|..] == [];
    RelaxingEnds(inDegree, nextQueue, es, after, fixed);
  }

  ghost function Prefix(queue: seq<string>, i: nat): set<string>
    requires i <= |queue|
  {
    set x | x in queue[..i]
  }

  lemma PrefixGrows(queue: seq<string>, layer: set<string>, i: nat)
    requires Lists(queue, layer) && i < |queue|
    ensures queue[i] in layer && queue[i] !in Prefix(queue, i)
    ensures Prefix(queue, i+1) == Prefix(queue, i) + {queue[i]}
  {
    assert queue[..i+1] == queue[..i] + [queue[i]];
  }

  lemma PrefixIsAll(queue: seq<string>, layer: set<string>)
    requires Lists(queue, layer)
    ensures Prefix(queue, |queue|) == layer
  {
    assert queue[..|queue|] == queue;
  }

  /** `layer` is queued, its edges are all still counted, and they lead to later names only. */
  ghost predicate CanRelax(es: seq<Edge>, done: set<string>, layer: set<string>,
                           counters: map<string, int>, queue: seq<string>) {
    && Counts(counters, es, done) && Zeros(counters) == done + layer
    && Lists(queue, layer) && done !! layer
    && forall name, n :: name in layer && n in Targets(es, name) ==>
         n in counters && n !in done + layer
  }

  /** With `gone` off the graph, `queue` holds the names whose counters have reached zero since. */
  ghost predicate Relaxed(es: seq<Edge>, gone: set<string>, inDegree: map<string, int>, queue: seq<string>) {
    Counts(inDegree, es, gone) && Lists(queue, Zeros(inDegree) - gone)
  }

  lemma RelaxBegins(es: seq<Edge>, done: set<string>, layer: set<string>, counters: map<string, int>,
                    queue: seq<string>)
    requires CanRelax(es, done, layer, counters, queue)
    ensures Counts(counters, es, done + Prefix(queue, 0)) && Lists([], Zeros(counters) - (done + layer))
  {
    assert done + Prefix(queue, 0) == done;
  }

  /** A whole layer leaves the graph. */
  method Relax(ghost es: seq<Edge>, ghost done: set<string>, ghost layer: set<string>,
               graph: map<string, seq<string>>, counters: map<string, int>, queue: seq<string>)
    returns (inDegree: map<string, int>, nextQueue: seq<string>)
    requires forall x :: Neighbours(graph, x) == Targets(es, x)
    requires CanRelax(es, done, layer, counters, queue)
    ensures inDegree.Keys == counters.Keys
    ensures Relaxed(es, done + layer, inDegree, nextQueue)
  {
    hide Zeros, Counts, Prefix, Lists, Targets, Neighbours;
    inDegree, nextQueue := counters, [];
    RelaxBegins(es, done, layer, counters, queue);
    for i := 0 to |queue|
      invariant inDegree.Keys == counters.Keys
      invariant Counts(inDegree, es, done + Prefix(queue, i))
      invariant Lists(nextQueue, Zeros(inDegree) - (done + layer))
    {
      PrefixGrows(queue, layer, i);
      var name := queue[i];
      ghost var before := done + Prefix(queue, i);
      inDegree, nextQueue := RelaxNeighbours(es, before, done + layer, name,
                                             Neighbours(graph, name), inDegree, nextQueue);
      assert before + {name} == done + Prefix(queue, i+1);
    }
    PrefixIsAll(queue, layer);
  }

  /** The cycle test's count: the number of names in all layers. */
  method CountLayered(layers: seq<seq<string>>) returns (count: nat)
    ensures count == Total(layers)
  {
    count := 0;
    for i := 0 to |layers|
      invariant count == Total(layers[..i])
    {
      assert layers[..i+1][..i] == layers[..i];
      count := count + |layers[i]|;
    }
    assert layers[..|layers|] == layers;
  }

  /** The main loop's state before round `k`. */
  ghost predicate RoundState(plan: Plan, es: seq<Edge>, k: nat, inDegree: map<string, int>,
                             queue: seq<string>, layers: seq<seq<string>>) {
    && inDegree.Keys == Names(plan)
    && Counts(inDegree, es, Resolved(plan, k))
    && Lists(queue, Level(plan, k))
    && (forall j: nat :: j < k ==> Busy(plan, j))
    && layers == FirstLayers(plan, k)
  }

  lemma FirstRoundState(plan: Plan, es: seq<Edge>, inDegree: map<string, int>, queue: seq<string>)
    requires EdgesOf(plan, es) && inDegree.Keys == Names(plan)
    requires Counts(inDegree, es, {}) && Lists(queue, Zeros(inDegree))
    ensures RoundState(plan, es, 0, inDegree, queue, [])
  {
    ZerosAreNextRound(plan, es, inDegree, 0);
  }

  /** A non-empty queue can leave the graph, and doing so brings the end nearer. */
  lemma RoundCanRelax(plan: Plan, es: seq<Edge>, k: nat, inDegree: map<string, int>,
                      queue: seq<string>, layers: seq<seq<string>>)
    requires EdgesOf(plan, es) && RoundState(plan, es, k, inDegree, queue, layers) && queue != []
    ensures CanRelax(es, Resolved(plan, k), Level(plan, k), inDegree, Sort(queue))
    ensures Left(plan, k+1) < Left(plan, k)
  {
    hide Names, Resolved, Counts, Targets;
    assert queue[0] in Level(plan, k);
    LevelShrinksRest(plan, k);
    SortIsEnumerate(queue, Level(plan, k));
    ResolvedGrows(plan, k, k+1);
    ZerosAreNextRound(plan, es, inDegree, k);
    forall name, n | name in Level(plan, k) && n in Targets(es, name)
      ensures n in inDegree && n !in Resolved(plan, k+1)
    {
      NeighbourIsLater(plan, es, k, name, n);
    }
  }

  lemma NextRoundState(plan: Plan, es: seq<Edge>, k: nat, layers: seq<seq<string>>, queue: seq<string>,
                       counters: map<string, int>, inDegree: map<string, int>, nextQueue: seq<string>)
    requires EdgesOf(plan, es) && RoundState(plan, es, k, counters, queue, layers) && queue != []
    requires inDegree.Keys == counters.Keys
    requires Relaxed(es, Resolved(plan, k) + Level(plan, k), inDegree, nextQueue)
    ensures RoundState(plan, es, k+1, inDegree, nextQueue, layers + [Sort(queue)])
  {
    hide Counts, Zeros, Resolved, Sort, Names;
    assert queue[0] in Level(plan, k);
    ResolvedGrows(plan, k, k+1);
    assert Resolved(plan, k) + Level(plan, k) == Resolved(plan, k+1);
    ZerosAreNextRound(plan, es, inDegree, k+1);
    SortIsEnumerate(queue, Level(plan, k));
  }

  lemma QuietRoundEnds(plan: Plan, es: seq<Edge>, k: nat, inDegree: map<string, int>,
                       queue: seq<string>, layers: seq<seq<string>>)
    requires RoundState(plan, es, k, inDegree, queue, layers) && queue == []
    ensures layers == Layers(plan)
  {
    assert !Busy(plan, k);
    assert IsDepth(plan, Depth(plan));
  }

  /** The main loop: layer after layer leaves the graph until the queue stays empty. */
  method PeelLayers(deployments: Plan, ghost es: seq<Edge>, graph: map<string, seq<string>>,
                    counters: map<string, int>, roots: seq<string>)
    returns (layers: seq<seq<string>>)
    requires EdgesOf(deployments, es)
    requires forall x :: Neighbours(graph, x) == Targets(es, x)
    requires RoundState(deployments, es, 0, counters, roots, [])
    ensures layers == Layers(deployments)
  {
    hide *;
    var inDegree, queue := counters, roots;
    ghost var k: nat := 0;
    layers := [];
    while |queue| > 0
      invariant RoundState(deployments, es, k, inDegree, queue, layers)
      decreases Left(deployments, k)
    {
      RoundCanRelax(deployments, es, k, inDegree, queue, layers);
      ghost var done, layer := Resolved(deployments, k), Level(deployments, k);
      var sorted := Sort(queue);
      var fewer, nextQueue := Relax(es, done, layer, graph, inDegree, sorted);
      NextRoundState(deployments, es, k, layers, queue, inDegree, fewer, nextQueue);
      layers := layers + [sorted];
      inDegree, queue := fewer, nextQueue;
      k := k + 1;
    }
    QuietRoundEnds(deployments, es, k, inDegree, queue, layers);
  }

  method BuildDependencyLayers(deployments: Plan) returns (r: Result<seq<seq<string>>>)
    ensures r == Build(deployments)
  {
    var graph, inDegree, es := CountEdges(deployments);
    var queue := RootQueue(inDegree);
    FirstRoundState(deployments, es, inDegree, queue);
    var layers := PeelLayers(deployments, es, graph, inDegree, queue);
    if |layers| > 0 {
      var count := CountLayered(layers);
      if count != |deployments| {
        return Err;
      }
    }
    return Ok(layers);
  }
}
