/**
 What one reconcile pass of the layered controller does, as a function of the cluster and of
 the outcomes of its API calls. The cluster carries a log of what has reached the API server
 and of what the operator has observed, so that states between single writes can be spoken of.
 */
module LayeredModel {
  import opened Common
  import opened Api
  import opened DependencyGraph
  import opened SemVer

  datatype Phase = NoPhase | Initializing | Idle | Upgrading | Completed | OtherPhase

  datatype Event =
    | BudgetSet(app: string, value: int)
    | SeenOnTarget(app: string, version: string)
    | PhaseSet(phase: Phase, layer: nat)

  /** `budgets` maps budget names to their `maxUnavailable`. */
  datatype World = World(
    phase: Phase, currentLayer: nat, budgets: map<string, Option<IntOrString>>,
    nodes: seq<Node>, pods: seq<Pod>, log: seq<Event>)

  datatype Config = Config(plan: Plan, parse: Parser)

  /** The cluster, the calls left over, and whether the operation returned no error. */
  datatype Outcome = Outcome(w: World, rs: Replies, ok: bool)

  const RETRY_STEPS := 5

  // ---------- budgets ----------

  function PdbName(app: string): string {
    app + "-pdb"
  }

  predicate InState(b: Option<IntOrString>, value: int) {
    b.Some? && IntValue(b.value) == value
  }

  predicate HasBudget(w: World, app: string, value: int) {
    PdbName(app) in w.budgets && InState(w.budgets[PdbName(app)], value)
  }

  function PutBudget(w: World, app: string, value: int): World {
    w.(budgets := w.budgets[PdbName(app) := Some(Int(value))], log := w.log + [BudgetSet(app, value)])
  }

  /** `ensurePDBState`; a conflict starts the next of at most `RETRY_STEPS` attempts. */
  function EnsurePdb(w: World, rs: Replies, app: string, value: int, tries: nat): Outcome
    decreases tries
  {
    if tries == 0 then Outcome(w, rs, false)
    else if Next(rs).Conflict? then EnsurePdb(w, Rest(rs), app, value, tries - 1)
    else if !Next(rs).Done? then Outcome(w, Rest(rs), false)
    else if HasBudget(w, app, value) then Outcome(w, Rest(rs), true)
    else
      var rs := Rest(rs);
      if Next(rs).Conflict? then EnsurePdb(w, Rest(rs), app, value, tries - 1)
      else Outcome(if Applied(Next(rs)) then PutBudget(w, app, value) else w, Rest(rs), Next(rs).Done?)
  }

  function EnsureAll(w: World, rs: Replies, apps: seq<string>, value: int): Outcome
    decreases apps
  {
    if apps == [] then Outcome(w, rs, true)
    else
      var out := EnsurePdb(w, rs, apps[0], value, RETRY_STEPS);
      if !out.ok then out else EnsureAll(out.w, out.rs, apps[1..], value)
  }

  /** The cluster, the calls left over, and a boolean answer or an error. */
  datatype Answer = Answer(w: World, rs: Replies, r: Result<bool>)

  /** `isPDBinState`: a missing budget is created, and counts as not ready in this pass. */
  function IsPdbInState(w: World, rs: Replies, app: string, value: int): Answer {
    if !Next(rs).Done? then Answer(w, Rest(rs), Err)
    else if PdbName(app) !in w.budgets then
      var out := EnsurePdb(w, Rest(rs), app, value, RETRY_STEPS);
      Answer(out.w, out.rs, if out.ok then Ok(false) else Err)
    else Answer(w, Rest(rs), Ok(HasBudget(w, app, value)))
  }

  /** `checkAllPDBsState` over the apps of all layers in order. */
  function CheckApps(w: World, rs: Replies, apps: seq<string>, value: int): Answer
    decreases apps
  {
    if apps == [] then Answer(w, rs, Ok(true))
    else
      var a := IsPdbInState(w, rs, apps[0], value);
      if a.r != Ok(true) then a else CheckApps(a.w, a.rs, apps[1..], value)
  }

  function Flatten(layers: seq<seq<string>>): seq<string> {
    if layers == [] then [] else layers[0] + Flatten(layers[1..])
  }

  // ---------- observing pods and nodes ----------

  function AppPods(pods: seq<Pod>, app: string): (r: seq<Pod>)
    ensures forall p :: p in r <==> p in pods && "app" in p.labels && p.labels["app"] == app
  {
    if pods == [] then []
    else (if "app" in pods[0].labels && pods[0].labels["app"] == app then [pods[0]] else []) + AppPods(pods[1..], app)
  }

  function PodsOnTarget(parse: Parser, nodes: seq<Node>, pods: seq<Pod>, target: string, rs: Replies)
    : (Replies, Result<bool>)
    decreases pods
  {
    if pods == [] then (rs, Ok(true))
    else if pods[0].phase == Succeeded || pods[0].phase == Failed then PodsOnTarget(parse, nodes, pods[1..], target, rs)
    else if pods[0].phase != Running then (rs, Ok(false))
    else if !Next(rs).Done? then (Rest(rs), Err)
    else
      var node := FindNode(nodes, pods[0].nodeName);
      if node.Some? && CompareText(parse, Normalise(node.value.kubeletVersion), target) != 0 then (Rest(rs), Ok(false))
      else PodsOnTarget(parse, nodes, pods[1..], target, Rest(rs))
  }

  function IsAppOnTarget(parse: Parser, w: World, rs: Replies, app: string, target: string): (Replies, Result<bool>) {
    if !Next(rs).Done? then (Rest(rs), Err)
    else PodsOnTarget(parse, w.nodes, AppPods(w.pods, app), target, Rest(rs))
  }

  function Observed(w: World, app: string, version: string): World {
    w.(log := w.log + [SeenOnTarget(app, version)])
  }

  function AllOnTarget(parse: Parser, w: World, rs: Replies, apps: seq<string>, target: string): Answer
    decreases apps
  {
    if apps == [] then Answer(w, rs, Ok(true))
    else
      var (rs, migrated) := IsAppOnTarget(parse, w, rs, apps[0], target);
      if migrated != Ok(true) then Answer(w, rs, migrated)
      else AllOnTarget(parse, Observed(w, apps[0], target), rs, apps[1..], target)
  }

  /** The readable versions of the nodes, each once, in node order. */
  function NodeVersions(parse: Parser, nodes: seq<Node>): seq<string> {
    if nodes == [] then []
    else
      var vs := NodeVersions(parse, nodes[..|nodes|-1]);
      var v := Normalise(nodes[|nodes|-1].kubeletVersion);
      if v in vs || parse(v).None? then vs else vs + [v]
  }

  /** The target version, empty while no second version is visible, and whether an upgrade runs. */
  datatype Target = Target(version: string, inProgress: bool)

  function FindTarget(parse: Parser, nodes: seq<Node>, rs: Replies): (Replies, Result<Target>) {
    if !Next(rs).Done? || nodes == [] then (Rest(rs), Err)
    else
      var vs := NodeVersions(parse, nodes);
      var unschedulable := exists n :: n in nodes && n.unschedulable;
      if vs == [] then (Rest(rs), Err)
      else if |vs| > 1 then (Rest(rs), Ok(Target(Greatest(parse, vs), true)))
      else (Rest(rs), Ok(Target("", unschedulable)))
  }

  // ---------- the four phases ----------

  function SetPhase(w: World, rs: Replies, phase: Phase, layer: nat): Outcome {
    Outcome(if Applied(Next(rs)) then w.(phase := phase, currentLayer := layer, log := w.log + [PhaseSet(phase, layer)])
            else w,
            Rest(rs), Next(rs).Done?)
  }

  function ReconcileInitializing(w: World, rs: Replies, layers: seq<seq<string>>): World {
    var a := CheckApps(w, rs, Flatten(layers), 0);
    if a.r != Ok(true) then a.w else SetPhase(a.w, a.rs, Idle, a.w.currentLayer).w
  }

  function ReconcileIdle(parse: Parser, w: World, rs: Replies, layers: seq<seq<string>>): World {
    var a := CheckApps(w, rs, Flatten(layers), 0);
    if a.r.Err? then a.w
    else if a.r == Ok(false) then SetPhase(a.w, a.rs, Initializing, a.w.currentLayer).w
    else
      var (rs, t) := FindTarget(parse, a.w.nodes, a.rs);
      if t.Ok? && t.value.inProgress then SetPhase(a.w, rs, Upgrading, 0).w else a.w
  }

  /** The body of `reconcileUpgrading` for one layer: open it, look, and close it again once all of it has moved. */
  function ProcessLayer(parse: Parser, w: World, rs: Replies, apps: seq<string>, target: string): World {
    var raised := EnsureAll(w, rs, apps, 1);
    if !raised.ok then raised.w
    else
      var a := AllOnTarget(parse, raised.w, raised.rs, apps, target);
      if a.r != Ok(true) then a.w
      else
        var closed := EnsureAll(a.w, a.rs, apps, 0);
        if !closed.ok then closed.w
        else SetPhase(closed.w, closed.rs, Upgrading, closed.w.currentLayer + 1).w
  }

  function ReconcileUpgrading(parse: Parser, w: World, rs: Replies, layers: seq<seq<string>>): World {
    var (rs, t) := FindTarget(parse, w.nodes, rs);
    if t.Err? then w
    else if !t.value.inProgress then SetPhase(w, rs, Idle, 0).w
    else if t.value.version == "" then w
    else if w.currentLayer >= |layers| then SetPhase(w, rs, Completed, w.currentLayer).w
    else ProcessLayer(parse, w, rs, layers[w.currentLayer], t.value.version)
  }

  function ReconcileCompleted(parse: Parser, w: World, rs: Replies): World {
    var (rs, t) := FindTarget(parse, w.nodes, rs);
    if t.Err? || t.value.inProgress then w else SetPhase(w, rs, Idle, 0).w
  }

  ghost function Reconcile(c: Config, w: World, rs: Replies): World {
    if !Next(rs).Done? then w
    else if w.phase == NoPhase then SetPhase(w, Rest(rs), Initializing, 0).w
    else
      var layers := Build(c.plan);
      if layers.Err? then w
      else
        match w.phase
        case Initializing => ReconcileInitializing(w, Rest(rs), layers.value)
        case Idle => ReconcileIdle(c.parse, w, Rest(rs), layers.value)
        case Upgrading => ReconcileUpgrading(c.parse, w, Rest(rs), layers.value)
        case Completed => ReconcileCompleted(c.parse, w, Rest(rs))
        case _ => w
  }
}
