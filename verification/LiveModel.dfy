/**
 What one reconcile pass of the live controller does, as a function of the cluster and of
 the outcomes of its API calls. Reading functions return only the calls left over and an
 answer, so they cannot change the cluster.
 */
module LiveModel {
  import opened Common
  import opened Api
  import opened PdbCodec
  import opened DependencyGraph
  import opened SemVer

  const TAINT_KEY := "upgrade-orchestrator/status"
  const TAINT_VALUE := "upgrading"
  const NO_SCHEDULE := "NoSchedule"
  const CORDON_KEY := "node.kubernetes.io/unschedulable"
  const NODE_LABEL := "upgrade-orchestrator/target-version"
  const ORIGINAL_SPEC := "upgrade.nachoperator.io/original-pdb-spec"
  const MANAGED_BY := "upgrade.nachoperator.io/managed-by"
  const CONFIRMATION_TIMEOUT := 5 * 60

  // ---------- the cluster ----------

  /** An annotation value: text that is not JSON, or a JSON document. */
  datatype Annotation = Plain(text: string) | Saved(doc: Json)

  datatype Pdb = Pdb(name: string, annotations: map<string, Annotation>, spec: PdbSpec)

  datatype Kind = StatefulSet | PlainDeployment

  datatype Key = Key(kind: Kind, name: string)

  /** `labels` and `tolerations` are those of the pod template. */
  datatype Workload = Workload(selector: Option<LabelSelector>, labels: Labels, tolerations: seq<Toleration>)

  datatype State = Unset | NoUpgrade | AwaitingUpgradeConfirmation | UpgradeInProgress | UnknownState

  /** Status fields, and the `last-known-state` annotation. */
  datatype Orchestrator = Orchestrator(
    state: State, targetVersion: string, lastTransition: int, lastKnown: Option<State>)

  /** Everything on the API server, and the clock in seconds. */
  datatype World = World(
    stored: Orchestrator, nodes: seq<Node>, pods: seq<Pod>, pdbs: seq<Pdb>,
    workloads: map<Key, Workload>, now: int)

  /**
   `refreshes` says whether `client.Update` overwrites the caller's copy with the stored
   object, status included, as it does when status is a subresource.
   */
  datatype Config = Config(plan: Plan, parse: Parser, refreshes: bool)

  /** The cluster, the calls left over, and whether the operation returned no error. */
  datatype Outcome = Outcome(w: World, rs: Replies, ok: bool)

  // ---------- reading workloads and pods ----------

  /** A StatefulSet of that name, or else a Deployment; any failed `Get` counts as absent. */
  function GetWorkload(w: World, rs: Replies, name: string): (r: (Replies, Option<Key>))
    ensures r.1.Some? ==> r.1.value in w.workloads && r.1.value.name == name
  {
    var ss, dep := Key(StatefulSet, name), Key(PlainDeployment, name);
    if Next(rs).Done? && ss in w.workloads then (Rest(rs), Some(ss))
    else
      var rs := Rest(rs);
      (Rest(rs), if Next(rs).Done? && dep in w.workloads then Some(dep) else None)
  }

  function SelectedPods(pods: seq<Pod>, selector: Option<LabelSelector>): (r: seq<Pod>)
    ensures forall p :: p in r <==> p in pods && Matches(selector, p.labels)
  {
    if pods == [] then []
    else (if Matches(selector, pods[0].labels) then [pods[0]] else []) + SelectedPods(pods[1..], selector)
  }

  function PodsOnTarget(nodes: seq<Node>, pods: seq<Pod>, target: string, rs: Replies): (Replies, Result<bool>) {
    if pods == [] then (rs, Ok(true))
    else if pods[0].nodeName == "" then (rs, Ok(false))
    else
      var node := FindNode(nodes, pods[0].nodeName);
      if !Next(rs).Done? || node.None? then (Rest(rs), Err)
      else if node.value.kubeletVersion != target then (Rest(rs), Ok(false))
      else PodsOnTarget(nodes, pods[1..], target, Rest(rs))
  }

  function IsWorkloadMigrated(w: World, rs: Replies, name: string, target: string): (Replies, Result<bool>) {
    var (rs, key) := GetWorkload(w, rs, name);
    if key.None? then (rs, Err)
    else
      var selector := w.workloads[key.value].selector;
      if !ValidSelector(selector) then (rs, Err)
      else if !Next(rs).Done? then (Rest(rs), Err)
      else PodsOnTarget(w.nodes, SelectedPods(w.pods, selector), target, Rest(rs))
  }

  /** The loop shared by `dependenciesMet` and `areAllWorkloadsMigrated`. */
  function AllMigrated(w: World, rs: Replies, names: seq<string>, target: string): (Replies, Result<bool>)
    decreases names
  {
    if names == [] then (rs, Ok(true))
    else
      var (rs, migrated) := IsWorkloadMigrated(w, rs, names[0], target);
      if migrated != Ok(true) then (rs, migrated) else AllMigrated(w, rs, names[1..], target)
  }

  function DependenciesMet(w: World, rs: Replies, deps: seq<string>): (Replies, Result<bool>) {
    if deps == [] then (rs, Ok(true))
    else if w.stored.targetVersion == "" then (rs, Err)
    else AllMigrated(w, rs, deps, w.stored.targetVersion)
  }

  // ---------- budgets ----------

  function BlockerName(workload: string): string {
    "upgrade-blocker-" + workload
  }

  predicate UserManaged(p: Pdb) {
    MANAGED_BY !in p.annotations
  }

  predicate Guards(p: Pdb, labels: Labels) {
    UserManaged(p) && ValidSelector(p.spec.selector) && Matches(p.spec.selector, labels)
  }

  function FirstGuard(pdbs: seq<Pdb>, labels: Labels, i: nat): (r: Option<nat>)
    requires i <= |pdbs|
    ensures r.Some? ==> i <= r.value < |pdbs| && Guards(pdbs[r.value], labels)
                        && forall j :: i <= j < r.value ==> !Guards(pdbs[j], labels)
    ensures r.None? ==> forall j :: i <= j < |pdbs| ==> !Guards(pdbs[j], labels)
    decreases |pdbs| - i
  {
    if i == |pdbs| then None
    else if Guards(pdbs[i], labels) then Some(i)
    else FirstGuard(pdbs, labels, i+1)
  }

  /** The first budget not made by the operator whose selector matches the workload's pods. */
  function FindUserPdb(pdbs: seq<Pdb>, wl: Workload): (r: Option<nat>)
    ensures r.Some? ==> r.value < |pdbs|
  {
    if wl.labels == map[] then None else FirstGuard(pdbs, wl.labels, 0)
  }

  function FindPdb(pdbs: seq<Pdb>, name: string): (r: Option<nat>)
    ensures r.Some? ==> r.value < |pdbs| && pdbs[r.value].name == name
                        && forall j :: 0 <= j < r.value ==> pdbs[j].name != name
    ensures r.None? ==> forall j :: 0 <= j < |pdbs| ==> pdbs[j].name != name
  {
    FirstNamed(pdbs, (p: Pdb) => p.name, name, 0)
  }

  /** The spec saved in the budget's annotation and put back, with the annotation gone. */
  function Restored(p: Pdb): Option<Pdb>
    requires ORIGINAL_SPEC in p.annotations
  {
    match p.annotations[ORIGINAL_SPEC]
    case Plain(_) => None
    case Saved(doc) =>
      match Unmarshal(doc)
      case Err => None
      case Ok(spec) => Some(p.(spec := spec, annotations := p.annotations - {ORIGINAL_SPEC}))
  }

  /** The user's budget with its spec saved and no disruption allowed. */
  function Locked(p: Pdb): Pdb {
    p.(annotations := p.annotations[ORIGINAL_SPEC := Saved(Marshal(p.spec))],
       spec := p.spec.(maxUnavailable := Some(Int(0)), minAvailable := None))
  }

  function NewBlocker(workload: string, selector: Option<LabelSelector>): Pdb {
    Pdb(BlockerName(workload), map[MANAGED_BY := Plain("upgrade-orchestrator")],
        PdbSpec(None, selector, Some(Int(0)), None))
  }

  /** What `reconcilePDB` decides to do after its two reads. */
  datatype Intent = Keep | BadAnnotation | Write(pdbs: seq<Pdb>)

  function UnblockIntent(pdbs: seq<Pdb>, name: string, wl: Workload): Intent {
    var user, own := FindUserPdb(pdbs, wl), FindPdb(pdbs, BlockerName(name));
    if user.Some? && ORIGINAL_SPEC in pdbs[user.value].annotations then
      match Restored(pdbs[user.value])
      case None => BadAnnotation
      case Some(p) => Write(pdbs[user.value := p])
    else if own.Some? then Write(pdbs[..own.value] + pdbs[own.value+1..])
    else Keep
  }

  function BlockIntent(pdbs: seq<Pdb>, name: string, wl: Workload): Intent {
    var user, own := FindUserPdb(pdbs, wl), FindPdb(pdbs, BlockerName(name));
    if user.Some? then
      if ORIGINAL_SPEC in pdbs[user.value].annotations then Keep
      else Write(pdbs[user.value := Locked(pdbs[user.value])])
    else if own.Some? then Keep
    else Write(pdbs + [NewBlocker(name, wl.selector)])
  }

  function ReconcilePdb(w: World, rs: Replies, key: Key, allowDisruption: bool): (out: Outcome)
    requires key in w.workloads
    ensures out.w == w.(pdbs := out.w.pdbs)
  {
    if !Next(rs).Done? then Outcome(w, Rest(rs), false)
    else
      var rs := Rest(rs);
      if !Next(rs).Done? then Outcome(w, Rest(rs), false)
      else
        var rs := Rest(rs);
        match (if allowDisruption then UnblockIntent(w.pdbs, key.name, w.workloads[key])
               else BlockIntent(w.pdbs, key.name, w.workloads[key]))
        case Keep => Outcome(w, rs, true)
        case BadAnnotation => Outcome(w, rs, false)
        case Write(pdbs) =>
          Outcome(if Applied(Next(rs)) then w.(pdbs := pdbs) else w, Rest(rs), Next(rs).Done?)
  }

  // ---------- nodes and tolerations ----------

  const UPGRADE_TAINT := Taint(TAINT_KEY, TAINT_VALUE, NO_SCHEDULE)
  const UPGRADE_TOLERATION := Toleration(TAINT_KEY, "Equal", TAINT_VALUE, NO_SCHEDULE, None)

  /** `Taint.MatchTaint`: same key and effect. */
  predicate HasUpgradeTaint(n: Node) {
    exists t :: t in n.taints && t.key == TAINT_KEY && t.effect == NO_SCHEDULE
  }

  function Prepared(n: Node, target: string): Node {
    n.(labels := n.labels[NODE_LABEL := target],
       taints := if HasUpgradeTaint(n) then n.taints else n.taints + [UPGRADE_TAINT])
  }

  function PrepareFrom(w: World, rs: Replies, target: string, i: nat): Outcome
    requires i <= |w.nodes|
    decreases |w.nodes| - i
  {
    if i == |w.nodes| then Outcome(w, rs, true)
    else if w.nodes[i].kubeletVersion != target then PrepareFrom(w, rs, target, i+1)
    else
      var w' := if Applied(Next(rs)) then w.(nodes := w.nodes[i := Prepared(w.nodes[i], target)]) else w;
      if Next(rs).Done? then PrepareFrom(w', Rest(rs), target, i+1) else Outcome(w', Rest(rs), false)
  }

  function PrepareNodes(w: World, rs: Replies, target: string): Outcome {
    if Next(rs).Done? then PrepareFrom(w, Rest(rs), target, 0) else Outcome(w, Rest(rs), false)
  }

  function WithTolerations(w: World, key: Key, tolerations: seq<Toleration>): World
    requires key in w.workloads
  {
    w.(workloads := w.workloads[key := w.workloads[key].(tolerations := tolerations)])
  }

  function AddToleration(w: World, rs: Replies, name: string): Outcome {
    var (rs, key) := GetWorkload(w, rs, name);
    if key.None? then Outcome(w, rs, false)
    else
      var ts := w.workloads[key.value].tolerations;
      if UPGRADE_TOLERATION in ts then Outcome(w, rs, true)
      else Outcome(if Applied(Next(rs)) then WithTolerations(w, key.value, ts + [UPGRADE_TOLERATION]) else w,
                   Rest(rs), Next(rs).Done?)
  }

  // ---------- the plan loops ----------

  /**
   One entry of the plan loop of `handleUpgradeInProgressState`: unblock and tolerate a workload
   whose dependencies are met.
   */
  function GrantEntry(w: World, rs: Replies, e: Deployment): (World, Replies) {
    var (rs, key) := GetWorkload(w, rs, e.name);
    if key.None? then (w, rs)
    else
      var (rs, met) := DependenciesMet(w, rs, e.dependsOn);
      if met != Ok(true) then (w, rs)
      else
        var out := ReconcilePdb(w, rs, key.value, true);
        if !out.ok then (out.w, out.rs)
        else
          var out := AddToleration(out.w, out.rs, e.name);
          (out.w, out.rs)
  }

  function GrantAll(w: World, rs: Replies, plan: Plan): (World, Replies)
    decreases plan
  {
    if plan == [] then (w, rs)
    else
      var (w, rs) := GrantEntry(w, rs, plan[0]);
      GrantAll(w, rs, plan[1..])
  }

  /** `setInitialPDBState`: errors are logged, never returned. */
  function LockEntry(w: World, rs: Replies, e: Deployment): (World, Replies) {
    var (rs, key) := GetWorkload(w, rs, e.name);
    if key.None? then (w, rs)
    else
      var out := ReconcilePdb(w, rs, key.value, e.dependsOn == []);
      (out.w, out.rs)
  }

  function SetInitialPdbState(w: World, rs: Replies, plan: Plan): (World, Replies)
    decreases plan
  {
    if plan == [] then (w, rs)
    else
      var (w, rs) := LockEntry(w, rs, plan[0]);
      SetInitialPdbState(w, rs, plan[1..])
  }

  // ---------- cleanup ----------

  function StripTaints(taints: seq<Taint>): seq<Taint> {
    if taints == [] then []
    else StripTaints(taints[..|taints|-1]) +
         if taints[|taints|-1].key == TAINT_KEY then [] else [taints[|taints|-1]]
  }

  function StripTolerations(ts: seq<Toleration>): seq<Toleration> {
    if ts == [] then []
    else StripTolerations(ts[..|ts|-1]) + if ts[|ts|-1].key == TAINT_KEY then [] else [ts[|ts|-1]]
  }

  function UntaintFrom(w: World, rs: Replies, i: nat): (World, Replies)
    requires i <= |w.nodes|
    decreases |w.nodes| - i
  {
    if i == |w.nodes| then (w, rs)
    else
      var n := w.nodes[i];
      if forall t :: t in n.taints ==> t.key != TAINT_KEY then UntaintFrom(w, rs, i+1)
      else
        var w' := if Applied(Next(rs)) then w.(nodes := w.nodes[i := n.(taints := StripTaints(n.taints))]) else w;
        UntaintFrom(w', Rest(rs), i+1)
  }

  function CleanupEntry(w: World, rs: Replies, e: Deployment): (World, Replies) {
    var (rs, key) := GetWorkload(w, rs, e.name);
    if key.None? then (w, rs)
    else
      var out := ReconcilePdb(w, rs, key.value, true);
      var ts := w.workloads[key.value].tolerations;
      if forall t :: t in ts ==> t.key != TAINT_KEY then (out.w, out.rs)
      else
        var w' := if Applied(Next(out.rs)) then WithTolerations(out.w, key.value, StripTolerations(ts)) else out.w;
        (w', Rest(out.rs))
  }

  function CleanupAll(w: World, rs: Replies, plan: Plan): (World, Replies)
    decreases plan
  {
    if plan == [] then (w, rs)
    else
      var (w, rs) := CleanupEntry(w, rs, plan[0]);
      CleanupAll(w, rs, plan[1..])
  }

  function Cleanup(w: World, rs: Replies, plan: Plan): Outcome {
    if !Next(rs).Done? then Outcome(w, Rest(rs), false)
    else
      var (w, rs) := UntaintFrom(w, Rest(rs), 0);
      var (w, rs) := CleanupAll(w, rs, plan);
      Outcome(w, rs, true)
  }

  // ---------- the orchestrator object ----------

  function StatusUpdate(w: World, rs: Replies, o: Orchestrator): Outcome {
    Outcome(if Applied(Next(rs)) then w.(stored := o.(lastKnown := w.stored.lastKnown)) else w,
            Rest(rs), Next(rs).Done?)
  }

  /** `client.Update`: only the annotation is written. */
  function MetaUpdate(w: World, rs: Replies, o: Orchestrator): Outcome {
    Outcome(if Applied(Next(rs)) then w.(stored := w.stored.(lastKnown := o.lastKnown)) else w,
            Rest(rs), Next(rs).Done?)
  }

  // ---------- the state machine ----------

  ghost function Versions(nodes: seq<Node>): set<string> {
    set n | n in nodes :: n.kubeletVersion
  }

  predicate Cordoned(nodes: seq<Node>) {
    exists n, t :: n in nodes && t in n.taints && t.key == CORDON_KEY && t.effect == NO_SCHEDULE
  }

  function PlanNames(plan: Plan): seq<string> {
    seq(|plan|, i requires 0 <= i < |plan| => plan[i].name)
  }

  function CordonCheck(w: World, rs: Replies): (World, Replies) {
    if !Next(rs).Done? then (w, Rest(rs))
    else if Cordoned(w.nodes) then
      var out := StatusUpdate(w, Rest(rs), w.stored.(state := AwaitingUpgradeConfirmation, lastTransition := w.now));
      (out.w, out.rs)
    else (w, Rest(rs))
  }

  /** `vs` is the order in which Go's map iteration yields the node versions. */
  function HandleNoUpgrade(c: Config, w: World, rs: Replies, vs: seq<string>): (World, Replies) {
    if w.stored.lastKnown != Some(UpgradeInProgress) then CordonCheck(w, rs)
    else if !Next(rs).Done? || |vs| != 1 then (w, Rest(rs))
    else
      var (rs, all) := AllMigrated(w, Rest(rs), PlanNames(c.plan), vs[0]);
      if all != Ok(true) then CordonCheck(w, rs)
      else
        var out := Cleanup(w, rs, c.plan);
        if !out.ok then (out.w, out.rs)
        else
          var out := MetaUpdate(out.w, out.rs, w.stored.(lastKnown := None));
          (out.w, out.rs)
  }

  function HandleAwaiting(c: Config, w: World, rs: Replies, vs: seq<string>): (World, Replies) {
    if w.now - w.stored.lastTransition > CONFIRMATION_TIMEOUT then
      var out := StatusUpdate(w, rs, w.stored.(state := NoUpgrade, lastTransition := w.now));
      (out.w, out.rs)
    else if !Next(rs).Done? || |vs| != 2 then (w, Rest(rs))
    else
      var (w, rs) := SetInitialPdbState(w, Rest(rs), c.plan);
      var o := w.stored.(state := UpgradeInProgress, lastTransition := w.now, lastKnown := Some(UpgradeInProgress));
      var out := MetaUpdate(w, rs, o);
      if !out.ok then (out.w, out.rs)
      else
        var out := StatusUpdate(out.w, out.rs, if c.refreshes then out.w.stored else o);
        (out.w, out.rs)
  }

  function HandleInProgress(c: Config, w: World, rs: Replies, vs: seq<string>): (World, Replies) {
    if !Next(rs).Done? || |vs| < 2 then (w, Rest(rs))
    else
      var rs := Rest(rs);
      match DetermineTarget(c.parse, vs)
      case Err => (w, rs)
      case Ok(target) =>
        var out := if w.stored.targetVersion == target then Outcome(w, rs, true)
                   else StatusUpdate(w, rs, w.stored.(targetVersion := target));
        if !out.ok then (out.w, out.rs)
        else
          var out := PrepareNodes(out.w, out.rs, target);
          if !out.ok then (out.w, out.rs) else GrantAll(out.w, out.rs, c.plan)
  }

  function Reconcile(c: Config, w: World, rs: Replies, vs: seq<string>): (World, Replies) {
    if !Next(rs).Done? then (w, Rest(rs))
    else
      var rs := Rest(rs);
      match w.stored.state
      case NoUpgrade => HandleNoUpgrade(c, w, rs, vs)
      case AwaitingUpgradeConfirmation => HandleAwaiting(c, w, rs, vs)
      case UpgradeInProgress => HandleInProgress(c, w, rs, vs)
      case UnknownState => (w, rs)
      case Unset =>
        var out := StatusUpdate(w, rs, w.stored.(state := NoUpgrade, lastTransition := w.now));
        if !out.ok then (out.w, out.rs) else HandleNoUpgrade(c, out.w, out.rs, vs)
  }
}
