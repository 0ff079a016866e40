/**
 The part of the Kubernetes API both controllers use: nodes, pods, label selectors and the
 outcome of one API call. Objects outside the orchestrator's namespace are not modelled.
 */
module Api {
  import opened Common
  import opened Decimal

  /** `Lost` is a write that the server applied although the caller saw an error. */
  datatype Reply = Done | Conflict | Refused | Lost

  predicate Applied(r: Reply) {
    r.Done? || r.Lost?
  }

  /** The outcomes of the coming calls; once the list is used up every call succeeds. */
  type Replies = seq<Reply>

  function Next(rs: Replies): Reply {
    if rs == [] then Done else rs[0]
  }

  function Rest(rs: Replies): (rest: Replies)
    ensures rs == [] ==> rest == []
  {
    if rs == [] then [] else rs[1..]
  }

  /** All of the next `n` calls answer. */
  predicate Answered(rs: Replies, n: nat) {
    forall i :: 0 <= i < n && i < |rs| ==> rs[i].Done?
  }

  type Labels = map<string, string>

  datatype Taint = Taint(key: string, value: string, effect: string)

  datatype Toleration = Toleration(
    key: string, operator: string, value: string, effect: string, seconds: Option<int>)

  datatype Node = Node(name: string, kubeletVersion: string, unschedulable: bool, taints: seq<Taint>, labels: Labels)

  datatype PodPhase = Pending | Running | Succeeded | Failed | UnknownPhase

  /** An empty `nodeName` is a pod that is not scheduled yet. */
  datatype Pod = Pod(labels: Labels, nodeName: string, phase: PodPhase)

  function FindNode(nodes: seq<Node>, name: string): (r: Option<Node>)
    ensures r.Some? ==> r.value in nodes && r.value.name == name
    ensures r.None? ==> forall n :: n in nodes ==> n.name != name
  {
    if nodes == [] then None
    else if nodes[0].name == name then Some(nodes[0])
    else FindNode(nodes[1..], name)
  }

  // ---------- label selectors ----------

  datatype Requirement = Requirement(key: string, operator: string, values: seq<string>)

  datatype LabelSelector = LabelSelector(matchLabels: Labels, matchExpressions: seq<Requirement>)

  /** The operators and value counts that `metav1.LabelSelectorAsSelector` accepts. */
  predicate ValidRequirement(q: Requirement) {
    || ((q.operator == "In" || q.operator == "NotIn") && q.values != [])
    || ((q.operator == "Exists" || q.operator == "DoesNotExist") && q.values == [])
  }

  predicate ValidSelector(s: Option<LabelSelector>) {
    s.Some? ==> forall q :: q in s.value.matchExpressions ==> ValidRequirement(q)
  }

  predicate Meets(q: Requirement, labels: Labels) {
    if q.operator == "In" then q.key in labels && labels[q.key] in q.values
    else if q.operator == "NotIn" then q.key in labels ==> labels[q.key] !in q.values
    else if q.operator == "Exists" then q.key in labels
    else q.key !in labels
  }

  /** A missing selector matches nothing, an empty one everything. */
  predicate Matches(s: Option<LabelSelector>, labels: Labels) {
    && s.Some?
    && (forall k :: k in s.value.matchLabels ==> k in labels && labels[k] == s.value.matchLabels[k])
    && (forall q :: q in s.value.matchExpressions ==> Meets(q, labels))
  }

  /** A selector of labels alone selects whatever carries all of them, values included. */
  lemma LabelsMatchIff(m: Labels, labels: Labels)
    ensures Matches(Some(LabelSelector(m, [])), labels) <==> m.Items <= labels.Items
  {
    if Matches(Some(LabelSelector(m, [])), labels) {
      forall item | item in m.Items ensures item in labels.Items {
        assert item.0 in m && labels[item.0] == item.1;
      }
    }
    if m.Items <= labels.Items {
      forall k | k in m ensures k in labels && labels[k] == m[k] {
        assert (k, m[k]) in m.Items;
      }
    }
  }

  /** A selector of one requirement selects what the requirement asks for. */
  lemma OperatorLaws(key: string, values: seq<string>, labels: Labels)
    ensures Selects("In", key, values, labels) <==> exists v :: v in values && (key, v) in labels.Items
    ensures Selects("NotIn", key, values, labels) <==> !Selects("In", key, values, labels)
    ensures Selects("Exists", key, values, labels) <==> key in labels.Keys
    ensures Selects("DoesNotExist", key, values, labels) <==> key !in labels.Keys
  {
    forall op ensures Selects(op, key, values, labels) <==> Meets(Requirement(key, op, values), labels) {
      assert Requirement(key, op, values) in [Requirement(key, op, values)];
    }
    assert forall v :: (key, v) in labels.Items <==> key in labels && labels[key] == v;
  }

  ghost predicate Selects(operator: string, key: string, values: seq<string>, labels: Labels) {
    Matches(Some(LabelSelector(map[], [Requirement(key, operator, values)])), labels)
  }

  /** A selector is the conjunction of its labels and its requirements; no selector selects nothing. */
  lemma SelectorIsConjunction(s: LabelSelector, labels: Labels)
    ensures !Matches(None, labels)
    ensures Matches(Some(s), labels)
       <==> Matches(Some(LabelSelector(s.matchLabels, [])), labels)
            && forall q :: q in s.matchExpressions ==> Selects(q.operator, q.key, q.values, labels)
  {
    forall q: Requirement ensures Selects(q.operator, q.key, q.values, labels) <==> Meets(q, labels) {
      assert q in [Requirement(q.key, q.operator, q.values)];
    }
  }

  /** Which requirements the API accepts: two operators take values, two take none. */
  lemma AcceptedOperators(q: Requirement)
    ensures q.operator in {"In", "NotIn"} ==> (ValidRequirement(q) <==> |q.values| > 0)
    ensures q.operator in {"Exists", "DoesNotExist"} ==> (ValidRequirement(q) <==> |q.values| == 0)
    ensures q.operator !in {"In", "NotIn", "Exists", "DoesNotExist"} ==> !ValidRequirement(q)
    ensures ValidSelector(Some(LabelSelector(map[], [q]))) <==> ValidRequirement(q)
  {
    assert q in [q];
    assert "In" != "Exists" && "NotIn" != "Exists" && "In" != "DoesNotExist" && "NotIn" != "DoesNotExist";
  }

  /** One requirement that is not accepted makes the whole selector invalid, and nothing else does. */
  lemma ValidIffAllAccepted(s: LabelSelector)
    ensures ValidSelector(None)
    ensures ValidSelector(Some(s))
       <==> forall q :: q in s.matchExpressions ==> ValidSelector(Some(LabelSelector(map[], [q])))
  {
    forall q: Requirement ensures ValidSelector(Some(LabelSelector(map[], [q]))) <==> ValidRequirement(q) {
      assert q in [q];
    }
  }

  // ---------- budgets ----------

  datatype IntOrString = Int(i: int) | Text(s: string)

  /** `IntOrString.IntValue`; a percentage such as `50%` reads as zero. */
  function IntValue(x: IntOrString): int {
    match x
    case Int(i) => i
    case Text(s) => Atoi(s)
  }

  /** A number stands for itself, its text for the number, and other text for zero. */
  lemma IntValueMeans(i: int, n: nat, s: string)
    ensures IntValue(Int(i)) == i
    ensures IntValue(Text(Itoa(n))) == n && IntValue(Text("-" + Itoa(n))) == 0 - (n as int)
    ensures s != [] && IsDigit(s[0]) && (exists k :: 0 <= k < |s| && !IsDigit(s[k])) ==> IntValue(Text(s)) == 0
  {
    AtoiReadsItoa(n);
    if s != [] && IsDigit(s[0]) && exists k :: 0 <= k < |s| && !IsDigit(s[k]) {
      var k :| 0 <= k < |s| && !IsDigit(s[k]);
      OtherTextReadsZero(s, k);
    }
  }
}
