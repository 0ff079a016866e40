/**
 The budget spec that the live controller stores in an annotation, as the JSON value that
 `json.Marshal` writes and `json.Unmarshal` reads. The text form of JSON is not modelled.
 */
module PdbCodec {
  import opened Common
  import opened Api

  datatype Json = Number(n: int) | Str(s: string) | Arr(items: seq<Json>) | Obj(fields: map<string, Json>)

  datatype PdbSpec = PdbSpec(
    minAvailable: Option<IntOrString>,
    selector: Option<LabelSelector>,
    maxUnavailable: Option<IntOrString>,
    unhealthyPodEvictionPolicy: Option<string>)

  // ---------- marshalling, with `omitempty` on every field ----------

  function Field(key: string, v: Option<Json>): map<string, Json> {
    match v
    case None => map[]
    case Some(j) => map[key := j]
  }

  function MapOption<A, B>(f: A -> B, x: Option<A>): Option<B> {
    match x
    case None => None
    case Some(a) => Some(f(a))
  }

  function FromIntOrString(x: IntOrString): Json {
    match x
    case Int(i) => Number(i)
    case Text(s) => Str(s)
  }

  function FromLabels(labels: Labels): Json {
    Obj(map k | k in labels :: Str(labels[k]))
  }

  function FromStrings(ss: seq<string>): Json {
    Arr(seq(|ss|, i requires 0 <= i < |ss| => Str(ss[i])))
  }

  function FromRequirement(q: Requirement): Json {
    Obj(map["key" := Str(q.key), "operator" := Str(q.operator)]
      + Field("values", if q.values == [] then None else Some(FromStrings(q.values))))
  }

  function FromRequirements(qs: seq<Requirement>): Json {
    Arr(seq(|qs|, i requires 0 <= i < |qs| => FromRequirement(qs[i])))
  }

  function FromSelector(s: LabelSelector): Json {
    Obj(Field("matchLabels", if s.matchLabels == map[] then None else Some(FromLabels(s.matchLabels)))
      + Field("matchExpressions",
              if s.matchExpressions == [] then None else Some(FromRequirements(s.matchExpressions))))
  }

  function Marshal(spec: PdbSpec): Json {
    Obj(Field("minAvailable", MapOption(FromIntOrString, spec.minAvailable))
      + Field("selector", MapOption(FromSelector, spec.selector))
      + Field("maxUnavailable", MapOption(FromIntOrString, spec.maxUnavailable))
      + Field("unhealthyPodEvictionPolicy", MapOption(s => Str(s), spec.unhealthyPodEvictionPolicy)))
  }

  // ---------- unmarshalling ----------

  /** An absent field leaves its default; a field of the wrong type is an error. */
  function Member<A>(fields: map<string, Json>, key: string, read: Json -> Result<A>): Result<Option<A>> {
    if key !in fields then Ok(None)
    else match read(fields[key])
         case Err => Err
         case Ok(a) => Ok(Some(a))
  }

  function ToIntOrString(j: Json): Result<IntOrString> {
    match j
    case Number(n) => Ok(Int(n))
    case Str(s) => Ok(Text(s))
    case _ => Err
  }

  function ToStr(j: Json): Result<string> {
    if j.Str? then Ok(j.s) else Err
  }

  function ToLabels(j: Json): Result<Labels> {
    if j.Obj? && forall k :: k in j.fields ==> j.fields[k].Str?
    then Ok(map k | k in j.fields :: j.fields[k].s)
    else Err
  }

  function ToStrings(j: Json): Result<seq<string>> {
    if j.Arr? && forall i :: 0 <= i < |j.items| ==> j.items[i].Str?
    then Ok(seq(|j.items|, i requires 0 <= i < |j.items| && j.items[i].Str? => j.items[i].s))
    else Err
  }

  function ToRequirement(j: Json): Result<Requirement> {
    if !j.Obj? then Err
    else
      match (Member(j.fields, "key", ToStr), Member(j.fields, "operator", ToStr), Member(j.fields, "values", ToStrings))
      case (Ok(k), Ok(op), Ok(vs)) => Ok(Requirement(Or(k, ""), Or(op, ""), Or(vs, [])))
      case _ => Err
  }

  function Or<A>(x: Option<A>, default: A): A {
    if x.Some? then x.value else default
  }

  function ReadAll(js: seq<Json>): Result<seq<Requirement>> {
    if js == [] then Ok([])
    else
      match (ReadAll(js[..|js|-1]), ToRequirement(js[|js|-1]))
      case (Ok(qs), Ok(q)) => Ok(qs + [q])
      case _ => Err
  }

  function ToRequirements(j: Json): Result<seq<Requirement>> {
    if j.Arr? then ReadAll(j.items) else Err
  }

  function ToSelector(j: Json): Result<LabelSelector> {
    if !j.Obj? then Err
    else
      match (Member(j.fields, "matchLabels", ToLabels), Member(j.fields, "matchExpressions", ToRequirements))
      case (Ok(ls), Ok(qs)) => Ok(LabelSelector(Or(ls, map[]), Or(qs, [])))
      case _ => Err
  }

  function Unmarshal(j: Json): Result<PdbSpec> {
    if !j.Obj? then Err
    else
      match (Member(j.fields, "minAvailable", ToIntOrString), Member(j.fields, "selector", ToSelector),
             Member(j.fields, "maxUnavailable", ToIntOrString),
             Member(j.fields, "unhealthyPodEvictionPolicy", ToStr))
      case (Ok(mi), Ok(s), Ok(ma), Ok(u)) => Ok(PdbSpec(mi, s, ma, u))
      case _ => Err
  }

  // ---------- nothing is lost ----------

  lemma LabelsRoundTrip(labels: Labels)
    ensures ToLabels(FromLabels(labels)) == Ok(labels)
  {
    assert ToLabels(FromLabels(labels)).value == labels;
  }

  lemma StringsRoundTrip(ss: seq<string>)
    ensures ToStrings(FromStrings(ss)) == Ok(ss)
  {
    assert ToStrings(FromStrings(ss)).value == ss;
  }

  lemma RequirementRoundTrip(q: Requirement)
    ensures ToRequirement(FromRequirement(q)) == Ok(q)
  {
    StringsRoundTrip(q.values);
  }

  lemma {:induction false} RequirementsRoundTrip(qs: seq<Requirement>)
    ensures ToRequirements(FromRequirements(qs)) == Ok(qs)
  {
    var js := FromRequirements(qs).items;
    if qs != [] {
      var b := qs[..|qs|-1];
      RequirementsRoundTrip(b);
      RequirementRoundTrip(qs[|qs|-1]);
      assert js[..|js|-1] == FromRequirements(b).items;
      assert qs == b + [qs[|qs|-1]];
    }
  }

  lemma SelectorRoundTrip(s: LabelSelector)
    ensures ToSelector(FromSelector(s)) == Ok(s)
  {
    LabelsRoundTrip(s.matchLabels);
    RequirementsRoundTrip(s.matchExpressions);
  }

  lemma IntOrStringRoundTrip(x: IntOrString)
    ensures ToIntOrString(FromIntOrString(x)) == Ok(x)
  {}

  lemma KeysDiffer()
    ensures "minAvailable" != "selector" && "minAvailable" != "maxUnavailable"
    ensures "minAvailable" != "unhealthyPodEvictionPolicy" && "selector" != "maxUnavailable"
    ensures "selector" != "unhealthyPodEvictionPolicy" && "maxUnavailable" != "unhealthyPodEvictionPolicy"
  {
    assert |"minAvailable"| == 12 && |"selector"| == 8 && |"maxUnavailable"| == 14;
    assert |"unhealthyPodEvictionPolicy"| == 26;
  }

  /** Four optional fields under different keys can be looked up independently. */
  lemma FieldLookup(a: string, b: string, c: string, d: string,
                    x: Option<Json>, y: Option<Json>, z: Option<Json>, w: Option<Json>)
    requires a != b && a != c && a != d && b != c && b != d && c != d
    ensures var m := Field(a, x) + Field(b, y) + Field(c, z) + Field(d, w);
            && (a in m <==> x.Some?) && (x.Some? ==> m[a] == x.value)
            && (b in m <==> y.Some?) && (y.Some? ==> m[b] == y.value)
            && (c in m <==> z.Some?) && (z.Some? ==> m[c] == z.value)
            && (d in m <==> w.Some?) && (w.Some? ==> m[d] == w.value)
  {}

  /** Whatever spec is saved, restoring it gives the same spec. */
  lemma SpecRoundTrip(spec: PdbSpec)
    ensures Unmarshal(Marshal(spec)) == Ok(spec)
  {
    hide Field, FromSelector, ToSelector, FromIntOrString, ToIntOrString;
    KeysDiffer();
    FieldLookup("minAvailable", "selector", "maxUnavailable", "unhealthyPodEvictionPolicy",
                MapOption(FromIntOrString, spec.minAvailable), MapOption(FromSelector, spec.selector),
                MapOption(FromIntOrString, spec.maxUnavailable),
                MapOption(s => Str(s), spec.unhealthyPodEvictionPolicy));
    if spec.selector.Some? {
      SelectorRoundTrip(spec.selector.value);
    }
    if spec.minAvailable.Some? {
      IntOrStringRoundTrip(spec.minAvailable.value);
    }
    if spec.maxUnavailable.Some? {
      IntOrStringRoundTrip(spec.maxUnavailable.value);
    }
  }

  // ---------- what can be read ----------

  predicate IsStrings(j: Json) {
    j.Arr? && forall i :: 0 <= i < |j.items| ==> j.items[i].Str?
  }

  predicate IsRequirement(j: Json) {
    && j.Obj?
    && ("key" in j.fields ==> j.fields["key"].Str?)
    && ("operator" in j.fields ==> j.fields["operator"].Str?)
    && ("values" in j.fields ==> IsStrings(j.fields["values"]))
  }

  predicate IsSelector(j: Json) {
    && j.Obj?
    && ("matchLabels" in j.fields ==>
          j.fields["matchLabels"].Obj? && forall v :: v in j.fields["matchLabels"].fields.Values ==> v.Str?)
    && ("matchExpressions" in j.fields ==>
          && j.fields["matchExpressions"].Arr?
          && forall q :: q in j.fields["matchExpressions"].items ==> IsRequirement(q))
  }

  predicate IsNumberOrText(j: Json) {
    j.Number? || j.Str?
  }

  /** A budget spec can be read from a document exactly if every field that is there has its type. */
  lemma UnmarshalIff(j: Json)
    ensures Unmarshal(j).Ok?
       <==> && j.Obj?
            && ("minAvailable" in j.fields ==> IsNumberOrText(j.fields["minAvailable"]))
            && ("selector" in j.fields ==> IsSelector(j.fields["selector"]))
            && ("maxUnavailable" in j.fields ==> IsNumberOrText(j.fields["maxUnavailable"]))
            && ("unhealthyPodEvictionPolicy" in j.fields ==> j.fields["unhealthyPodEvictionPolicy"].Str?)
  {
    if j.Obj? && "selector" in j.fields {
      SelectorIff(j.fields["selector"]);
    }
    hide ToSelector, IsSelector;
  }

  lemma SelectorIff(j: Json)
    ensures ToSelector(j).Ok? <==> IsSelector(j)
  {
    if j.Obj? && "matchLabels" in j.fields && j.fields["matchLabels"].Obj? {
      var fields := j.fields["matchLabels"].fields;
      assert forall k :: k in fields ==> fields[k] in fields.Values;
    }
    if j.Obj? && "matchExpressions" in j.fields && j.fields["matchExpressions"].Arr? {
      ReadAllIff(j.fields["matchExpressions"].items);
    }
    hide ReadAll, IsRequirement;
  }

  lemma {:induction false} ReadAllIff(js: seq<Json>)
    ensures ReadAll(js).Ok? <==> forall q :: q in js ==> IsRequirement(q)
  {
    if js != [] {
      var init, last := js[..|js|-1], js[|js|-1];
      ReadAllIff(init);
      assert js == init + [last];
      assert ToRequirement(last).Ok? <==> IsRequirement(last);
      hide ToRequirement, IsRequirement;
    }
  }
}
