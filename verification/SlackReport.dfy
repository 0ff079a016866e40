/**
 The paginated Slack report. Strings are the bytes Go counts with `len`: one `char` per byte,
 multi-byte characters spelled out. Sending is an entry in the reporter's outbox; the outcome
 of sending a page is only printed by the source and has no effect.
 */
module SlackReport {
  import opened Decimal
  import opened Lexicographic

  datatype PodAccess = PodAccess(
    namespace: string, podName: string, clientType: string, groupId: string, clientId: string,
    topics: seq<string>, brokers: seq<string>, schemaRegistryUrl: string, source: string)

  const SLACK_CHAR_LIMIT := 3500
  const MAX_LEN := 0x7fff_ffff_ffff_ffff

  // ---------- formatting ----------

  function Repeat(s: string, n: nat): (r: string)
    ensures |r| == n * |s|
  {
    if n == 0 then "" else s + Repeat(s, n-1)
  }

  function Join(parts: seq<string>, sep: string): string {
    if parts == [] then ""
    else if |parts| == 1 then parts[0]
    else parts[0] + sep + Join(parts[1..], sep)
  }

  function Truncate(s: string, length: nat): (r: string)
    requires length >= 3 || |s| <= length
    ensures |r| <= length
    ensures |s| <= length ==> r == s
  {
    if |s| > length then s[..length-3] + "..." else s
  }

  function WithNA(value: string): (r: string)
    ensures r != ""
  {
    if value == "" then "N/A" else value
  }

  function Coalesce(values: seq<string>): string {
    if values == [] then "" else if values[0] != "" then values[0] else Coalesce(values[1..])
  }

  /** `%-22s: %s` for a title of at most 22 ASCII characters. */
  function Row(title: string, value: string): (r: string)
    requires |title| <= 22
    ensures |r| >= 25
  {
    title + Repeat(" ", 22 - |title|) + ": " + WithNA(value)
  }

  function FormatDetails(pod: PodAccess): (r: string)
    ensures |r| >= 150
  {
    Row("Type", pod.clientType) + "\n"
    + Row("Group/Client ID", Coalesce([pod.groupId, pod.clientId])) + "\n"
    + Row("Topics", Truncate(Join(pod.topics, ","), 70)) + "\n"
    + Row("Brokers", Truncate(Join(pod.brokers, ","), 70)) + "\n"
    + Row("Schema Registry URL", pod.schemaRegistryUrl) + "\n"
    + Row("Source", pod.source)
  }

  function Icon(clientType: string): (r: string)
    ensures |r| >= 1
  {
    if clientType == "Consumer" then ":large_blue_circle:"
    else if clientType == "Producer" then ":large_orange_circle:"
    else ":white_circle:"
  }

  function FormatSinglePod(pod: PodAccess): (r: string)
    ensures |r| >= 150
  {
    "\n" + Icon(pod.clientType) + " *" + pod.podName + "*\n" + "```\n" + FormatDetails(pod) + "```"
  }

  function Reports(pods: seq<PodAccess>): (r: seq<string>)
    ensures |r| == |pods|
  {
    seq(|pods|, i requires 0 <= i < |pods| => FormatSinglePod(pods[i]))
  }

  /** Forty box-drawing dashes of three bytes each. */
  function Rule(): string {
    Repeat("\U{E2}\U{94}\U{80}", 40)
  }

  function FirstHeader(namespace: string, clients: nat): string {
    "\n\n*:k8s: Namespace: `" + namespace + "` (" + Itoa(clients) + " clientes)*\n" + Rule() + "\n"
  }

  function PageHeader(namespace: string, page: nat): string {
    "*:k8s: Namespace: `" + namespace + "` (P\U{C3}\U{A1}gina " + Itoa(page) + ")*\n" + Rule() + "\n"
  }

  function HeaderOf(namespace: string, clients: nat, page: nat): string {
    if page == 1 then FirstHeader(namespace, clients) else PageHeader(namespace, page)
  }

  // ---------- what the texts say ----------

  predicate FoundAt(text: string, part: string, i: nat) {
    i + |part| <= |text| && text[i..i+|part|] == part
  }

  ghost predicate Contains(text: string, part: string) {
    exists i: nat :: FoundAt(text, part, i)
  }

  lemma Infix(a: string, b: string, c: string)
    ensures Contains(a + b + c, b)
  {
    assert FoundAt(a + b + c, b, |a|);
  }

  lemma ContainsMore(a: string, text: string, c: string, part: string)
    requires Contains(text, part)
    ensures Contains(a + text + c, part)
  {
    var i: nat :| FoundAt(text, part, i);
    var all := a + text + c;
    assert all[|a|+i..|a|+i+|part|] == text[i..i+|part|];
    assert FoundAt(all, part, |a| + i);
  }

  /** A text that is too long keeps its beginning and ends in three dots. */
  lemma TruncateKeepsBeginning(s: string, length: nat)
    requires 3 <= length < |s|
    ensures var r := Truncate(s, length);
            |r| == length && r[..length-3] == s[..length-3] && r[length-3..] == "..."
  {}

  /** The first value that is not empty, if there is one. */
  lemma {:induction false} CoalesceIsFirst(values: seq<string>)
    ensures Coalesce(values) == "" <==> forall v :: v in values ==> v == ""
    ensures forall i :: 0 <= i < |values| && values[i] != "" && (forall j :: 0 <= j < i ==> values[j] == "") ==>
              Coalesce(values) == values[i]
  {
    if values == [] {
    } else if values[0] != "" {
      assert values[0] in values;
    } else {
      CoalesceIsFirst(values[1..]);
      assert forall v :: v in values <==> v == values[0] || v in values[1..];
      forall i | 0 <= i < |values| && values[i] != "" && (forall j :: 0 <= j < i ==> values[j] == "")
        ensures Coalesce(values) == values[i]
      {
        assert values[1..][i-1] == values[i];
        assert forall j :: 0 <= j < i-1 ==> values[1..][j] == values[j+1];
      }
    }
  }

  /** Joining goes on with the separator and the next part. */
  lemma {:induction false} JoinGoesOn(parts: seq<string>, last: string, sep: string)
    ensures Join([last], sep) == last
    ensures parts != [] ==> Join(parts + [last], sep) == Join(parts, sep) + sep + last
  {
    if |parts| > 1 {
      JoinGoesOn(parts[1..], last, sep);
      assert (parts + [last])[1..] == parts[1..] + [last];
    } else if |parts| == 1 {
      assert (parts + [last])[1..] == [last];
    }
  }

  /** A row has its title in the first 22 columns and then the value, or `N/A` without one. */
  lemma RowColumns(title: string, value: string)
    requires |title| <= 22
    ensures var r := Row(title, value);
            && r[..|title|] == title && (forall i :: |title| <= i < 22 ==> r[i] == ' ')
            && r[22..24] == ": " && r[24..] == if value == "" then "N/A" else value
  {
    RepeatIsBlank(22 - |title|);
    hide Repeat;
  }

  lemma {:induction false} RepeatIsBlank(n: nat)
    ensures forall i :: 0 <= i < n ==> Repeat(" ", n)[i] == ' '
  {
    if n > 0 {
      RepeatIsBlank(n-1);
    }
  }

  /** The report begins with an icon for the kind of client, and a header ends in forty dashes. */
  lemma IconShowsClientType(pod: PodAccess)
    ensures "\n" + Icon(pod.clientType) + " " <= FormatSinglePod(pod)
    ensures Icon("Consumer") == ":large_blue_circle:" && Icon("Producer") == ":large_orange_circle:"
    ensures pod.clientType !in {"Consumer", "Producer"} ==> Icon(pod.clientType) == ":white_circle:"
    ensures |Rule()| == 3 * 40
  {
    IconComesFirst(pod);
    hide FormatSinglePod;
    assert "Consumer" != "Producer";
  }

  lemma IconComesFirst(pod: PodAccess)
    ensures "\n" + Icon(pod.clientType) + " " <= FormatSinglePod(pod)
  {
    hide FormatDetails, Icon;
    var start := "\n" + Icon(pod.clientType) + " ";
    assert FormatSinglePod(pod) == start + ("*" + pod.podName + "*\n" + "```\n" + FormatDetails(pod) + "```");
  }

  /** The report of a pod has its name in bold and a row for each field of it. */
  lemma ReportShowsPod(pod: PodAccess)
    ensures var r := FormatSinglePod(pod);
            && Contains(r, " *" + pod.podName + "*\n")
            && Contains(r, Row("Type", pod.clientType) + "\n")
            && Contains(r, Row("Group/Client ID", Coalesce([pod.groupId, pod.clientId])) + "\n")
            && Contains(r, Row("Topics", Truncate(Join(pod.topics, ","), 70)) + "\n")
            && Contains(r, Row("Brokers", Truncate(Join(pod.brokers, ","), 70)) + "\n")
            && Contains(r, Row("Schema Registry URL", pod.schemaRegistryUrl) + "\n")
            && Contains(r, Row("Source", pod.source))
  {
    hide Row, Coalesce, Truncate, Join, FormatDetails, Contains, Icon;
    var details, r := FormatDetails(pod), FormatSinglePod(pod);
    var name, before, open := " *" + pod.podName + "*\n", "\n" + Icon(pod.clientType), "```\n";
    assert r == before + name + (open + details + "```") == (before + name + open) + details + "```";
    hide FormatSinglePod;
    Infix(before, name, open + details + "```");
    forall part ensures Contains(details, part) ==> Contains((before + name + open) + details + "```", part) {
      if Contains(details, part) { ContainsMore(before + name + open, details, "```", part); }
    }
    DetailsHaveRows(pod);
  }

  lemma DetailsHaveRows(pod: PodAccess)
    ensures var d := FormatDetails(pod);
            && Contains(d, Row("Type", pod.clientType) + "\n")
            && Contains(d, Row("Group/Client ID", Coalesce([pod.groupId, pod.clientId])) + "\n")
            && Contains(d, Row("Topics", Truncate(Join(pod.topics, ","), 70)) + "\n")
            && Contains(d, Row("Brokers", Truncate(Join(pod.brokers, ","), 70)) + "\n")
            && Contains(d, Row("Schema Registry URL", pod.schemaRegistryUrl) + "\n")
            && Contains(d, Row("Source", pod.source))
  {
    hide Row, Coalesce, Truncate, Join, Contains;
    var a := Row("Type", pod.clientType) + "\n";
    var b := Row("Group/Client ID", Coalesce([pod.groupId, pod.clientId])) + "\n";
    var c := Row("Topics", Truncate(Join(pod.topics, ","), 70)) + "\n";
    var d := Row("Brokers", Truncate(Join(pod.brokers, ","), 70)) + "\n";
    var e, f := Row("Schema Registry URL", pod.schemaRegistryUrl) + "\n", Row("Source", pod.source);
    ThreeParts(a, b, c);
    ThreeParts(d, e, f);
    assert FormatDetails(pod) == "" + (a + b + c) + (d + e + f) == (a + b + c) + (d + e + f) + "";
    hide FormatDetails;
    forall part ensures Contains(a + b + c, part) ==> Contains("" + (a + b + c) + (d + e + f), part) {
      if Contains(a + b + c, part) { ContainsMore("", a + b + c, d + e + f, part); }
    }
    forall part ensures Contains(d + e + f, part) ==> Contains((a + b + c) + (d + e + f) + "", part) {
      if Contains(d + e + f, part) { ContainsMore(a + b + c, d + e + f, "", part); }
    }
  }

  lemma ThreeParts(a: string, b: string, c: string)
    ensures Contains(a + b + c, a) && Contains(a + b + c, b) && Contains(a + b + c, c)
  {
    Infix("", a, b + c);
    Infix(a, b, c);
    Infix(a + b, c, "");
    assert "" + a + (b + c) == a + b + c && (a + b) + c + "" == a + b + c;
  }

  /** The first header counts the namespace's clients, the later ones the pages. */
  lemma HeadersShowNamespace(namespace: string, clients: nat, page: nat)
    ensures Contains(FirstHeader(namespace, clients), "`" + namespace + "` (" + Itoa(clients) + " clientes)")
    ensures Contains(PageHeader(namespace, page), "`" + namespace + "` (P\U{C3}\U{A1}gina " + Itoa(page) + ")")
    ensures HeaderOf(namespace, clients, 1) == FirstHeader(namespace, clients)
    ensures page != 1 ==> HeaderOf(namespace, clients, page) == PageHeader(namespace, page)
  {
    hide Rule, Itoa, Contains;
    var a, c := "\n\n*:k8s: Namespace: ", "*\n" + Rule() + "\n";
    var b := "`" + namespace + "` (" + Itoa(clients) + " clientes)";
    assert FirstHeader(namespace, clients) == a + b + c;
    Infix(a, b, c);
    var a', b' := "*:k8s: Namespace: ", "`" + namespace + "` (P\U{C3}\U{A1}gina " + Itoa(page) + ")";
    assert PageHeader(namespace, page) == a' + b' + c;
    Infix(a', b', c);
  }

  // ---------- the length test on the last page ----------

  function Ten(k: nat): nat {
    if k == 0 then 1 else 10 * Ten(k-1)
  }

  lemma {:induction false} ItoaLength(n: nat, k: nat)
    requires n < Ten(k) && k >= 1
    ensures |Itoa(n)| <= k
    decreases k
  {
    if k > 1 && n >= 10 {
      ItoaLength(n / 10, k-1);
    }
  }

  lemma LengthsFitNineteenDigits()
    ensures MAX_LEN < Ten(19)
  {
    assert Ten(4) == 10_000;
    assert Ten(8) == 1_0000_0000;
    assert Ten(12) == 1_0000_0000_0000;
    assert Ten(16) == 1_0000_0000_0000_0000;
  }

  /**
   The last page is sent if the buffer is longer than the first header. That test never drops
   a page: any page header and one report are longer than the first header.
   */
  lemma LastPageIsNeverDropped(namespace: string, clients: nat, page: nat, pod: PodAccess)
    requires clients <= MAX_LEN
    ensures |HeaderOf(namespace, clients, page)| + |FormatSinglePod(pod)| > |FirstHeader(namespace, clients)|
  {
    LengthsFitNineteenDigits();
    ItoaLength(clients, 19);
    hide FormatSinglePod, Rule, Itoa, Ten;
  }

  // ---------- pages ----------

  /** What the reporter hands to Slack. */
  datatype Message = Summary(clients: nat) | Page(namespace: string, page: nat, text: string)

  function Concat(reports: seq<string>): string {
    if reports == [] then "" else Concat(reports[..|reports|-1]) + reports[|reports|-1]
  }

  function Flatten(parts: seq<seq<string>>): seq<string> {
    if parts == [] then [] else Flatten(parts[..|parts|-1]) + parts[|parts|-1]
  }

  /** Page number `p + 1` carries `part` below its header. */
  predicate IsPage(namespace: string, clients: nat, p: nat, part: seq<string>, m: Message) {
    m == Page(namespace, p + 1, HeaderOf(namespace, clients, p + 1) + Concat(part))
  }

  /** A page holds at least one report unless it is the first, and overflows only with a single one. */
  predicate Bounded(namespace: string, clients: nat, p: nat, part: seq<string>) {
    && (p > 0 ==> part != [])
    && (|FirstHeader(namespace, clients)| <= 3500 ==>
          || |HeaderOf(namespace, clients, p + 1)| + |Concat(part)| <= 3500
          || (p > 0 && |part| == 1))
  }

  /** A page ends only where the next report would not fit. */
  predicate Full(namespace: string, clients: nat, p: nat, part: seq<string>, next: string) {
    |HeaderOf(namespace, clients, p + 1)| + |Concat(part)| + |next| > 3500
  }

  /** The reports in order, cut into consecutively numbered, bounded and full pages. */
  ghost predicate Paginated(namespace: string, reports: seq<string>, parts: seq<seq<string>>, pages: seq<Message>) {
    && |parts| == |pages| && Flatten(parts) == reports
    && (forall p :: 0 <= p < |parts| ==>
          && IsPage(namespace, |reports|, p, parts[p], pages[p])
          && Bounded(namespace, |reports|, p, parts[p]))
    && (forall p :: 0 < p < |parts| ==> Full(namespace, |reports|, p-1, parts[p-1], parts[p][0]))
  }

  ghost predicate WellPaginated(namespace: string, reports: seq<string>, pages: seq<Message>) {
    exists parts :: Paginated(namespace, reports, parts, pages)
  }

  // ---------- grouping and order ----------

  function InNamespace(pods: seq<PodAccess>, namespace: string): seq<PodAccess> {
    if pods == [] then []
    else InNamespace(pods[..|pods|-1], namespace)
         + if pods[|pods|-1].namespace == namespace then [pods[|pods|-1]] else []
  }

  function PagesOf(sent: seq<Message>, namespace: string): seq<Message> {
    if sent == [] then []
    else
      var m := sent[|sent|-1];
      PagesOf(sent[..|sent|-1], namespace) + if m.Page? && m.namespace == namespace then [m] else []
  }

  /** The `less` function given to `sort.Slice`. */
  predicate Less(a: PodAccess, b: PodAccess) {
    if a.namespace != b.namespace then Leq(a.namespace, b.namespace)
    else a.clientType != b.clientType && Leq(a.clientType, b.clientType)
  }

  /** Some order that `sort.Slice`, which is not stable, may leave the pods in. */
  ghost predicate SortedCopy(pods: seq<PodAccess>, r: seq<PodAccess>) {
    multiset(r) == multiset(pods) && forall i, j :: 0 <= i < j < |r| ==> !Less(r[j], r[i])
  }

  /** All pages of a namespace, and no others, carry the reports of its pods in sorted order. */
  ghost predicate Delivered(pods: seq<PodAccess>, namespace: string, sent: seq<Message>) {
    exists r :: SortedCopy(InNamespace(pods, namespace), r)
      && WellPaginated(namespace, Reports(r), PagesOf(sent, namespace))
  }

  ghost predicate AllDelivered(pods: seq<PodAccess>, sent: seq<Message>) {
    forall namespace :: Delivered(pods, namespace, sent)
  }

  lemma LessTransitive(a: PodAccess, b: PodAccess, c: PodAccess)
    requires !Less(b, a) && !Less(c, b)
    ensures !Less(c, a)
  {
    LeqTotal(a.namespace, b.namespace);
    LeqTotal(b.namespace, c.namespace);
    LeqTotal(a.clientType, b.clientType);
    LeqTotal(b.clientType, c.clientType);
    if Leq(a.namespace, b.namespace) && Leq(b.namespace, c.namespace) {
      LeqTransitive(a.namespace, b.namespace, c.namespace);
    }
    if Leq(a.clientType, b.clientType) && Leq(b.clientType, c.clientType) {
      LeqTransitive(a.clientType, b.clientType, c.clientType);
    }
    if Leq(a.namespace, c.namespace) && Leq(c.namespace, a.namespace) {
      LeqAntisymmetric(a.namespace, c.namespace);
    }
    if Leq(a.clientType, c.clientType) && Leq(c.clientType, a.clientType) {
      LeqAntisymmetric(a.clientType, c.clientType);
    }
    if Leq(a.namespace, b.namespace) && Leq(b.namespace, a.namespace) {
      LeqAntisymmetric(a.namespace, b.namespace);
    }
  }

  // ---------- the page buffer ----------

  /** The pages sent so far, and the open page `cur` that the buffer holds below its header. */
  ghost predicate Building(namespace: string, clients: nat, done: seq<string>, parts: seq<seq<string>>,
                           cur: seq<string>, pages: seq<Message>) {
    && |pages| == |parts| && Flatten(parts) + cur == done
    && (forall p :: 0 <= p < |parts| ==>
          && IsPage(namespace, clients, p, parts[p], pages[p])
          && Bounded(namespace, clients, p, parts[p]))
    && (forall p :: 0 < p < |parts| ==> Full(namespace, clients, p-1, parts[p-1], parts[p][0]))
    && Bounded(namespace, clients, |parts|, cur)
    && (|parts| > 0 ==> Full(namespace, clients, |parts|-1, parts[|parts|-1], cur[0]))
  }

  lemma ConcatSnoc(reports: seq<string>, report: string)
    ensures Concat(reports + [report]) == Concat(reports) + report
  {
    assert (reports + [report])[..|reports|] == reports;
  }

  lemma FlattenSnoc(parts: seq<seq<string>>, part: seq<string>)
    ensures Flatten(parts + [part]) == Flatten(parts) + part
  {
    assert (parts + [part])[..|parts|] == parts;
  }

  /** The report still fits on the open page. */
  lemma AppendToPage(namespace: string, clients: nat, done: seq<string>, parts: seq<seq<string>>,
                     cur: seq<string>, pages: seq<Message>, report: string)
    requires Building(namespace, clients, done, parts, cur, pages)
    requires |HeaderOf(namespace, clients, |parts| + 1)| + |Concat(cur)| + |report| <= SLACK_CHAR_LIMIT
    ensures Building(namespace, clients, done + [report], parts, cur + [report], pages)
  {
    hide HeaderOf, FirstHeader, IsPage;
    ConcatSnoc(cur, report);
    assert Flatten(parts) + (cur + [report]) == done + [report];
  }

  /** The report overflows the open page, which is sent, and starts the next one. */
  lemma StartNextPage(namespace: string, clients: nat, done: seq<string>, parts: seq<seq<string>>,
                      cur: seq<string>, pages: seq<Message>, report: string)
    requires Building(namespace, clients, done, parts, cur, pages)
    requires Full(namespace, clients, |parts|, cur, report)
    ensures Building(namespace, clients, done + [report], parts + [cur], [report],
                     pages + [Page(namespace, |parts| + 1, HeaderOf(namespace, clients, |parts| + 1) + Concat(cur))])
  {
    hide HeaderOf, FirstHeader, Concat, Flatten, IsPage, Full;
    var all := parts + [cur];
    var page := Page(namespace, |parts| + 1, HeaderOf(namespace, clients, |parts| + 1) + Concat(cur));
    PageOfPart(namespace, clients, |parts|, cur);
    SingleIsBounded(namespace, clients, |all|, report);
    FlattenSnoc(parts, cur);
    forall p | 0 <= p < |all|
      ensures IsPage(namespace, clients, p, all[p], (pages + [page])[p]) && Bounded(namespace, clients, p, all[p])
    {
      assert p < |parts| ==> all[p] == parts[p] && (pages + [page])[p] == pages[p];
    }
    forall p | 0 < p < |all| ensures Full(namespace, clients, p-1, all[p-1], all[p][0]) {
      assert all[p-1] == parts[p-1];
    }
    assert Flatten(all) + [report] == done + [report];
  }

  lemma PageOfPart(namespace: string, clients: nat, p: nat, part: seq<string>)
    ensures IsPage(namespace, clients, p, part,
                   Page(namespace, p + 1, HeaderOf(namespace, clients, p + 1) + Concat(part)))
  {}

  lemma SingleIsBounded(namespace: string, clients: nat, p: nat, report: string)
    requires p > 0
    ensures Bounded(namespace, clients, p, [report])
  {}

  /** Sending the open page, or dropping it when it has no report, completes the pagination. */
  lemma FinishPages(namespace: string, reports: seq<string>, parts: seq<seq<string>>, cur: seq<string>,
                    pages: seq<Message>)
    requires Building(namespace, |reports|, reports, parts, cur, pages)
    ensures cur == [] ==> Paginated(namespace, reports, parts, pages)
    ensures cur != [] ==> Paginated(namespace, reports, parts + [cur],
      pages + [Page(namespace, |parts| + 1, HeaderOf(namespace, |reports|, |parts| + 1) + Concat(cur))])
  {
    hide HeaderOf, FirstHeader, Concat, Flatten;
    FlattenSnoc(parts, cur);
    if cur != [] {
      var all := parts + [cur];
      forall p | 0 < p < |all| ensures Full(namespace, |reports|, p-1, all[p-1], all[p][0]) {
        assert all[p-1] == parts[p-1];
      }
    }
  }

  lemma {:induction false} PagesOfAppend(sent: seq<Message>, more: seq<Message>, namespace: string)
    ensures PagesOf(sent + more, namespace) == PagesOf(sent, namespace) + PagesOf(more, namespace)
  {
    if more == [] {
      assert sent + more == sent;
    } else {
      assert (sent + more)[..|sent + more|-1] == sent + more[..|more|-1];
      PagesOfAppend(sent, more[..|more|-1], namespace);
    }
  }

  /** Pages of one namespace are all of its pages and none of any other's. */
  lemma {:induction false} OwnPages(pages: seq<Message>, namespace: string, other: string)
    requires forall m :: m in pages ==> m.Page? && m.namespace == namespace
    ensures PagesOf(pages, other) == if other == namespace then pages else []
  {
    if pages != [] {
      OwnPages(pages[..|pages|-1], namespace, other);
    }
  }

  lemma PaginatedPagesAreOwn(namespace: string, reports: seq<string>, parts: seq<seq<string>>, pages: seq<Message>)
    requires Paginated(namespace, reports, parts, pages)
    ensures forall m :: m in pages ==> m.Page? && m.namespace == namespace
  {
    forall m | m in pages ensures m.Page? && m.namespace == namespace {
      var p :| 0 <= p < |pages| && pages[p] == m;
      assert IsPage(namespace, |reports|, p, parts[p], pages[p]);
    }
  }

  lemma NothingToDeliver(pods: seq<PodAccess>, namespace: string, sent: seq<Message>)
    requires InNamespace(pods, namespace) == [] && PagesOf(sent, namespace) == []
    ensures Delivered(pods, namespace, sent)
  {
    assert SortedCopy([], []);
    assert Paginated(namespace, Reports([]), [], []);
  }

  /** Every namespace outside `rest` has its pages, and those in `rest` have none yet. */
  ghost predicate DeliveredExcept(pods: seq<PodAccess>, rest: set<string>, sent: seq<Message>) {
    forall namespace ::
      if namespace in rest then PagesOf(sent, namespace) == [] else Delivered(pods, namespace, sent)
  }

  lemma NothingDeliveredYet(pods: seq<PodAccess>, rest: set<string>)
    requires forall namespace :: namespace in rest <==> InNamespace(pods, namespace) != []
    ensures DeliveredExcept(pods, rest, [])
  {
    forall namespace | namespace !in rest ensures Delivered(pods, namespace, []) {
      NothingToDeliver(pods, namespace, []);
    }
  }

  lemma DeliverOne(pods: seq<PodAccess>, rest: set<string>, sent: seq<Message>, namespace: string,
                   sorted: seq<PodAccess>, pages: seq<Message>)
    requires DeliveredExcept(pods, rest, sent) && namespace in rest
    requires SortedCopy(InNamespace(pods, namespace), sorted) && WellPaginated(namespace, Reports(sorted), pages)
    requires forall m :: m in pages ==> m.Page? && m.namespace == namespace
    ensures DeliveredExcept(pods, rest - {namespace}, sent + pages)
  {
    hide SortedCopy, WellPaginated, Reports, InNamespace, Delivered, PagesOf;
    forall other
      ensures if other in rest - {namespace} then PagesOf(sent + pages, other) == []
              else Delivered(pods, other, sent + pages)
    {
      PagesOfAppend(sent, pages, other);
      OwnPages(pages, namespace, other);
      if other == namespace {
        assert PagesOf(sent + pages, namespace) == pages;
        DeliveredBy(pods, namespace, sent + pages, sorted);
      } else {
        assert PagesOf(sent + pages, other) == PagesOf(sent, other);
        SamePagesSameDelivery(pods, other, sent, sent + pages);
      }
    }
  }

  lemma DeliveredBy(pods: seq<PodAccess>, namespace: string, sent: seq<Message>, sorted: seq<PodAccess>)
    requires SortedCopy(InNamespace(pods, namespace), sorted)
    requires WellPaginated(namespace, Reports(sorted), PagesOf(sent, namespace))
    ensures Delivered(pods, namespace, sent)
  {}

  lemma SamePagesSameDelivery(pods: seq<PodAccess>, namespace: string, a: seq<Message>, b: seq<Message>)
    requires PagesOf(a, namespace) == PagesOf(b, namespace)
    ensures Delivered(pods, namespace, a) == Delivered(pods, namespace, b)
  {}

  lemma StartPages(namespace: string, clients: nat)
    ensures Building(namespace, clients, [], [], [], [])
    ensures HeaderOf(namespace, clients, 1) + Concat([]) == FirstHeader(namespace, clients)
  {}

  class SlackReporter {
    /** Every message handed to Slack, in order. */
    var sent: seq<Message>

    constructor ()
      ensures sent == []
    {
      sent := [];
    }

    method Send(m: Message)
      modifies this
      ensures sent == old(sent) + [m]
    {
      sent := sent + [m];
    }

    /** `sort.Slice`; the caller may rely on `SortedCopy` only. */
    method SortPods(pods: seq<PodAccess>) returns (r: seq<PodAccess>)
      ensures SortedCopy(pods, r)
    {
      r := [];
      for i := 0 to |pods|
        invariant SortedCopy(pods[..i], r)
      {
        var pod := pods[i];
        var k := 0;
        while k < |r| && !Less(pod, r[k])
          invariant 0 <= k <= |r|
          invariant forall j :: 0 <= j < k ==> !Less(pod, r[j])
        {
          k := k + 1;
        }
        assert pods[..i+1] == pods[..i] + [pod];
        InsertKeepsSorted(pods[..i], r, pod, k);
        r := r[..k] + [pod] + r[k..];
      }
      assert pods[..|pods|] == pods;
    }

    /** The inner loop of `SendReport`: the reports of one namespace, page by page. */
    method SendNamespace(namespace: string, pods: seq<PodAccess>) returns (ghost pages: seq<Message>)
      requires |pods| <= MAX_LEN
      modifies this
      ensures sent == old(sent) + pages && WellPaginated(namespace, Reports(pods), pages)
      ensures forall m :: m in pages ==> m.Page? && m.namespace == namespace
    {
      hide FormatSinglePod, HeaderOf, FirstHeader, PageHeader, Building, Concat, Paginated;
      StartPages(namespace, |pods|);
      var header := FirstHeader(namespace, |pods|);
      var messageChunk := header;
      var page := 1;
      ghost var reports := Reports(pods);
      ghost var parts: seq<seq<string>>, cur: seq<string> := [], [];
      pages := [];
      for i := 0 to |pods|
        invariant sent == old(sent) + pages && page == |parts| + 1
        invariant messageChunk == HeaderOf(namespace, |pods|, page) + Concat(cur)
        invariant Building(namespace, |pods|, reports[..i], parts, cur, pages)
        invariant cur == [] ==> i == 0 && parts == []
        invariant cur != [] ==> |messageChunk| > |header|
      {
        var podReport := FormatSinglePod(pods[i]);
        assert reports[..i+1] == reports[..i] + [podReport];
        if |messageChunk| + |podReport| > SLACK_CHAR_LIMIT {
          StartNextPage(namespace, |pods|, reports[..i], parts, cur, pages, podReport);
          pages := pages + [Page(namespace, page, messageChunk)];
          Send(Page(namespace, page, messageChunk));
          page := page + 1;
          messageChunk := PageHeader(namespace, page);
          parts, cur := parts + [cur], [];
          LaterPageHeader(namespace, |pods|, page);
        } else {
          AppendToPage(namespace, |pods|, reports[..i], parts, cur, pages, podReport);
        }
        LastPageIsNeverDropped(namespace, |pods|, page, pods[i]);
        ConcatSnoc(cur, podReport);
        assert [] + [podReport] == [podReport];
        messageChunk := messageChunk + podReport;
        cur := cur + [podReport];
      }
      assert reports[..|pods|] == reports;
      FinishPages(namespace, reports, parts, cur, pages);
      if |messageChunk| > |header| {
        assert cur != [];
        PaginatedPagesAreOwn(namespace, reports, parts + [cur], pages + [Page(namespace, page, messageChunk)]);
        pages := pages + [Page(namespace, page, messageChunk)];
        Send(Page(namespace, page, messageChunk));
      } else {
        PaginatedPagesAreOwn(namespace, reports, parts, pages);
      }
    }

    /**
     Main result: once the summary is out, the pages of each namespace carry the report of
     each of its pods exactly once, in sorted order, on consecutively numbered pages.
     */
    method SendReport(pods: seq<PodAccess>, summaryDelivered: bool) returns (ok: bool)
      requires |pods| <= MAX_LEN
      modifies this
      ensures pods == [] ==> ok && sent == old(sent)
      ensures pods != [] && !summaryDelivered ==> !ok && sent == old(sent) + [Summary(|pods|)]
      ensures pods != [] && summaryDelivered ==>
        && ok && old(sent) + [Summary(|pods|)] <= sent
        && AllDelivered(pods, sent[|old(sent)| + 1..])
    {
      if |pods| == 0 {
        return true;
      }
      Send(Summary(|pods|));
      if !summaryDelivered {
        return false;
      }
      var podsByNamespace := GroupByNamespace(pods);
      ghost var pages := SendGroups(pods, podsByNamespace);
      assert sent[|old(sent)| + 1..] == pages;
      return true;
    }

    /** The outer loop of `SendReport`: the namespaces, in whatever order the map yields them. */
    method SendGroups(ghost pods: seq<PodAccess>, podsByNamespace: map<string, seq<PodAccess>>)
      returns (ghost pages: seq<Message>)
      requires forall namespace :: namespace in podsByNamespace <==> InNamespace(pods, namespace) != []
      requires forall namespace :: namespace in podsByNamespace ==>
        podsByNamespace[namespace] == InNamespace(pods, namespace) && |podsByNamespace[namespace]| <= MAX_LEN
      modifies this
      ensures sent == old(sent) + pages && AllDelivered(pods, pages)
    {
      hide Delivered, InNamespace, PagesOf, SortedCopy, WellPaginated, Reports;
      pages := [];
      var rest := podsByNamespace.Keys;
      NothingDeliveredYet(pods, rest);
      while rest != {}
        invariant rest <= podsByNamespace.Keys
        invariant sent == old(sent) + pages
        invariant DeliveredExcept(pods, rest, pages)
      {
        var namespace :| namespace in rest;
        var podsInNamespace := SortPods(podsByNamespace[namespace]);
        SameLength(podsByNamespace[namespace], podsInNamespace);
        ghost var more := SendNamespace(namespace, podsInNamespace);
        DeliverOne(pods, rest, pages, namespace, podsInNamespace, more);
        rest := rest - {namespace};
        pages := pages + more;
      }
    }
  }

  lemma LaterPageHeader(namespace: string, clients: nat, page: nat)
    requires page > 1
    ensures HeaderOf(namespace, clients, page) + Concat([]) == PageHeader(namespace, page)
  {}

  lemma SameLength(a: seq<PodAccess>, b: seq<PodAccess>)
    requires SortedCopy(a, b)
    ensures |a| == |b|
  {
    assert |multiset(a)| == |multiset(b)|;
  }

  lemma InsertKeepsSorted(pods: seq<PodAccess>, r: seq<PodAccess>, pod: PodAccess, k: nat)
    requires SortedCopy(pods, r) && k <= |r|
    requires forall j :: 0 <= j < k ==> !Less(pod, r[j])
    requires k < |r| ==> Less(pod, r[k])
    ensures SortedCopy(pods + [pod], r[..k] + [pod] + r[k..])
  {
    assert r == r[..k] + r[k..];
    var s := r[..k] + [pod] + r[k..];
    assert multiset(s) == multiset(r) + multiset{pod};
    InsertedInOrder(r, pod, k);
  }

  lemma InsertedInOrder(r: seq<PodAccess>, pod: PodAccess, k: nat)
    requires k <= |r| && forall i, j :: 0 <= i < j < |r| ==> !Less(r[j], r[i])
    requires forall j :: 0 <= j < k ==> !Less(pod, r[j])
    requires k < |r| ==> Less(pod, r[k])
    ensures var s := r[..k] + [pod] + r[k..]; forall i, j :: 0 <= i < j < |s| ==> !Less(s[j], s[i])
  {
    hide Less;
    var s := r[..k] + [pod] + r[k..];
    forall i, j | 0 <= i < j < |s| ensures !Less(s[j], s[i]) {
      if i == k {
        LessAsymmetric(pod, r[k]);
        if j > k + 1 {
          LessTransitive(pod, r[k], r[j-1]);
        }
      }
    }
  }

  lemma LessAsymmetric(a: PodAccess, b: PodAccess)
    requires Less(a, b)
    ensures !Less(b, a)
  {
    if Leq(a.namespace, b.namespace) && Leq(b.namespace, a.namespace) { LeqAntisymmetric(a.namespace, b.namespace); }
    if Leq(a.clientType, b.clientType) && Leq(b.clientType, a.clientType) {
      LeqAntisymmetric(a.clientType, b.clientType);
    }
  }

  lemma NoneInNamespace(pods: seq<PodAccess>)
    ensures forall namespace :: InNamespace(pods[..0], namespace) == []
  {}

  lemma NextInNamespace(pods: seq<PodAccess>, i: nat)
    requires i < |pods|
    ensures forall namespace ::
              InNamespace(pods[..i+1], namespace)
              == InNamespace(pods[..i], namespace) + if pods[i].namespace == namespace then [pods[i]] else []
  {
    assert pods[..i+1][..i] == pods[..i];
  }

  /** The map of slices at the start of `SendReport`. */
  method GroupByNamespace(pods: seq<PodAccess>) returns (groups: map<string, seq<PodAccess>>)
    requires |pods| <= MAX_LEN
    ensures forall namespace :: namespace in groups <==> InNamespace(pods, namespace) != []
    ensures forall namespace :: namespace in groups ==>
              groups[namespace] == InNamespace(pods, namespace) && |groups[namespace]| <= MAX_LEN
  {
    hide InNamespace;
    groups := map[];
    NoneInNamespace(pods);
    for i := 0 to |pods|
      invariant forall namespace :: namespace in groups <==> InNamespace(pods[..i], namespace) != []
      invariant forall namespace :: namespace in groups ==>
                  groups[namespace] == InNamespace(pods[..i], namespace) && |groups[namespace]| <= i
    {
      NextInNamespace(pods, i);
      var namespace := pods[i].namespace;
      var group := if namespace in groups then groups[namespace] else [];
      groups := groups[namespace := group + [pods[i]]];
    }
    assert pods[..|pods|] == pods;
  }
}
