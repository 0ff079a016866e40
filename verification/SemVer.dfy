/**
 Version precedence as section 11 of Semantic Versioning 2.0.0 defines it, and the choice
 of the upgrade's target version. Reading a version out of a string is a parameter: every
 result holds for any parser. Build metadata takes no part in precedence and is left out.
 */
module SemVer {
  import opened Common
  import opened Lexicographic

  datatype Identifier = Numeric(n: nat) | Alphanumeric(s: string)

  datatype Version = Version(major: nat, minor: nat, patch: nat, pre: seq<Identifier>)

  type Parser = string -> Option<Version>

  function CompareInt(a: int, b: int): int {
    if a < b then -1 else if a == b then 0 else 1
  }

  function CompareIdentifier(a: Identifier, b: Identifier): int {
    match (a, b)
    case (Numeric(m), Numeric(n)) => CompareInt(m, n)
    case (Numeric(_), Alphanumeric(_)) => -1
    case (Alphanumeric(_), Numeric(_)) => 1
    case (Alphanumeric(s), Alphanumeric(t)) => if s == t then 0 else if Leq(s, t) then -1 else 1
  }

  /** Identifier by identifier; when all of the shorter list agree, the longer one is greater. */
  function CompareFields(a: seq<Identifier>, b: seq<Identifier>): int {
    if a == [] && b == [] then 0
    else if a == [] then -1
    else if b == [] then 1
    else
      var c := CompareIdentifier(a[0], b[0]);
      if c != 0 then c else CompareFields(a[1..], b[1..])
  }

  /** A version without pre-release fields is greater than the same version with them. */
  function ComparePreRelease(a: seq<Identifier>, b: seq<Identifier>): int {
    if a == [] && b == [] then 0
    else if a == [] then 1
    else if b == [] then -1
    else CompareFields(a, b)
  }

  function Compare(a: Version, b: Version): int {
    if a.major != b.major then CompareInt(a.major, b.major)
    else if a.minor != b.minor then CompareInt(a.minor, b.minor)
    else if a.patch != b.patch then CompareInt(a.patch, b.patch)
    else ComparePreRelease(a.pre, b.pre)
  }

  lemma IdentifierSwap(a: Identifier, b: Identifier)
    ensures CompareIdentifier(b, a) == -CompareIdentifier(a, b)
  {
    if a.Alphanumeric? && b.Alphanumeric? {
      LeqTotal(a.s, b.s);
      if Leq(a.s, b.s) && Leq(b.s, a.s) { LeqAntisymmetric(a.s, b.s); }
    }
  }

  lemma IdentifierTransitive(a: Identifier, b: Identifier, c: Identifier)
    requires CompareIdentifier(a, b) <= 0 && CompareIdentifier(b, c) <= 0
    ensures CompareIdentifier(a, c) <= 0
    ensures CompareIdentifier(a, c) == 0 ==> a == b == c
  {
    if a.Alphanumeric? && b.Alphanumeric? && c.Alphanumeric? {
      LeqTotal(a.s, a.s);
      LeqTotal(c.s, c.s);
      LeqTransitive(a.s, b.s, c.s);
      if a.s == c.s && a.s != b.s { LeqAntisymmetric(a.s, b.s); }
    }
  }

  lemma {:induction false} FieldsSwap(a: seq<Identifier>, b: seq<Identifier>)
    ensures CompareFields(b, a) == -CompareFields(a, b)
  {
    if a != [] && b != [] {
      IdentifierSwap(a[0], b[0]);
      FieldsSwap(a[1..], b[1..]);
    }
  }

  lemma {:induction false} FieldsTransitive(a: seq<Identifier>, b: seq<Identifier>, c: seq<Identifier>)
    requires CompareFields(a, b) <= 0 && CompareFields(b, c) <= 0
    ensures CompareFields(a, c) <= 0
    ensures CompareFields(a, c) == 0 ==> CompareFields(a, b) == 0 && CompareFields(b, c) == 0
  {
    if a != [] && b != [] && c != [] {
      IdentifierTransitive(a[0], b[0], c[0]);
      if CompareIdentifier(a[0], b[0]) == 0 && CompareIdentifier(b[0], c[0]) == 0 {
        FieldsTransitive(a[1..], b[1..], c[1..]);
      }
    }
  }

  /** Precedence is a total preorder; ties are exactly the pairs that compare equal both ways. */
  lemma PrecedenceIsTotalPreorder(a: Version, b: Version, c: Version)
    ensures Compare(b, a) == -Compare(a, b)
    ensures Compare(a, b) <= 0 && Compare(b, c) <= 0 ==>
      Compare(a, c) <= 0 && (Compare(a, c) == 0 ==> Compare(a, b) == 0 && Compare(b, c) == 0)
  {
    FieldsSwap(a.pre, b.pre);
    if a.pre != [] && b.pre != [] && c.pre != []
       && CompareFields(a.pre, b.pre) <= 0 && CompareFields(b.pre, c.pre) <= 0 {
      FieldsTransitive(a.pre, b.pre, c.pre);
    }
  }

  // ---------- the clauses of section 11 ----------

  /** Older by the first difference among major, minor and patch version. */
  predicate OlderNumbers(a: Version, b: Version) {
    || a.major < b.major
    || (a.major == b.major && a.minor < b.minor)
    || (a.major == b.major && a.minor == b.minor && a.patch < b.patch)
  }

  predicate SameNumbers(a: Version, b: Version) {
    a.major == b.major && a.minor == b.minor && a.patch == b.patch
  }

  /** Clause 2: the numbers decide before anything else. Only equal versions tie. */
  lemma NumbersDecide(a: Version, b: Version)
    ensures OlderNumbers(a, b) ==> Compare(a, b) < 0 < Compare(b, a)
    ensures Compare(a, b) == 0 <==> a == b
  {
    EqualFieldsTie(a.pre, b.pre);
  }

  lemma {:induction false} EqualFieldsTie(a: seq<Identifier>, b: seq<Identifier>)
    ensures CompareFields(a, b) == 0 <==> a == b
  {
    if a != [] && b != [] {
      EqualFieldsTie(a[1..], b[1..]);
      assert a == [a[0]] + a[1..] && b == [b[0]] + b[1..];
    }
  }

  /** Clause 3: a pre-release comes before its release. */
  lemma PreReleaseComesFirst(a: Version, b: Version)
    requires SameNumbers(a, b) && a.pre != [] && b.pre == []
    ensures Compare(a, b) < 0 < Compare(b, a)
  {}

  /** Numbers by value, text in ASCII order, and numbers before text. */
  predicate ComesBefore(x: Identifier, y: Identifier) {
    match x
    case Numeric(m) => y.Alphanumeric? || m < y.n
    case Alphanumeric(s) => y.Alphanumeric? && s != y.s && Leq(s, y.s)
  }

  /** Clauses 4.1 to 4.3: the first identifiers that differ decide. */
  lemma {:induction false} FirstIdentifierDecides(
    f: seq<Identifier>, x: Identifier, y: Identifier, s: seq<Identifier>, t: seq<Identifier>)
    requires x != y
    ensures CompareFields(f + [x] + s, f + [y] + t) < 0 <==> ComesBefore(x, y)
  {
    var a, b := f + [x] + s, f + [y] + t;
    if f == [] {
      assert a[0] == x && b[0] == y;
    } else {
      assert a[0] == b[0] == f[0] && a[1..] == f[1..] + [x] + s && b[1..] == f[1..] + [y] + t;
      FirstIdentifierDecides(f[1..], x, y, s, t);
    }
  }

  /** Clause 4.4: fields that go on after all the others agree come last. */
  lemma {:induction false} MoreFieldsComeLast(f: seq<Identifier>, s: seq<Identifier>)
    requires s != []
    ensures CompareFields(f, f + s) < 0
  {
    if f != [] {
      assert (f + s)[0] == f[0] && (f + s)[1..] == f[1..] + s;
      MoreFieldsComeLast(f[1..], s);
    }
  }

  /** Clause 4 on whole versions: between pre-releases of the same numbers the fields decide. */
  lemma FieldsDecide(a: Version, b: Version)
    requires SameNumbers(a, b) && a.pre != [] && b.pre != []
    ensures Compare(a, b) == CompareFields(a.pre, b.pre)
  {}

  // ---------- the live controller's choice ----------

  /** `determineTargetVersion`: the greater of exactly two versions, as originally written. */
  function DetermineTarget(parse: Parser, versions: seq<string>): Result<string> {
    if |versions| != 2 then Err
    else
      match (parse(versions[0]), parse(versions[1]))
      case (Some(a), Some(b)) => if Compare(a, b) > 0 then Ok(versions[0]) else Ok(versions[1])
      case _ => Err
  }

  /**
   The choice does not depend on the order of Go's map iteration exactly when the two
   versions differ in precedence; then it is the strictly greater one.
   */
  lemma TargetIgnoresOrderIff(parse: Parser, a: string, b: string)
    requires a != b && parse(a).Some? && parse(b).Some?
    ensures DetermineTarget(parse, [a, b]) == DetermineTarget(parse, [b, a])
       <==> Compare(parse(a).value, parse(b).value) != 0
    ensures Compare(parse(a).value, parse(b).value) < 0 ==>
      DetermineTarget(parse, [a, b]) == DetermineTarget(parse, [b, a]) == Ok(b)
  {
    PrecedenceIsTotalPreorder(parse(a).value, parse(b).value, parse(a).value);
  }

  /** Of two readable versions the one with the greater numbers is chosen; anything else is an error. */
  lemma TargetHasGreaterNumbers(parse: Parser, vs: seq<string>)
    ensures DetermineTarget(parse, vs).Err? <==> |vs| != 2 || parse(vs[0]).None? || parse(vs[1]).None?
    ensures DetermineTarget(parse, vs).Ok? ==>
      && (OlderNumbers(parse(vs[0]).value, parse(vs[1]).value) ==> DetermineTarget(parse, vs) == Ok(vs[1]))
      && (OlderNumbers(parse(vs[1]).value, parse(vs[0]).value) ==> DetermineTarget(parse, vs) == Ok(vs[0]))
  {
    if DetermineTarget(parse, vs).Ok? {
      NumbersDecide(parse(vs[0]).value, parse(vs[1]).value);
      NumbersDecide(parse(vs[1]).value, parse(vs[0]).value);
    }
  }

  // ---------- the layered controller's choice ----------

  /** `"v" + strings.TrimPrefix(version, "v")`. */
  function Normalise(version: string): string {
    if version != [] && version[0] == 'v' then version else "v" + version
  }

  /** `semver.Compare`, which puts unreadable versions below all others. */
  function CompareText(parse: Parser, a: string, b: string): int {
    match (parse(a), parse(b))
    case (None, None) => 0
    case (None, Some(_)) => -1
    case (Some(_), None) => 1
    case (Some(v), Some(w)) => Compare(v, w)
  }

  /** The order `semver.Sort` sorts by: precedence, then text. */
  predicate SortsBefore(parse: Parser, a: string, b: string) {
    var c := CompareText(parse, a, b);
    if c != 0 then c < 0 else Leq(a, b)
  }

  lemma SortsBeforeIsTotalOrder(parse: Parser, a: string, b: string, c: string)
    ensures SortsBefore(parse, a, b) || SortsBefore(parse, b, a)
    ensures SortsBefore(parse, a, b) && SortsBefore(parse, b, a) ==> a == b
    ensures SortsBefore(parse, a, b) && SortsBefore(parse, b, c) ==> SortsBefore(parse, a, c)
  {
    LeqTotal(a, b);
    if Leq(a, b) && Leq(b, a) { LeqAntisymmetric(a, b); }
    if Leq(a, b) && Leq(b, c) { LeqTransitive(a, b, c); }
    if parse(a).Some? && parse(b).Some? {
      PrecedenceIsTotalPreorder(parse(a).value, parse(b).value, parse(b).value);
      if parse(c).Some? {
        PrecedenceIsTotalPreorder(parse(a).value, parse(b).value, parse(c).value);
      }
    }
  }

  /** A leading `v` is kept or added, and nothing else changes. */
  lemma NormaliseAddsOneV(version: string)
    ensures Normalise("v" + version) == "v" + version
    ensures version == [] || version[0] != 'v' ==> Normalise(version) == "v" + version
  {}

  /** Unreadable text comes before all readable versions, and readable ones go by their numbers. */
  lemma TextOrder(parse: Parser, a: string, b: string)
    ensures parse(a).None? && parse(b).Some? ==> CompareText(parse, a, b) < 0 < CompareText(parse, b, a)
    ensures parse(a).None? && parse(b).None? ==> CompareText(parse, a, b) == 0
    ensures parse(a).Some? && parse(b).Some? && OlderNumbers(parse(a).value, parse(b).value) ==>
      CompareText(parse, a, b) < 0 < CompareText(parse, b, a)
    ensures parse(a).Some? && parse(b).Some? ==> (CompareText(parse, a, b) == 0 <==> parse(a) == parse(b))
  {
    if parse(a).Some? && parse(b).Some? {
      NumbersDecide(parse(a).value, parse(b).value);
    }
  }

  /** The last element after `semver.Sort`. */
  function Greatest(parse: Parser, versions: seq<string>): (v: string)
    requires versions != []
    ensures v in versions
    ensures forall w :: w in versions ==> SortsBefore(parse, w, v)
  {
    var last := versions[|versions|-1];
    if |versions| == 1 then
      SortsBeforeIsTotalOrder(parse, last, last, last);
      last
    else
      var init := versions[..|versions|-1];
      var best := Greatest(parse, init);
      SortsBeforeIsTotalOrder(parse, last, best, last);
      assert forall w | w in init :: SortsBefore(parse, best, last) ==> SortsBefore(parse, w, last) by {
        forall w | w in init ensures SortsBefore(parse, best, last) ==> SortsBefore(parse, w, last) {
          SortsBeforeIsTotalOrder(parse, w, best, last);
        }
      }
      SortsBeforeIsTotalOrder(parse, last, last, last);
      assert versions == init + [last];
      if SortsBefore(parse, last, best) then best else last
  }

  /** The version with the greatest numbers is the greatest. */
  lemma GreatestHasGreatestNumbers(parse: Parser, versions: seq<string>, v: string)
    requires v in versions && parse(v).Some?
    requires forall w :: w in versions && w != v ==> parse(w).Some? && OlderNumbers(parse(w).value, parse(v).value)
    ensures Greatest(parse, versions) == v
  {
    var g := Greatest(parse, versions);
    if g != v {
      TextOrder(parse, g, v);
    }
  }

  /** Only the set of versions decides which one is greatest. */
  lemma GreatestIgnoresOrder(parse: Parser, p: seq<string>, q: seq<string>)
    requires p != [] && forall x :: x in p <==> x in q
    ensures q != [] && Greatest(parse, p) == Greatest(parse, q)
  {
    assert p[0] in q;
    SortsBeforeIsTotalOrder(parse, Greatest(parse, p), Greatest(parse, q), Greatest(parse, p));
  }
}
