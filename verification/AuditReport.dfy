// What the audit report yields to the gate: the generator iter_vulns over both of
// pnpm's report shapes (tools/check_pnpm_audit_exceptions.py:51-114).
module AuditReport {

  // ---- the report as json.load gives it ----------------------------------------------------

  // A field of a JSON object; one that is missing reads as None.
  datatype Field = Null | Text(s: string) | Number(n: int)
  {
    predicate Truthy() {
      match this
      case Null => false
      case Text(s) => s != ""
      case Number(n) => n != 0
    }

    // `this or other`.
    function Or(other: Field): Field {
      if Truthy() then this else other
    }
  }

  datatype Advisory = Advisory(
    moduleName: Field, name: Field, severity: Field, githubId: Field, url: Field, cves: seq<Field>, id: Field,
    title: Field, advisory: Field, overview: Field)

  // An element of a "via" list: an object, a string, or anything else.
  datatype Item =
    | Details(githubId: Field, url: Field, source: Field, title: Field, name: Field, advisory: Field)
    | Plain(s: string)
    | OtherItem

  datatype Via = Items(items: seq<Item>) | Single(s: string) | OtherVia

  datatype Vulnerability = Vulnerability(severity: Field, via: Via)

  // The values of "advisories" and the items of "vulnerabilities", in the order of the
  // file; a section that is missing, or not an object, is empty.
  datatype Report = Report(advisories: seq<Advisory>, vulnerabilities: seq<(string, Vulnerability)>)

  // What the gate looks at; the title only appears in messages.
  datatype Finding = Finding(name: Field, severity: Field, advisory: Field)

  // str(value), for a way to write numbers.
  function Shown(show: int -> string, f: Field): string {
    match f
    case Null => ""
    case Text(s) => s
    case Number(n) => show(n)
  }

  function FirstCve(cves: seq<Field>): Field {
    if cves == [] then Null else cves[0]
  }

  function PickAdvisoryId(show: int -> string, a: Advisory): Field {
    a.githubId.Or(a.url.Or(FirstCve(a.cves).Or(
      (if a.id == Null then Null else Text(Shown(show, a.id))).Or(a.title.Or(a.advisory.Or(a.overview))))))
  }

  function OfAdvisory(show: int -> string, a: Advisory): Finding {
    Finding(a.moduleName.Or(a.name), a.severity, PickAdvisoryId(show, a))
  }

  // ---- the "vulnerabilities" shape -------------------------------------------------------------

  function ItemsOf(via: Via): seq<Item> {
    match via
    case Items(items) => items
    case Single(s) => [Plain(s)]
    case OtherVia => []
  }

  function ItemId(item: Item): Field {
    match item
    case Details(githubId, url, source, title, name, _) => githubId.Or(url.Or(source.Or(title.Or(name))))
    case Plain(s) => Text(s)
    case OtherItem => Null
  }

  function ItemTitle(item: Item): Field {
    match item
    case Details(_, url, source, title, _, advisory) => title.Or(url.Or(advisory.Or(source)))
    case Plain(s) => Text(s)
    case OtherItem => Null
  }

  // "; ".join raises on a number.
  predicate Unprintable(item: Item) {
    ItemTitle(item).Number? && ItemTitle(item).Truthy()
  }

  predicate JoinRaises(v: Vulnerability) {
    exists item :: item in ItemsOf(v.via) && Unprintable(item)
  }

  function OfItems(name: string, severity: Field, items: seq<Item>): seq<Finding> {
    if items == [] then []
    else
      var id := ItemId(items[|items| - 1]);
      OfItems(name, severity, items[..|items| - 1]) + if id.Truthy() then [Finding(Text(name), severity, id)] else []
  }

  function OfVulnerability(v: (string, Vulnerability)): seq<Finding> {
    OfItems(v.0, v.1.severity, ItemsOf(v.1.via))
  }

  // ---- the generator -------------------------------------------------------------------------

  function OfAdvisories(show: int -> string, advisories: seq<Advisory>): (r: seq<Finding>)
    ensures |r| == |advisories| && forall i :: 0 <= i < |advisories| ==> r[i] == OfAdvisory(show, advisories[i])
  {
    seq(|advisories|, i requires 0 <= i < |advisories| => OfAdvisory(show, advisories[i]))
  }

  function OfVulnerabilities(vs: seq<(string, Vulnerability)>): seq<Finding> {
    if vs == [] then [] else OfVulnerabilities(vs[..|vs| - 1]) + OfVulnerability(vs[|vs| - 1])
  }

  // How many vulnerabilities come before the first one whose titles cannot be joined.
  function Printable(vs: seq<(string, Vulnerability)>): (n: nat)
    ensures n <= |vs| && (forall i :: 0 <= i < n ==> !JoinRaises(vs[i].1)) && (n < |vs| ==> JoinRaises(vs[n].1))
  {
    if vs == [] then 0
    else
      var n := Printable(vs[..|vs| - 1]);
      if n == |vs| - 1 && !JoinRaises(vs[n].1) then n + 1 else n
  }

  // Everything that is yielded before the generator ends or raises.
  function Yielded(show: int -> string, report: Report): seq<Finding> {
    OfAdvisories(show, report.advisories)
    + OfVulnerabilities(report.vulnerabilities[..Printable(report.vulnerabilities)])
  }

  predicate GeneratorRaises(report: Report) {
    exists v :: v in report.vulnerabilities && JoinRaises(v.1)
  }

  // The inner loops for one vulnerability: its ids and its titles.
  method Collect(items: seq<Item>) returns (ids: seq<Field>, titles: seq<Field>)
    ensures |ids| == |titles| == |items|
    ensures forall i :: 0 <= i < |items| ==> ids[i] == ItemId(items[i]) && titles[i] == ItemTitle(items[i])
  {
    ids, titles := [], [];
    for i := 0 to |items|
      invariant |ids| == |titles| == i
      invariant forall k :: 0 <= k < i ==> ids[k] == ItemId(items[k]) && titles[k] == ItemTitle(items[k])
    {
      ids, titles := ids + [ItemId(items[i])], titles + [ItemTitle(items[i])];
    }
  }

  // `"; ".join([t for t in titles if t])` raises.
  method JoinTitles(titles: seq<Field>, ghost items: seq<Item>) returns (raises: bool)
    requires |titles| == |items| && forall i :: 0 <= i < |items| ==> titles[i] == ItemTitle(items[i])
    ensures raises <==> exists item :: item in items && Unprintable(item)
  {
    raises := false;
    for i := 0 to |titles|
      invariant raises <==> exists k :: 0 <= k < i && Unprintable(items[k])
    {
      if titles[i].Number? && titles[i].Truthy() {
        assert Unprintable(items[i]);
        raises := true;
      }
    }
    assert forall k :: 0 <= k < |items| ==> items[k] in items;
  }

  // `for advisory_id in [a for a in advisories if a]: yield ...`.
  method YieldIds(name: string, severity: Field, ids: seq<Field>, ghost items: seq<Item>) returns (out: seq<Finding>)
    requires |ids| == |items| && forall i :: 0 <= i < |items| ==> ids[i] == ItemId(items[i])
    ensures out == OfItems(name, severity, items)
  {
    out := [];
    for i := 0 to |ids|
      invariant out == OfItems(name, severity, items[..i])
    {
      assert items[..i + 1][..i] == items[..i];
      if ids[i].Truthy() {
        out := out + [Finding(Text(name), severity, ids[i])];
      }
    }
    assert items[..|items|] == items;
  }

  // The loop over one shape.
  method IterAdvisories(show: int -> string, advisories: seq<Advisory>) returns (out: seq<Finding>)
    ensures out == OfAdvisories(show, advisories)
  {
    out := [];
    for i := 0 to |advisories|
      invariant out == OfAdvisories(show, advisories)[..i]
    {
      out := out + [OfAdvisory(show, advisories[i])];
    }
  }

  // The loop over the other one.
  method IterVulnerabilities(vs: seq<(string, Vulnerability)>) returns (out: seq<Finding>, raises: bool)
    ensures out == OfVulnerabilities(vs[..Printable(vs)])
    ensures raises <==> Printable(vs) < |vs|
  {
    hide OfItems, ItemId, ItemTitle, JoinRaises, Unprintable;
    out, raises := [], false;
    for i := 0 to |vs|
      invariant out == OfVulnerabilities(vs[..i]) && !raises
      invariant forall k :: 0 <= k < i ==> !JoinRaises(vs[k].1)
    {
      var items := ItemsOf(vs[i].1.via);
      var ids, titles := Collect(items);
      raises := JoinTitles(titles, items);
      RaisesOn(vs[i].1);
      if raises {
        PrintableIs(vs, i);
        return;
      }
      var found := YieldIds(vs[i].0, vs[i].1.severity, ids, items);
      assert vs[..i + 1][..i] == vs[..i];
      out := out + found;
    }
    PrintableIs(vs, |vs|);
  }

  lemma RaisesOn(v: Vulnerability)
    ensures JoinRaises(v) <==> exists item :: item in ItemsOf(v.via) && Unprintable(item)
  {
  }

  method IterVulns(show: int -> string, report: Report) returns (out: seq<Finding>, raises: bool)
    ensures out == Yielded(show, report)
    ensures raises <==> GeneratorRaises(report)
  {
    hide OfVulnerabilities, JoinRaises;
    var found;
    out := IterAdvisories(show, report.advisories);
    found, raises := IterVulnerabilities(report.vulnerabilities);
    out := out + found;
    PrintableAll(report.vulnerabilities);
  }

  lemma PrintableAll(vs: seq<(string, Vulnerability)>)
    ensures Printable(vs) < |vs| <==> exists v :: v in vs && JoinRaises(v.1)
  {
    var n := Printable(vs);
    if n < |vs| {
      assert vs[n] in vs;
    } else {
      forall v | v in vs
        ensures !JoinRaises(v.1)
      {
        var i :| 0 <= i < |vs| && vs[i] == v;
      }
    }
  }

  lemma PrintableIs(vs: seq<(string, Vulnerability)>, n: nat)
    requires n <= |vs| && (forall i :: 0 <= i < n ==> !JoinRaises(vs[i].1)) && (n < |vs| ==> JoinRaises(vs[n].1))
    ensures Printable(vs) == n
  {
  }

  // ---- what is yielded, and when the generator raises ------------------------------------------

  lemma {:induction false} ItemsYield(name: string, severity: Field, items: seq<Item>, f: Finding)
    ensures f in OfItems(name, severity, items)
       <==> f.name == Text(name) && f.severity == severity
            && exists item :: item in items && ItemId(item).Truthy() && ItemId(item) == f.advisory
  {
    if items != [] {
      ItemsYield(name, severity, items[..|items| - 1], f);
      assert items == items[..|items| - 1] + [items[|items| - 1]];
    }
  }

  // Finding f reports item `item` of vulnerability v.
  ghost predicate Reports(v: (string, Vulnerability), f: Finding) {
    && f.name == Text(v.0) && f.severity == v.1.severity && f.advisory.Truthy()
    && exists item :: item in ItemsOf(v.1.via) && ItemId(item) == f.advisory
  }

  lemma {:induction false} VulnerabilitiesYield(vs: seq<(string, Vulnerability)>, f: Finding)
    ensures f in OfVulnerabilities(vs) <==> exists v :: v in vs && Reports(v, f)
  {
    if vs != [] {
      var t, v := vs[..|vs| - 1], vs[|vs| - 1];
      VulnerabilitiesYield(t, f);
      ItemsYield(v.0, v.1.severity, ItemsOf(v.1.via), f);
      assert Reports(v, f) <==> f in OfVulnerability(v);
      assert vs == t + [v];
    }
  }

  // A report whose titles can be joined yields every advisory, and every identified
  // item of every vulnerability, in either shape and in both at once.
  lemma YieldsExactly(show: int -> string, report: Report, f: Finding)
    requires !GeneratorRaises(report)
    ensures f in Yielded(show, report)
       <==> (exists a :: a in report.advisories && OfAdvisory(show, a) == f)
            || (exists v :: v in report.vulnerabilities && Reports(v, f))
  {
    var vs := report.vulnerabilities;
    assert forall i :: 0 <= i < |vs| ==> vs[i] in vs;
    PrintableIs(vs, |vs|);
    assert vs[..|vs|] == vs;
    VulnerabilitiesYield(vs, f);
    var found := OfAdvisories(show, report.advisories);
    if f in found {
      var i :| 0 <= i < |found| && found[i] == f;
      assert report.advisories[i] in report.advisories;
    }
    forall a | a in report.advisories && OfAdvisory(show, a) == f
      ensures f in found
    {
      var i :| 0 <= i < |found| && report.advisories[i] == a;
      assert found[i] == f;
    }
  }

  // A numeric source, the only title an item has, stops the whole gate.
  lemma NumericSourceRaises(name: string, severity: Field, n: int)
    requires n != 0
    ensures var item := Details(Null, Null, Number(n), Null, Null, Null);
            GeneratorRaises(Report([], [(name, Vulnerability(severity, Items([item])))]))
  {
    var item := Details(Null, Null, Number(n), Null, Null, Null);
    var v := (name, Vulnerability(severity, Items([item])));
    assert Unprintable(item) && item in ItemsOf(v.1.via);
    assert JoinRaises(v.1) && v in [v];
  }

  // ---- which field identifies a finding ----------------------------------------------------------

  // What Python's `or` passes over.
  predicate Blank(f: Field) {
    f == Null || f == Text("") || f == Number(0)
  }

  // Some candidate is the first that is not blank, and f is it.
  ghost predicate FirstOf(f: Field, candidates: seq<Field>) {
    (forall k :: 0 <= k < |candidates| && !Blank(candidates[k]) && AllBlank(candidates[..k]) ==> f == candidates[k])
    && (AllBlank(candidates) ==> Blank(f))
  }

  ghost predicate AllBlank(fs: seq<Field>) {
    forall i :: 0 <= i < |fs| ==> Blank(fs[i])
  }

  lemma OrIsFirst(f: Field, g: Field, rest: seq<Field>)
    requires FirstOf(g, rest)
    ensures FirstOf(f.Or(g), [f] + rest)
  {
    var all := [f] + rest;
    forall k | 0 <= k < |all| && !Blank(all[k]) && AllBlank(all[..k])
      ensures f.Or(g) == all[k]
    {
      if k > 0 {
        assert all[..k][0] == f && all[..k][1..] == rest[..k - 1];
      }
    }
    if AllBlank(all) {
      assert all[0] == f && all[1..] == rest;
    }
  }

  lemma LastIsFirst(f: Field)
    ensures FirstOf(f, [f])
  {
    assert [f][..0] == [] && [f][0] == f;
  }

  // An advisory is known by its GHSA id; else by its URL, its first CVE, its number, its
  // title, its text or its overview.
  lemma AdvisoryIdIsFirst(show: int -> string, a: Advisory)
    ensures FirstOf(PickAdvisoryId(show, a), [
              a.githubId, a.url, if a.cves == [] then Null else a.cves[0],
              (match a.id case Null => Null case Text(s) => Text(s) case Number(n) => Text(show(n))),
              a.title, a.advisory, a.overview])
  {
    hide FirstOf, Field.Or;
    var cve := if a.cves == [] then Null else a.cves[0];
    var id := match a.id case Null => Null case Text(s) => Text(s) case Number(n) => Text(show(n));
    LastIsFirst(a.overview);
    var f5 := a.advisory.Or(a.overview);
    OrIsFirst(a.advisory, a.overview, [a.overview]);
    OrIsFirst(a.title, f5, [a.advisory] + [a.overview]);
    var f4 := a.title.Or(f5);
    OrIsFirst(id, f4, [a.title] + ([a.advisory] + [a.overview]));
    var f3 := id.Or(f4);
    OrIsFirst(cve, f3, [id] + ([a.title] + ([a.advisory] + [a.overview])));
    var f2 := cve.Or(f3);
    OrIsFirst(a.url, f2, [cve] + ([id] + ([a.title] + ([a.advisory] + [a.overview]))));
    OrIsFirst(a.githubId, a.url.Or(f2), [a.url] + ([cve] + ([id] + ([a.title] + ([a.advisory] + [a.overview])))));
    assert PickAdvisoryId(show, a) == a.githubId.Or(a.url.Or(f2));
    assert [a.githubId] + ([a.url] + ([cve] + ([id] + ([a.title] + ([a.advisory] + [a.overview])))))
        == [a.githubId, a.url, cve, id, a.title, a.advisory, a.overview];
  }

  // The same for an object in a "via" list: its GHSA id, URL, source, title or name; its
  // title is its title, URL, text or source.
  lemma ItemIdIsFirst(githubId: Field, url: Field, source: Field, title: Field, name: Field, advisory: Field)
    ensures var item := Details(githubId, url, source, title, name, advisory);
            && FirstOf(ItemId(item), [githubId, url, source, title, name])
            && FirstOf(ItemTitle(item), [title, url, advisory, source])
  {
    hide FirstOf, Field.Or;
    LastIsFirst(name);
    OrIsFirst(title, name, [name]);
    OrIsFirst(source, title.Or(name), [title] + [name]);
    OrIsFirst(url, source.Or(title.Or(name)), [source] + ([title] + [name]));
    OrIsFirst(githubId, url.Or(source.Or(title.Or(name))), [url] + ([source] + ([title] + [name])));
    assert [githubId] + ([url] + ([source] + ([title] + [name]))) == [githubId, url, source, title, name];
    LastIsFirst(source);
    OrIsFirst(advisory, source, [source]);
    OrIsFirst(url, advisory.Or(source), [advisory] + [source]);
    OrIsFirst(title, url.Or(advisory.Or(source)), [url] + ([advisory] + [source]));
    assert [title] + ([url] + ([advisory] + [source])) == [title, url, advisory, source];
  }

  // The GHSA id identifies the finding, whichever shape reports it.
  lemma GhsaFirst(show: int -> string, report: Report, a: Advisory)
    requires !GeneratorRaises(report) && a in report.advisories && !Blank(a.githubId)
    ensures exists f :: f in Yielded(show, report) && f.advisory == a.githubId && f.severity == a.severity
                        && f.name == if Blank(a.moduleName) then a.name else a.moduleName
  {
    var f := OfAdvisory(show, a);
    YieldsExactly(show, report, f);
    assert f.advisory == a.githubId;
  }

  lemma GhsaFirstInVia(
    show: int -> string, report: Report, name: string, severity: Field, items: seq<Item>, item: Item)
    requires !GeneratorRaises(report) && (name, Vulnerability(severity, Items(items))) in report.vulnerabilities
    requires item in items && item.Details? && !Blank(item.githubId)
    ensures Finding(Text(name), severity, item.githubId) in Yielded(show, report)
  {
    var v := (name, Vulnerability(severity, Items(items)));
    var f := Finding(Text(name), severity, item.githubId);
    assert Reports(v, f) by {
      assert item in ItemsOf(v.1.via) && ItemId(item) == f.advisory;
    }
    YieldsExactly(show, report, f);
  }

  // A text in place of an object, alone or in a list, is its own advisory.
  lemma TextIsAdvisory(show: int -> string, report: Report, name: string, severity: Field, via: Via, s: string)
    requires !GeneratorRaises(report) && (name, Vulnerability(severity, via)) in report.vulnerabilities && s != ""
    requires via == Single(s) || (via.Items? && Plain(s) in via.items)
    ensures Finding(Text(name), severity, Text(s)) in Yielded(show, report)
  {
    var v := (name, Vulnerability(severity, via));
    var f := Finding(Text(name), severity, Text(s));
    assert Reports(v, f) by {
      assert Plain(s) in ItemsOf(v.1.via) && ItemId(Plain(s)) == f.advisory;
    }
    YieldsExactly(show, report, f);
  }

  // The findings come in the order of the items and of the vulnerabilities.
  lemma {:induction false} ItemsInOrder(name: string, severity: Field, a: seq<Item>, b: seq<Item>)
    ensures OfItems(name, severity, a + b) == OfItems(name, severity, a) + OfItems(name, severity, b)
  {
    if b == [] {
      assert a + b == a;
    } else {
      assert (a + b)[..|a + b| - 1] == a + b[..|b| - 1];
      ItemsInOrder(name, severity, a, b[..|b| - 1]);
    }
  }

  lemma {:induction false} VulnerabilitiesInOrder(a: seq<(string, Vulnerability)>, b: seq<(string, Vulnerability)>)
    ensures OfVulnerabilities(a + b) == OfVulnerabilities(a) + OfVulnerabilities(b)
  {
    hide OfVulnerability;
    if b == [] {
      assert a + b == a;
    } else {
      var t, v := b[..|b| - 1], b[|b| - 1];
      VulnerabilitiesInOrder(a, t);
      assert (a + b)[..|a + b| - 1] == a + t && (a + b)[|a + b| - 1] == v;
      assert OfVulnerabilities(a) + (OfVulnerabilities(t) + OfVulnerability(v))
          == (OfVulnerabilities(a) + OfVulnerabilities(t)) + OfVulnerability(v);
    }
  }

  // The generator raises exactly if some title to be joined is a number other than 0.
  lemma RaisesExactly(report: Report)
    ensures GeneratorRaises(report)
       <==> exists v, item :: v in report.vulnerabilities && item in ItemsOf(v.1.via)
              && ItemTitle(item).Number? && ItemTitle(item) != Number(0)
  {
    if GeneratorRaises(report) {
      var v :| v in report.vulnerabilities && JoinRaises(v.1);
      var item :| item in ItemsOf(v.1.via) && Unprintable(item);
      assert v in report.vulnerabilities && item in ItemsOf(v.1.via) && ItemTitle(item) != Number(0);
    }
    if v, item :| v in report.vulnerabilities && item in ItemsOf(v.1.via)
                  && ItemTitle(item).Number? && ItemTitle(item) != Number(0) {
      assert Unprintable(item) && JoinRaises(v.1);
    }
  }
}
