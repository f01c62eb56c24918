// The verdict of the audit-exception gate (tools/check_pnpm_audit_exceptions.py:117-243).
module AuditGate {
  import opened Lists
  import opened ExceptionParser
  import opened AuditReport

  // What Python's libraries do: str.lower of a non-empty string, str of a number, and
  // date.fromisoformat as a day number.
  datatype Python = Python(lower: string -> string, show: int -> string, date: string -> Option<int>)

  const HIGH_SEVERITIES: set<string> := {"high", "critical"}

  const REQUIRED_FIELDS: set<string> := {"package", "advisory", "severity", "mitigation", "expires_on"}

  type Key = (string, string)

  // .strip().lower().
  function Normalized(py: Python, s: string): string {
    var stripped := Strip(s);
    if stripped == "" then "" else py.lower(stripped)
  }

  // ---- exceptions ------------------------------------------------------------------------

  function Get(e: Entry, field: string): string {
    if field in e then e[field] else ""
  }

  predicate Complete(e: Entry) {
    forall field :: field in REQUIRED_FIELDS ==> Get(e, field) != ""
  }

  function KeyOf(py: Python, e: Entry): Key {
    (Strip(Get(e, "package")), Normalized(py, Get(e, "advisory")))
  }

  function SeverityOf(py: Python, e: Entry): string {
    Normalized(py, Get(e, "severity"))
  }

  function ExpiryOf(py: Python, e: Entry): Option<int> {
    py.date(Get(e, "expires_on"))
  }

  predicate Accepted(py: Python, e: Entry) {
    Complete(e) && ExpiryOf(py, e).Some? && KeyOf(py, e).0 != "" && KeyOf(py, e).1 != ""
  }

  // Every exception is complete, validly dated and has a key of its own.
  ghost predicate Listed(py: Python, excs: seq<Entry>) {
    && (forall i :: 0 <= i < |excs| ==> Accepted(py, excs[i]))
    && forall i, j :: 0 <= i < j < |excs| ==> KeyOf(py, excs[i]) != KeyOf(py, excs[j])
  }

  // ---- findings --------------------------------------------------------------------------

  // .strip() of a number raises.
  predicate Unstrippable(f: Finding) {
    f.severity.Number? && f.severity.Truthy()
  }

  function FoundSeverity(py: Python, f: Finding): string {
    if f.severity.Text? then Normalized(py, f.severity.s) else ""
  }

  function FoundKey(py: Python, f: Finding): Key {
    (Strip(Shown(py.show, f.name)), Normalized(py, Shown(py.show, f.advisory)))
  }

  predicate Severe(py: Python, f: Finding) {
    FoundSeverity(py, f) in HIGH_SEVERITIES && f.name.Truthy()
  }

  // A severe, identified finding whose key no earlier severe finding has.
  ghost predicate First(py: Python, fs: seq<Finding>, i: nat) {
    && i < |fs| && Severe(py, fs[i]) && FoundKey(py, fs[i]).1 != ""
    && forall j :: 0 <= j < i && Severe(py, fs[j]) ==> FoundKey(py, fs[j]) != FoundKey(py, fs[i])
  }

  // Exception e covers finding f on that day.
  predicate Covers(py: Python, e: Entry, f: Finding, today: int) {
    && KeyOf(py, e) == FoundKey(py, f)
    && (SeverityOf(py, e) == "" || SeverityOf(py, e) == FoundSeverity(py, f))
    && ExpiryOf(py, e).Some? && ExpiryOf(py, e).value >= today
  }

  ghost predicate Covered(py: Python, excs: seq<Entry>, f: Finding, today: int) {
    exists e :: e in excs && Covers(py, e, f, today)
  }

  // Every severe finding is identified, and the first one of each key is covered.
  ghost predicate AllCovered(py: Python, excs: seq<Entry>, fs: seq<Finding>, today: int) {
    && (forall i :: 0 <= i < |fs| && Severe(py, fs[i]) ==> FoundKey(py, fs[i]).1 != "")
    && forall i: nat :: First(py, fs, i) ==> Covered(py, excs, fs[i], today)
  }

  ghost predicate Compliant(py: Python, excs: seq<Entry>, fs: seq<Finding>, today: int) {
    Listed(py, excs) && AllCovered(py, excs, fs, today)
  }

  // ---- the index ---------------------------------------------------------------------------

  datatype Indexed = Indexed(severity: string, expiresOn: int)

  datatype Issue =
    | Incomplete | InvalidDate | BlankKey | Duplicate | Unidentified | SeverityMismatch | NoException | Expired

  predicate Holds(py: Python, index: map<Key, Indexed>, e: Entry) {
    && KeyOf(py, e) in index && ExpiryOf(py, e).Some?
    && index[KeyOf(py, e)] == Indexed(SeverityOf(py, e), ExpiryOf(py, e).value)
  }

  // The index of a list without issues.
  ghost predicate Indexes(py: Python, excs: seq<Entry>, index: map<Key, Indexed>) {
    && (forall e :: e in excs ==> Holds(py, index, e))
    && forall k :: k in index ==> exists e :: e in excs && KeyOf(py, e) == k
  }

  // One more exception.
  lemma ListedSnoc(py: Python, excs: seq<Entry>, e: Entry)
    ensures Listed(py, excs + [e])
       <==> Listed(py, excs) && Accepted(py, e) && forall x :: x in excs ==> KeyOf(py, x) != KeyOf(py, e)
  {
    hide Accepted, KeyOf;
    var all := excs + [e];
    if Listed(py, all) {
      assert forall i :: 0 <= i < |excs| ==> all[i] == excs[i];
      assert all[|excs|] == e;
    }
    if Listed(py, excs) && Accepted(py, e) && forall x :: x in excs ==> KeyOf(py, x) != KeyOf(py, e) {
      forall i, j | 0 <= i < j < |all|
        ensures KeyOf(py, all[i]) != KeyOf(py, all[j])
      {
        assert all[i] == excs[i] && excs[i] in excs;
      }
    }
  }

  lemma IndexesSnoc(py: Python, excs: seq<Entry>, e: Entry, index: map<Key, Indexed>)
    requires Indexes(py, excs, index) && ExpiryOf(py, e).Some? && KeyOf(py, e) !in index
    ensures Indexes(py, excs + [e], index[KeyOf(py, e) := Indexed(SeverityOf(py, e), ExpiryOf(py, e).value)])
  {
    hide KeyOf, SeverityOf, ExpiryOf;
    var all, index' := excs + [e], index[KeyOf(py, e) := Indexed(SeverityOf(py, e), ExpiryOf(py, e).value)];
    assert all[|excs|] == e;
    forall k | k in index'
      ensures exists x :: x in all && KeyOf(py, x) == k
    {
      if k in index {
        var x :| x in excs && KeyOf(py, x) == k;
        assert x in all;
      }
    }
  }

  // The first loop of main.
  method BuildIndex(py: Python, excs: seq<Entry>) returns (index: map<Key, Indexed>, errors: seq<Issue>)
    ensures errors == [] <==> Listed(py, excs)
    ensures errors == [] ==> Indexes(py, excs, index)
  {
    hide KeyOf, SeverityOf, Complete, Listed, Indexes;
    index, errors := map[], [];
    NothingListed(py);
    for i := 0 to |excs|
      invariant errors == [] <==> Listed(py, excs[..i])
      invariant errors == [] ==> Indexes(py, excs[..i], index)
    {
      var exc := excs[i];
      assert excs[..i + 1] == excs[..i] + [exc];
      ListedSnoc(py, excs[..i], exc);
      var key := KeyOf(py, exc);
      if !Complete(exc) {
        errors := errors + [Incomplete];
      } else if ExpiryOf(py, exc).None? {
        errors := errors + [InvalidDate];
      } else if key.0 == "" || key.1 == "" {
        errors := errors + [BlankKey];
      } else if key in index {
        KnownKey(py, excs[..i], index, key, errors);
        errors := errors + [Duplicate];
      } else {
        if errors == [] {
          FreshKey(py, excs[..i], index, key);
          IndexesSnoc(py, excs[..i], exc, index);
        }
        index := index[key := Indexed(SeverityOf(py, exc), ExpiryOf(py, exc).value)];
      }
    }
    assert excs[..|excs|] == excs;
  }

  lemma NothingListed(py: Python)
    ensures Listed(py, []) && Indexes(py, [], map[])
  {
  }

  lemma KnownKey(py: Python, excs: seq<Entry>, index: map<Key, Indexed>, key: Key, errors: seq<Issue>)
    requires errors == [] ==> Indexes(py, excs, index)
    requires key in index
    ensures errors == [] ==> exists x :: x in excs && KeyOf(py, x) == key
  {
  }

  lemma FreshKey(py: Python, excs: seq<Entry>, index: map<Key, Indexed>, key: Key)
    requires Indexes(py, excs, index) && key !in index
    ensures forall x :: x in excs ==> KeyOf(py, x) != key
  {
  }

  // ---- the scan ------------------------------------------------------------------------------

  // What the index says about a finding.
  function Lookup(py: Python, index: map<Key, Indexed>, f: Finding, today: int): seq<Issue> {
    var key := FoundKey(py, f);
    if key !in index then [NoException]
    else
      (if index[key].severity != "" && index[key].severity != FoundSeverity(py, f) then [SeverityMismatch] else [])
      + if index[key].expiresOn < today then [Expired] else []
  }

  lemma LookupIsCovered(py: Python, excs: seq<Entry>, index: map<Key, Indexed>, f: Finding, today: int)
    requires Indexes(py, excs, index)
    ensures Lookup(py, index, f, today) == [] <==> Covered(py, excs, f, today)
  {
    hide KeyOf, SeverityOf, ExpiryOf, FoundKey, FoundSeverity;
    var key := FoundKey(py, f);
    if key in index {
      var e :| e in excs && KeyOf(py, e) == key;
      assert Lookup(py, index, f, today) == [] <==> Covers(py, e, f, today);
    }
  }

  // The keys of the severe, identified findings among the first i.
  ghost predicate Seen(py: Python, fs: seq<Finding>, i: nat, seen: set<Key>)
    requires i <= |fs|
  {
    && (forall j :: 0 <= j < i && Severe(py, fs[j]) && FoundKey(py, fs[j]).1 != "" ==> FoundKey(py, fs[j]) in seen)
    && forall k :: k in seen ==> exists j :: 0 <= j < i && Severe(py, fs[j]) && FoundKey(py, fs[j]) == k && k.1 != ""
  }

  // The first i findings give no issue.
  ghost predicate Clean(py: Python, index: map<Key, Indexed>, fs: seq<Finding>, today: int, i: nat)
    requires i <= |fs|
  {
    && (forall j :: 0 <= j < i && Severe(py, fs[j]) ==> FoundKey(py, fs[j]).1 != "")
    && forall j: nat :: j < i && First(py, fs, j) ==> Lookup(py, index, fs[j], today) == []
  }

  // A key that has been seen is not the first of its kind, and one that has not is.
  lemma SeenBefore(py: Python, fs: seq<Finding>, i: nat, seen: set<Key>)
    requires i < |fs| && Seen(py, fs, i, seen) && Severe(py, fs[i]) && FoundKey(py, fs[i]).1 != ""
    ensures First(py, fs, i) <==> FoundKey(py, fs[i]) !in seen
  {
    hide FoundKey, Severe;
  }

  lemma SeenNext(py: Python, fs: seq<Finding>, i: nat, seen: set<Key>, seen': set<Key>)
    requires i < |fs| && Seen(py, fs, i, seen)
    requires seen' == if Severe(py, fs[i]) && FoundKey(py, fs[i]).1 != "" then seen + {FoundKey(py, fs[i])} else seen
    ensures Seen(py, fs, i + 1, seen')
  {
    hide FoundKey, Severe;
    forall k | k in seen'
      ensures exists j :: 0 <= j < i + 1 && Severe(py, fs[j]) && FoundKey(py, fs[j]) == k && k.1 != ""
    {
      if k in seen {
        var j :| 0 <= j < i && Severe(py, fs[j]) && FoundKey(py, fs[j]) == k && k.1 != "";
        assert Severe(py, fs[j]) && FoundKey(py, fs[j]) == k;
      }
    }
  }

  lemma CleanNext(py: Python, index: map<Key, Indexed>, fs: seq<Finding>, today: int, i: nat)
    requires i < |fs|
    ensures Clean(py, index, fs, today, i + 1)
       <==> Clean(py, index, fs, today, i) && (Severe(py, fs[i]) ==> FoundKey(py, fs[i]).1 != "")
            && (First(py, fs, i) ==> Lookup(py, index, fs[i], today) == [])
  {
    hide FoundKey, Severe, First, Lookup;
  }

  // One finding: its issues, and the keys seen after it.
  method ScanOne(py: Python, index: map<Key, Indexed>, fs: seq<Finding>, i: nat, today: int, seen: set<Key>)
    returns (issues: seq<Issue>, seen': set<Key>)
    requires i < |fs| && Seen(py, fs, i, seen)
    ensures Seen(py, fs, i + 1, seen')
    ensures Clean(py, index, fs, today, i + 1) <==> Clean(py, index, fs, today, i) && issues == []
  {
    hide FoundKey, FoundSeverity, Seen, Clean, First, Lookup;
    var f := fs[i];
    CleanNext(py, index, fs, today, i);
    if FoundSeverity(py, f) !in HIGH_SEVERITIES || !f.name.Truthy() {
      SeenNext(py, fs, i, seen, seen);
      NotFirst(py, fs, i);
      return [], seen;
    }
    var key := FoundKey(py, f);
    if key.1 == "" {
      SeenNext(py, fs, i, seen, seen);
      return [Unidentified], seen;
    }
    SeenBefore(py, fs, i, seen);
    if key in seen {
      AlreadyThere(key, seen);
      SeenNext(py, fs, i, seen, seen);
      return [], seen;
    }
    seen' := seen + {key};
    SeenNext(py, fs, i, seen, seen');
    issues := Lookup(py, index, f, today);
  }

  lemma AlreadyThere<K>(k: K, s: set<K>)
    requires k in s
    ensures s + {k} == s
  {
  }

  lemma NotFirst(py: Python, fs: seq<Finding>, i: nat)
    requires i < |fs| && !Severe(py, fs[i])
    ensures !First(py, fs, i)
  {
  }

  // The second loop of main; None when it raises.
  method Scan(py: Python, index: map<Key, Indexed>, fs: seq<Finding>, today: int) returns (errors: Option<seq<Issue>>)
    ensures errors.None? <==> exists i :: 0 <= i < |fs| && Unstrippable(fs[i])
    ensures errors.Some? ==> (errors.value == [] <==> Clean(py, index, fs, today, |fs|))
  {
    hide Clean, Seen;
    var issues: seq<Issue>, seen: set<Key> := [], {};
    NothingSeen(py, index, fs, today);
    for i := 0 to |fs|
      invariant forall k :: 0 <= k < i ==> !Unstrippable(fs[k])
      invariant Seen(py, fs, i, seen)
      invariant issues == [] <==> Clean(py, index, fs, today, i)
    {
      if Unstrippable(fs[i]) {
        return None;
      }
      var more;
      more, seen := ScanOne(py, index, fs, i, today, seen);
      issues := issues + more;
    }
    errors := Some(issues);
  }

  lemma NothingSeen(py: Python, index: map<Key, Indexed>, fs: seq<Finding>, today: int)
    ensures Seen(py, fs, 0, {}) && Clean(py, index, fs, today, 0)
  {
  }

  lemma CleanIsCovered(py: Python, excs: seq<Entry>, index: map<Key, Indexed>, fs: seq<Finding>, today: int)
    requires Indexes(py, excs, index)
    ensures Clean(py, index, fs, today, |fs|) <==> AllCovered(py, excs, fs, today)
  {
    hide Indexes, Severe, FoundKey, Lookup, Covered;
    forall j: nat | First(py, fs, j)
      ensures Lookup(py, index, fs[j], today) == [] <==> Covered(py, excs, fs[j], today)
    {
      LookupIsCovered(py, excs, index, fs[j], today);
    }
  }

  // ---- main ---------------------------------------------------------------------------------

  // The exit code, or an exception that nothing catches.
  datatype Verdict = Returns(code: int) | Raises

  ghost predicate Stumbles(py: Python, lines: seq<string>, report: Report) {
    || Parse(lines).Err? || GeneratorRaises(report)
    || exists f :: f in Yielded(py.show, report) && Unstrippable(f)
  }

  ghost predicate Passes(py: Python, lines: seq<string>, report: Report, today: int) {
    !Stumbles(py, lines, report) && Compliant(py, Parse(lines).value, Yielded(py.show, report), today)
  }

  ghost function VerdictOf(py: Python, lines: seq<string>, report: Report, today: int): Verdict {
    if Stumbles(py, lines, report) then Raises else Returns(if Passes(py, lines, report, today) then 0 else 1)
  }

  lemma Strippable(fs: seq<Finding>)
    ensures (exists i :: 0 <= i < |fs| && Unstrippable(fs[i])) <==> exists f :: f in fs && Unstrippable(f)
  {
    forall f | f in fs && Unstrippable(f)
      ensures exists i :: 0 <= i < |fs| && Unstrippable(fs[i])
    {
      var i :| 0 <= i < |fs| && fs[i] == f;
    }
  }

  // main, for the lines of the exceptions file, the report and the day of the run.
  method Run(py: Python, lines: seq<string>, report: Report, today: int) returns (r: Verdict)
    ensures r.Raises? <==> Stumbles(py, lines, report)
    ensures r == Returns(0) <==> Passes(py, lines, report, today)
    ensures r == VerdictOf(py, lines, report, today)
  {
    hide Listed, AllCovered, Clean, Yielded, GeneratorRaises, Indexes, Parse;
    var parsed := ParseExceptions(lines);
    if parsed.Err? {
      return Raises;
    }
    var index, errors := BuildIndex(py, parsed.value);
    var findings, raises := IterVulns(py.show, report);
    var scanned := Scan(py, index, findings, today);
    Strippable(findings);
    if scanned.None? || raises {
      return Raises;
    }
    if errors == [] {
      CleanIsCovered(py, parsed.value, index, findings, today);
    }
    r := Returns(if errors + scanned.value == [] then 0 else 1);
  }

  // ---- stability ------------------------------------------------------------------------------

  // A passing gate passes on every earlier day.
  lemma PassesEarlier(py: Python, lines: seq<string>, report: Report, today: int, earlier: int)
    requires Passes(py, lines, report, today) && earlier <= today
    ensures Passes(py, lines, report, earlier)
  {
    hide Yielded, GeneratorRaises, Parse, Compliant;
    CompliantEarlier(py, Parse(lines).value, Yielded(py.show, report), today, earlier);
  }

  lemma CompliantEarlier(py: Python, excs: seq<Entry>, fs: seq<Finding>, today: int, earlier: int)
    requires Compliant(py, excs, fs, today) && earlier <= today
    ensures Compliant(py, excs, fs, earlier)
  {
    hide Listed, KeyOf, SeverityOf, FoundKey, FoundSeverity, Severe, ExpiryOf;
    forall i: nat | First(py, fs, i)
      ensures Covered(py, excs, fs[i], earlier)
    {
      assert Covered(py, excs, fs[i], today);
      var e :| e in excs && Covers(py, e, fs[i], today);
      assert Covers(py, e, fs[i], earlier);
    }
  }

  // The same without positions: no exception twice, and no two with the same key.
  ghost predicate ListedAsBag(py: Python, excs: seq<Entry>) {
    && (forall e :: e in excs ==> Accepted(py, e))
    && (forall e :: multiset(excs)[e] <= 1)
    && forall e, x :: e in excs && x in excs && KeyOf(py, e) == KeyOf(py, x) ==> e == x
  }

  lemma {:induction false} ListedIsBag(py: Python, excs: seq<Entry>)
    ensures Listed(py, excs) <==> ListedAsBag(py, excs)
  {
    hide Accepted, KeyOf;
    if excs == [] {
    } else {
      var t, e := excs[..|excs| - 1], excs[|excs| - 1];
      assert excs == t + [e];
      ListedIsBag(py, t);
      ListedSnoc(py, t, e);
      BagSnoc(py, t, e);
    }
  }

  lemma BagSnoc(py: Python, t: seq<Entry>, e: Entry)
    ensures ListedAsBag(py, t + [e])
       <==> ListedAsBag(py, t) && Accepted(py, e) && forall x :: x in t ==> KeyOf(py, x) != KeyOf(py, e)
  {
    hide Accepted, KeyOf;
    var all := t + [e];
    assert forall x :: x in all <==> x in t || x == e;
    CountSnoc(t, e);
    if ListedAsBag(py, all) {
      forall x | x in t
        ensures KeyOf(py, x) != KeyOf(py, e)
      {
        assert multiset(t)[x] >= 1 && multiset(all)[x] <= 1;
      }
      forall x
        ensures multiset(t)[x] <= 1
      {
        assert multiset(all)[x] <= 1;
      }
    }
    if ListedAsBag(py, t) && Accepted(py, e) && forall x :: x in t ==> KeyOf(py, x) != KeyOf(py, e) {
      assert e !in t;
      forall x
        ensures multiset(all)[x] <= 1
      {
        assert multiset(t)[x] <= 1;
      }
    }
  }

  lemma CountSnoc<T>(t: seq<T>, e: T)
    ensures forall x :: multiset(t + [e])[x] == multiset(t)[x] + if x == e then 1 else 0
  {
    assert multiset(t + [e]) == multiset(t) + multiset{e};
  }

  // The order of the exceptions plays no role for compliance.
  lemma CompliantInAnyOrder(py: Python, excs: seq<Entry>, excs': seq<Entry>, fs: seq<Finding>, today: int)
    requires multiset(excs) == multiset(excs')
    ensures Compliant(py, excs, fs, today) <==> Compliant(py, excs', fs, today)
  {
    hide Accepted, KeyOf, Covers, First, Severe, FoundKey;
    SameMembers(excs, excs');
    ListedIsBag(py, excs);
    ListedIsBag(py, excs');
    assert forall f :: Covered(py, excs, f, today) <==> Covered(py, excs', f, today);
  }

  lemma SameMembers<T>(s: seq<T>, t: seq<T>)
    requires multiset(s) == multiset(t)
    ensures forall x :: x in s <==> x in t
  {
    forall x
      ensures x in s <==> x in t
    {
      assert x in s <==> x in multiset(s);
      assert x in t <==> x in multiset(t);
    }
  }

  // A valid exception with a new key keeps a list compliant, wherever it is put.
  lemma CompliantWithMore(py: Python, a: seq<Entry>, e: Entry, b: seq<Entry>, fs: seq<Finding>, today: int)
    requires Accepted(py, e) && forall x :: x in a + b ==> KeyOf(py, x) != KeyOf(py, e)
    ensures Compliant(py, a + b, fs, today) ==> Compliant(py, a + [e] + b, fs, today)
    ensures (forall i :: 0 <= i < |fs| ==> !Covers(py, e, fs[i], today)) ==>
              (Compliant(py, a + [e] + b, fs, today) <==> Compliant(py, a + b, fs, today))
  {
    hide Accepted, KeyOf, Covers, AllCovered, Listed;
    ListedSnoc(py, a + b, e);
    assert multiset(a + [e] + b) == multiset(a + b + [e]);
    CompliantInAnyOrder(py, a + [e] + b, a + b + [e], fs, today);
    assert forall x :: x in a + b + [e] <==> x in a + b || x == e;
    AddedCover(py, a + b, a + b + [e], e, fs, today);
  }

  lemma AddedCover(py: Python, excs: seq<Entry>, more: seq<Entry>, e: Entry, fs: seq<Finding>, today: int)
    requires forall x :: x in more <==> x in excs || x == e
    ensures AllCovered(py, excs, fs, today) ==> AllCovered(py, more, fs, today)
    ensures (forall i :: 0 <= i < |fs| ==> !Covers(py, e, fs[i], today)) ==>
              (AllCovered(py, more, fs, today) ==> AllCovered(py, excs, fs, today))
  {
    hide Covers, Severe, FoundKey;
  }

  // No compliant list stays so without an exception that some finding needs.
  lemma CompliantWithout(py: Python, a: seq<Entry>, e: Entry, b: seq<Entry>, fs: seq<Finding>, today: int, i: nat)
    requires Compliant(py, a + [e] + b, fs, today) && First(py, fs, i) && KeyOf(py, e) == FoundKey(py, fs[i])
    ensures !Compliant(py, a + b, fs, today)
  {
    hide Accepted, KeyOf, Severe, FoundKey;
    var all := a + [e] + b;
    assert all[|a|] == e;
    forall x | x in a + b
      ensures KeyOf(py, x) != KeyOf(py, e)
    {
      var j :| 0 <= j < |a + b| && (a + b)[j] == x;
      assert all[if j < |a| then j else j + 1] == x;
    }
    assert !Covered(py, a + b, fs[i], today);
  }

  // ---- stability of the verdict -----------------------------------------------------------------

  // Files that list the same exceptions, in whatever order, get the same verdict.
  lemma OrderIrrelevant(py: Python, lines: seq<string>, lines': seq<string>, report: Report, today: int)
    requires Parse(lines).Ok? && Parse(lines').Ok?
    requires multiset(Parse(lines).value) == multiset(Parse(lines').value)
    ensures VerdictOf(py, lines, report, today) == VerdictOf(py, lines', report, today)
  {
    hide Parse, Yielded, GeneratorRaises, Compliant;
    CompliantInAnyOrder(py, Parse(lines).value, Parse(lines').value, Yielded(py.show, report), today);
  }

  // One more valid exception with a new key, put anywhere, keeps a passing gate passing,
  // and changes no verdict unless it covers a finding.
  lemma UnusedException(
    py: Python, lines: seq<string>, lines': seq<string>, a: seq<Entry>, e: Entry, b: seq<Entry>, report: Report,
    today: int)
    requires Parse(lines) == Ok(a + b) && Parse(lines') == Ok(a + [e] + b)
    requires Accepted(py, e) && forall x :: x in a + b ==> KeyOf(py, x) != KeyOf(py, e)
    ensures Passes(py, lines, report, today) ==> Passes(py, lines', report, today)
    ensures (forall f :: f in Yielded(py.show, report) ==> !Covers(py, e, f, today)) ==>
              VerdictOf(py, lines', report, today) == VerdictOf(py, lines, report, today)
  {
    hide Parse, Yielded, GeneratorRaises, Compliant, Accepted, KeyOf, Covers;
    CompliantWithMore(py, a, e, b, Yielded(py.show, report), today);
  }

  // Without an exception that some first finding needs, a passing gate fails with code 1.
  lemma NeededException(
    py: Python, lines: seq<string>, lines': seq<string>, a: seq<Entry>, e: Entry, b: seq<Entry>, report: Report,
    today: int, i: nat)
    requires Parse(lines) == Ok(a + b) && Parse(lines') == Ok(a + [e] + b) && Passes(py, lines', report, today)
    requires First(py, Yielded(py.show, report), i) && KeyOf(py, e) == FoundKey(py, Yielded(py.show, report)[i])
    ensures VerdictOf(py, lines, report, today) == Returns(1)
  {
    hide Parse, Yielded, GeneratorRaises, Compliant, KeyOf, FoundKey, First;
    CompliantWithout(py, a, e, b, Yielded(py.show, report), today, i);
  }

  // ---- the verdict in terms of the two files ------------------------------------------------------

  // str.lower leaves the two words as they are.
  predicate KeepsWords(py: Python) {
    py.lower("high") == "high" && py.lower("critical") == "critical"
  }

  // A text field, stripped and in lower case.
  predicate Reads(py: Python, text: string, word: string) {
    Strip(text) != "" && py.lower(Strip(text)) == word
  }

  // A finding is severe exactly if it has a name and its severity reads "high" or "critical".
  lemma SevereExactly(py: Python, f: Finding)
    ensures Severe(py, f)
       <==> f.name != Null && f.name != Text("") && f.name != Number(0)
            && f.severity.Text? && (Reads(py, f.severity.s, "high") || Reads(py, f.severity.s, "critical"))
  {
  }

  // An exception is accepted exactly if its five fields are set, its day is a date, and its
  // package and its advisory are not blank.
  lemma AcceptedExactly(py: Python, e: Entry)
    ensures Accepted(py, e)
       <==> "package" in e && "advisory" in e && "severity" in e && "mitigation" in e && "expires_on" in e
            && e["severity"] != "" && e["mitigation"] != "" && e["expires_on"] != ""
            && py.date(e["expires_on"]).Some? && Strip(e["package"]) != ""
            && Strip(e["advisory"]) != "" && py.lower(Strip(e["advisory"])) != ""
  {
    BlankStrips();
    assert "package" in REQUIRED_FIELDS && "advisory" in REQUIRED_FIELDS && "severity" in REQUIRED_FIELDS;
    assert "mitigation" in REQUIRED_FIELDS && "expires_on" in REQUIRED_FIELDS;
  }

  lemma BlankStrips()
    ensures Strip("") == ""
  {
  }

  // An exception and a finding have the same package and advisory.
  ghost predicate SamePlace(py: Python, e: Entry, package: string, advisory: string) {
    && "package" in e && Strip(e["package"]) == Strip(package)
    && "advisory" in e && Strip(e["advisory"]) != "" && Strip(advisory) != ""
    && py.lower(Strip(e["advisory"])) == py.lower(Strip(advisory))
  }

  lemma KeysExactly(py: Python, e: Entry, f: Finding)
    requires Accepted(py, e) && FoundKey(py, f).1 != ""
    ensures KeyOf(py, e) == FoundKey(py, f) <==> SamePlace(py, e, Shown(py.show, f.name), Shown(py.show, f.advisory))
  {
    hide Strip;
    AcceptedExactly(py, e);
  }

  // It covers the finding exactly if its severity, where it is not blank, reads the same,
  // and its day is not past.
  lemma CoversExactly(py: Python, e: Entry, f: Finding, today: int)
    requires Accepted(py, e) && Severe(py, f) && KeyOf(py, e) == FoundKey(py, f)
    ensures Covers(py, e, f, today)
       <==> py.date(e["expires_on"]).value >= today
            && (Strip(e["severity"]) == "" || py.lower(Strip(e["severity"])) == ""
                || py.lower(Strip(e["severity"])) == py.lower(Strip(f.severity.s)))
  {
    hide Strip;
    AcceptedExactly(py, e);
    SevereExactly(py, f);
  }

  // The first finding with the key of a severe, identified one.
  lemma FirstOfKey(py: Python, fs: seq<Finding>, i: nat) returns (j: nat)
    requires i < |fs| && Severe(py, fs[i]) && FoundKey(py, fs[i]).1 != ""
    ensures First(py, fs, j) && FoundKey(py, fs[j]) == FoundKey(py, fs[i])
    decreases i
  {
    hide Severe, FoundKey;
    if k: nat :| k < i && Severe(py, fs[k]) && FoundKey(py, fs[k]) == FoundKey(py, fs[i]) {
      j := FirstOfKey(py, fs, k);
    } else {
      j := i;
    }
  }

  // A named high or critical finding without an advisory, or without an exception for its
  // package and advisory, keeps the gate from passing.
  lemma SevereNeedsException(py: Python, lines: seq<string>, report: Report, f: Finding, today: int)
    requires KeepsWords(py) && f in Yielded(py.show, report) && f.severity.Text?
    requires f.name != Null && f.name != Text("") && f.name != Number(0)
    requires Strip(f.severity.s) == "high" || Strip(f.severity.s) == "critical"
             || Reads(py, f.severity.s, "high") || Reads(py, f.severity.s, "critical")
    requires Parse(lines).Ok? ==>
               forall e :: e in Parse(lines).value ==>
                 !SamePlace(py, e, Shown(py.show, f.name), Shown(py.show, f.advisory))
    ensures VerdictOf(py, lines, report, today) != Returns(0)
  {
    hide Parse, Yielded, GeneratorRaises, FoundKey, KeyOf, Accepted, Severe, Covers;
    SevereExactly(py, f);
    if Passes(py, lines, report, today) {
      var fs, excs := Yielded(py.show, report), Parse(lines).value;
      var i :| 0 <= i < |fs| && fs[i] == f;
      var j := FirstOfKey(py, fs, i);
      var e :| e in excs && Covers(py, e, fs[j], today);
      Uncovered(py, excs, e, fs[j], f, today);
    }
  }

  lemma Uncovered(py: Python, excs: seq<Entry>, e: Entry, g: Finding, f: Finding, today: int)
    requires Listed(py, excs) && e in excs && Covers(py, e, g, today)
    requires FoundKey(py, g) == FoundKey(py, f) && FoundKey(py, f).1 != ""
    ensures SamePlace(py, e, Shown(py.show, f.name), Shown(py.show, f.advisory))
  {
    hide FoundKey, KeyOf, Accepted, Strip;
    assert Accepted(py, e);
    KeysExactly(py, e, f);
  }

  // A finding of any other severity, or without a name, changes no verdict.
  lemma OthersIgnored(
    py: Python, lines: seq<string>, report: Report, report': Report, a: seq<Finding>, f: Finding, b: seq<Finding>,
    today: int)
    requires Yielded(py.show, report) == a + b && Yielded(py.show, report') == a + [f] + b
    requires GeneratorRaises(report) <==> GeneratorRaises(report')
    requires f.severity.Number? ==> f.severity.n == 0
    requires f.severity.Text? ==>
               (!Reads(py, f.severity.s, "high") && !Reads(py, f.severity.s, "critical"))
               || f.name == Null || f.name == Text("") || f.name == Number(0)
    ensures VerdictOf(py, lines, report', today) == VerdictOf(py, lines, report, today)
  {
    hide Parse, Yielded, GeneratorRaises, AllCovered, Listed;
    SevereExactly(py, f);
    assert forall g :: g in a + [f] + b <==> g in a + b || g == f;
    if Parse(lines).Ok? {
      CoveredWithout(py, Parse(lines).value, a, f, b, today);
    }
  }

  // The gate does not look at f behind the findings in `a`: it is not severe, or repeats
  // the key of an earlier one.
  ghost predicate Ignored(py: Python, a: seq<Finding>, f: Finding) {
    !Severe(py, f) || exists k :: 0 <= k < |a| && Severe(py, a[k]) && FoundKey(py, a[k]) == FoundKey(py, f)
  }

  // Of several severe findings for the same package and advisory, the first one decides:
  // a later one, of whatever severity, changes no verdict.
  lemma RepetitionIgnored(
    py: Python, lines: seq<string>, report: Report, report': Report, a: seq<Finding>, f: Finding, b: seq<Finding>,
    today: int, k: nat)
    requires Yielded(py.show, report) == a + b && Yielded(py.show, report') == a + [f] + b
    requires GeneratorRaises(report) <==> GeneratorRaises(report')
    requires !Unstrippable(f) && k < |a| && Severe(py, a[k])
    requires Strip(Shown(py.show, a[k].name)) == Strip(Shown(py.show, f.name))
    requires Strip(Shown(py.show, a[k].advisory)) == Strip(Shown(py.show, f.advisory))
    ensures VerdictOf(py, lines, report', today) == VerdictOf(py, lines, report, today)
  {
    hide Parse, Yielded, GeneratorRaises, AllCovered, Listed;
    assert FoundKey(py, a[k]) == FoundKey(py, f);
    assert forall g :: g in a + [f] + b <==> g in a + b || g == f;
    if Parse(lines).Ok? {
      CoveredWithout(py, Parse(lines).value, a, f, b, today);
    }
  }

  lemma CoveredWithout(py: Python, excs: seq<Entry>, a: seq<Finding>, f: Finding, b: seq<Finding>, today: int)
    requires Ignored(py, a, f)
    ensures AllCovered(py, excs, a + [f] + b, today) <==> AllCovered(py, excs, a + b, today)
  {
    hide AllCovered;
    if AllCovered(py, excs, a + [f] + b, today) {
      StillCovered(py, excs, a, f, b, today);
    }
    if AllCovered(py, excs, a + b, today) {
      CoveredWith(py, excs, a, f, b, today);
    }
  }

  lemma StillCovered(py: Python, excs: seq<Entry>, a: seq<Finding>, f: Finding, b: seq<Finding>, today: int)
    requires Ignored(py, a, f) && AllCovered(py, excs, a + [f] + b, today)
    ensures AllCovered(py, excs, a + b, today)
  {
    hide Severe, FoundKey, Covered, First;
    var fs, all := a + b, a + [f] + b;
    OnlyInside(py, fs);
    forall i: nat | i < |fs|
      ensures Severe(py, fs[i]) ==> FoundKey(py, fs[i]).1 != ""
      ensures First(py, fs, i) ==> Covered(py, excs, fs[i], today)
    {
      FirstWithout(py, a, f, b, i);
      assert all[With(|a|, i)] == fs[i];
    }
  }

  lemma CoveredWith(py: Python, excs: seq<Entry>, a: seq<Finding>, f: Finding, b: seq<Finding>, today: int)
    requires Ignored(py, a, f) && AllCovered(py, excs, a + b, today)
    ensures AllCovered(py, excs, a + [f] + b, today)
  {
    hide Severe, FoundKey, Covered, First;
    var fs, all := a + b, a + [f] + b;
    OnlyInside(py, all);
    IgnoredNotFirst(py, a, f, b);
    forall j: nat | j < |all|
      ensures Severe(py, all[j]) ==> FoundKey(py, all[j]).1 != ""
      ensures First(py, all, j) ==> Covered(py, excs, all[j], today)
    {
      if j != |a| {
        var i := Without(|a|, j);
        assert With(|a|, i) == j && all[j] == fs[i];
        FirstWithout(py, a, f, b, i);
      } else if Severe(py, f) {
        var k :| 0 <= k < |a| && Severe(py, a[k]) && FoundKey(py, a[k]) == FoundKey(py, f);
        assert fs[k] == a[k];
      }
    }
  }

  lemma OnlyInside(py: Python, fs: seq<Finding>)
    ensures forall i: nat :: First(py, fs, i) ==> i < |fs|
  {
  }

  lemma IgnoredNotFirst(py: Python, a: seq<Finding>, f: Finding, b: seq<Finding>)
    requires Ignored(py, a, f)
    ensures !First(py, a + [f] + b, |a|)
  {
    hide Severe, FoundKey;
    var all := a + [f] + b;
    assert all[|a|] == f;
    if Severe(py, f) {
      var k :| 0 <= k < |a| && Severe(py, a[k]) && FoundKey(py, a[k]) == FoundKey(py, f);
      assert all[k] == a[k];
    }
  }

  // The positions before and after one finding at `at` is put in.
  function With(at: nat, i: nat): nat {
    if i < at then i else i + 1
  }

  function Without(at: nat, j: nat): nat
    requires j != at
  {
    if j < at then j else j - 1
  }

  lemma FirstWithout(py: Python, a: seq<Finding>, f: Finding, b: seq<Finding>, i: nat)
    requires Ignored(py, a, f) && i < |a + b|
    ensures First(py, a + [f] + b, With(|a|, i)) <==> First(py, a + b, i)
  {
    hide Severe, FoundKey;
    var fs, all := a + b, a + [f] + b;
    assert forall k :: 0 <= k < |fs| ==> all[With(|a|, k)] == fs[k];
    assert all[|a|] == f;
    if First(py, fs, i) {
      forall j | 0 <= j < With(|a|, i) && Severe(py, all[j])
        ensures FoundKey(py, all[j]) != FoundKey(py, all[With(|a|, i)])
      {
        if j == |a| {
          var k :| 0 <= k < |a| && Severe(py, a[k]) && FoundKey(py, a[k]) == FoundKey(py, f);
          assert fs[k] == a[k];
        } else {
          assert all[j] == fs[Without(|a|, j)] && Without(|a|, j) < i;
        }
      }
    }
    if First(py, all, With(|a|, i)) {
      forall k | 0 <= k < i && Severe(py, fs[k])
        ensures FoundKey(py, fs[k]) != FoundKey(py, fs[i])
      {
        assert all[With(|a|, k)] == fs[k] && With(|a|, k) < With(|a|, i);
      }
    }
  }

  // No exception for the package and the advisory of f is past.
  ghost predicate NotPast(py: Python, excs: seq<Entry>, f: Finding, today: int) {
    forall e :: e in excs && KeyOf(py, e) == FoundKey(py, f) ==>
      "expires_on" in e && py.date(e["expires_on"]).Some? && py.date(e["expires_on"]).value >= today
  }

  // A gate that passes on some day passes on another exactly if no exception that a first
  // finding needs is past on that day; its last day is still good.
  lemma PassesUntil(py: Python, lines: seq<string>, report: Report, day: int, today: int)
    requires Passes(py, lines, report, day)
    ensures var fs := Yielded(py.show, report);
            Passes(py, lines, report, today)
            <==> forall i: nat :: First(py, fs, i) ==> NotPast(py, Parse(lines).value, fs[i], today)
  {
    hide Parse, Yielded, GeneratorRaises, First, NotPast, Covered, Listed;
    var fs, excs := Yielded(py.show, report), Parse(lines).value;
    OnlyInside(py, fs);
    forall i: nat | i < |fs| && First(py, fs, i)
      ensures Covered(py, excs, fs[i], today) <==> NotPast(py, excs, fs[i], today)
    {
      CoveredUntil(py, excs, fs[i], day, today);
    }
  }

  lemma CoveredUntil(py: Python, excs: seq<Entry>, f: Finding, day: int, today: int)
    requires Listed(py, excs) && Covered(py, excs, f, day)
    ensures Covered(py, excs, f, today) <==> NotPast(py, excs, f, today)
  {
    hide KeyOf, FoundKey, SeverityOf, FoundSeverity, Accepted;
    ListedIsBag(py, excs);
    var e :| e in excs && Covers(py, e, f, day);
    AcceptedExactly(py, e);
    assert forall x :: x in excs && KeyOf(py, x) == FoundKey(py, f) ==> x == e;
    assert Covers(py, e, f, today) <==> py.date(e["expires_on"]).value >= today;
  }
}
