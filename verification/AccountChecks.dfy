// Default values and validation of one account builder
// (backend/ent/account_create.go:527-662).
module AccountChecks {
  import opened Lists
  import opened Rows

  // The default values of backend/ent/account/account.go. Those that a runtime
  // import installs may be missing.
  datatype DefaultValues = DefaultValues(
    createdAt: Option<Cell>, updatedAt: Option<Cell>, credentials: Option<Cell>, extra: Option<Cell>,
    concurrency: Cell, priority: Cell, rateMultiplier: Cell, status: Cell,
    autoPauseOnExpired: Cell, schedulable: Cell, quotaDimension: Cell)
  {
    function Of(c: Column): Option<Cell> {
      match c
      case CreatedAt => createdAt
      case UpdatedAt => updatedAt
      case Credentials => credentials
      case Extra => extra
      case Concurrency => Some(concurrency)
      case Priority => Some(priority)
      case RateMultiplier => Some(rateMultiplier)
      case Status => Some(status)
      case AutoPauseOnExpired => Some(autoPauseOnExpired)
      case Schedulable => Some(schedulable)
      case QuotaDimension => Some(quotaDimension)
      case _ => None
    }
  }

  // The columns with a default, in the order in which they are set.
  const DEFAULTED: seq<Column> := [
    CreatedAt, UpdatedAt, Credentials, Extra, Concurrency, Priority, RateMultiplier, Status, AutoPauseOnExpired,
    Schedulable, QuotaDimension]

  // The fields after setting the missing ones among `columns`, up to the first
  // default that is not installed.
  function Fill(fields: Row, d: DefaultValues, columns: seq<Column>): (Row, Option<Column>)
    decreases columns
  {
    if columns == [] then (fields, None)
    else if columns[0] in fields then Fill(fields, d, columns[1..])
    else
      match d.Of(columns[0])
      case None => (fields, Some(columns[0]))
      case Some(v) => Fill(fields[columns[0] := v], d, columns[1..])
  }

  function DefaultedAt(k: nat): Column
    requires k < 11
  {
    DEFAULTED[k]
  }

  // What is left to do from column k on.
  function FillFrom(fields: Row, d: DefaultValues, k: nat): (Row, Option<Column>)
    requires k <= 11
  {
    Fill(fields, d, DEFAULTED[k..])
  }

  // The first four columns, whose default values may be missing.
  lemma RuntimeColumns(d: DefaultValues)
    ensures DefaultedAt(0) == CreatedAt && d.Of(CreatedAt) == d.createdAt
    ensures DefaultedAt(1) == UpdatedAt && d.Of(UpdatedAt) == d.updatedAt
    ensures DefaultedAt(2) == Credentials && d.Of(Credentials) == d.credentials
    ensures DefaultedAt(3) == Extra && d.Of(Extra) == d.extra
  {
  }

  lemma NumberColumns(d: DefaultValues)
    ensures DefaultedAt(4) == Concurrency && d.Of(Concurrency) == Some(d.concurrency)
    ensures DefaultedAt(5) == Priority && d.Of(Priority) == Some(d.priority)
    ensures DefaultedAt(6) == RateMultiplier && d.Of(RateMultiplier) == Some(d.rateMultiplier)
  {
  }

  lemma StateColumns(d: DefaultValues)
    ensures DefaultedAt(7) == Status && d.Of(Status) == Some(d.status)
    ensures DefaultedAt(8) == AutoPauseOnExpired && d.Of(AutoPauseOnExpired) == Some(d.autoPauseOnExpired)
    ensures DefaultedAt(9) == Schedulable && d.Of(Schedulable) == Some(d.schedulable)
    ensures DefaultedAt(10) == QuotaDimension && d.Of(QuotaDimension) == Some(d.quotaDimension)
  {
  }

  lemma FillEnds(fields: Row, d: DefaultValues)
    ensures FillFrom(fields, d, 0) == Fill(fields, d, DEFAULTED)
    ensures FillFrom(fields, d, 11) == (fields, None)
  {
    assert DEFAULTED[0..] == DEFAULTED && DEFAULTED[11..] == [];
  }

  lemma {:induction false} FillKeeps(fields: Row, d: DefaultValues, columns: seq<Column>, c: Column)
    ensures var (f, missing) := Fill(fields, d, columns);
            && (c in fields ==> c in f && f[c] == fields[c])
            && (c in f && c !in fields ==> c in columns && d.Of(c) == Some(f[c]))
            && (c in columns && missing.None? ==> c in f)
            && (missing == Some(c) ==> c in columns && c !in f && d.Of(c).None?)
    decreases columns
  {
    if columns != [] {
      var c0 := columns[0];
      var next := if c0 in fields || d.Of(c0).None? then fields else fields[c0 := d.Of(c0).value];
      FillKeeps(next, d, columns[1..], c);
      assert columns == [columns[0]] + columns[1..];
    }
  }

  // Setting the defaults again changes nothing.
  lemma {:induction false} FillAgain(fields: Row, d: DefaultValues, columns: seq<Column>)
    ensures Fill(Fill(fields, d, columns).0, d, columns) == Fill(fields, d, columns)
    decreases columns
  {
    if columns != [] && (columns[0] in fields || d.Of(columns[0]).Some?) {
      var next := if columns[0] in fields then fields else fields[columns[0] := d.Of(columns[0]).value];
      FillAgain(next, d, columns[1..]);
      FillKeeps(next, d, columns[1..], columns[0]);
    }
  }

  lemma FillTwice(fields: Row, d: DefaultValues)
    ensures Fill(Fill(fields, d, DEFAULTED).0, d, DEFAULTED).0 == Fill(fields, d, DEFAULTED).0
  {
    FillAgain(fields, d, DEFAULTED);
  }

  // ---- check -------------------------------------------------------------------------

  datatype Rule = Required(c: Column) | Validated(c: Column)

  // The rules in the order in which check applies them.
  const RULES: seq<Rule> := [
    Required(CreatedAt), Required(UpdatedAt), Required(Name), Validated(Name), Required(Platform), Validated(Platform),
    Required(Type), Validated(Type), Required(Credentials), Required(Extra), Required(Concurrency), Required(Priority),
    Required(RateMultiplier), Required(Status), Validated(Status), Required(AutoPauseOnExpired), Required(Schedulable),
    Validated(SessionWindowStatus), Required(QuotaDimension), Validated(QuotaDimension)]

  type Validator = (Column, Cell) -> bool

  predicate Broken(rule: Rule, fields: Row, accepts: Validator) {
    match rule
    case Required(c) => c !in fields
    case Validated(c) => c in fields && !accepts(c, fields[c])
  }

  // The ValidationError of check: the first broken rule.
  function FirstBroken(rules: seq<Rule>, fields: Row, accepts: Validator): Option<Rule> {
    if rules == [] then None
    else if Broken(rules[0], fields, accepts) then Some(rules[0])
    else FirstBroken(rules[1..], fields, accepts)
  }

  lemma {:induction false} FirstBrokenIsBroken(rules: seq<Rule>, fields: Row, accepts: Validator)
    ensures FirstBroken(rules, fields, accepts).None? <==> forall r :: r in rules ==> !Broken(r, fields, accepts)
    ensures FirstBroken(rules, fields, accepts).Some? ==>
              FirstBroken(rules, fields, accepts).value in rules
                && Broken(FirstBroken(rules, fields, accepts).value, fields, accepts)
  {
    if rules != [] {
      FirstBrokenIsBroken(rules[1..], fields, accepts);
      assert rules == [rules[0]] + rules[1..];
    }
  }

  predicate Passes(fields: Row, accepts: Validator) {
    FirstBroken(RULES, fields, accepts).None?
  }

  // The rules that a builder with all its defaults can still break.
  predicate CallerRule(rule: Rule) {
    rule.Validated? || rule.c == Name || rule.c == Platform || rule.c == Type
  }

  lemma RequiredIsDefaulted(rule: Rule)
    requires rule in RULES && !CallerRule(rule)
    ensures rule.c in DEFAULTED
  {
    assert rule in RULES[..10] || rule in RULES[10..];
  }

  lemma DefaultedIsRequired(c: Column)
    requires c in DEFAULTED
    ensures Required(c) in RULES
  {
    assert RULES[0] == Required(CreatedAt) && RULES[1] == Required(UpdatedAt) && RULES[8] == Required(Credentials)
      && RULES[9] == Required(Extra) && RULES[10] == Required(Concurrency) && RULES[11] == Required(Priority)
      && RULES[12] == Required(RateMultiplier) && RULES[13] == Required(Status)
      && RULES[15] == Required(AutoPauseOnExpired)
      && RULES[16] == Required(Schedulable) && RULES[18] == Required(QuotaDimension);
  }

  // Ignoring the error of defaults is harmless: a builder whose defaults fail does
  // not pass its check, and one whose defaults succeed fails it only for a rule
  // that no default could satisfy.
  lemma DefaultsErrorIsRepeated(fields: Row, d: DefaultValues, accepts: Validator)
    ensures var (f, missing) := Fill(fields, d, DEFAULTED);
            && (missing.Some? ==> !Passes(f, accepts))
            && (missing.None? && !Passes(f, accepts) ==> CallerRule(FirstBroken(RULES, f, accepts).value))
  {
    var (f, missing) := Fill(fields, d, DEFAULTED);
    FirstBrokenIsBroken(RULES, f, accepts);
    if missing.Some? {
      FillKeeps(fields, d, DEFAULTED, missing.value);
      DefaultedIsRequired(missing.value);
      assert Broken(Required(missing.value), f, accepts);
    } else if !Passes(f, accepts) {
      var rule := FirstBroken(RULES, f, accepts).value;
      if !CallerRule(rule) {
        RequiredIsDefaulted(rule);
        FillKeeps(fields, d, DEFAULTED, rule.c);
      }
    }
  }

  // Name, platform and type have no default: whether they are missing is up to the caller.
  lemma CallerFieldsStay(fields: Row, d: DefaultValues, c: Column)
    requires c == Name || c == Platform || c == Type
    ensures c in Fill(fields, d, DEFAULTED).0 <==> c in fields
  {
    FillKeeps(fields, d, DEFAULTED, c);
  }

  // ---- the rules one by one ---------------------------------------------------------------

  lemma FromRule(k: nat, rule: Rule, fields: Row, accepts: Validator)
    requires k < 20 && RULES[k] == rule
    ensures FirstBroken(RULES[k..], fields, accepts)
         == if Broken(rule, fields, accepts) then Some(rule) else FirstBroken(RULES[k + 1..], fields, accepts)
  {
    assert RULES[k..][0] == rule && RULES[k..][1..] == RULES[k + 1..];
  }

  predicate Missing(fields: Row, c: Column) {
    c !in fields
  }

  predicate Rejected(fields: Row, accepts: Validator, c: Column) {
    c in fields && !accepts(c, fields[c])
  }

  lemma BrokenIs(fields: Row, accepts: Validator)
    ensures forall c :: Broken(Required(c), fields, accepts) <==> Missing(fields, c)
    ensures forall c :: Broken(Validated(c), fields, accepts) <==> Rejected(fields, accepts, c)
  {
  }

  // check reports the first of these defects, in this order.
  lemma FirstDefects(fields: Row, accepts: Validator)
    ensures FirstBroken(RULES, fields, accepts)
         == if Missing(fields, CreatedAt) then Some(Required(CreatedAt))
            else if Missing(fields, UpdatedAt) then Some(Required(UpdatedAt))
            else if Missing(fields, Name) then Some(Required(Name))
            else if Rejected(fields, accepts, Name) then Some(Validated(Name))
            else if Missing(fields, Platform) then Some(Required(Platform))
            else if Rejected(fields, accepts, Platform) then Some(Validated(Platform))
            else if Missing(fields, Type) then Some(Required(Type))
            else if Rejected(fields, accepts, Type) then Some(Validated(Type))
            else FirstBroken(RULES[8..], fields, accepts)
  {
    hide FirstBroken, Broken, Missing, Rejected;
    BrokenIs(fields, accepts);
    assert RULES[0..] == RULES;
    FromRule(0, Required(CreatedAt), fields, accepts);
    FromRule(1, Required(UpdatedAt), fields, accepts);
    FromRule(2, Required(Name), fields, accepts);
    FromRule(3, Validated(Name), fields, accepts);
    FromRule(4, Required(Platform), fields, accepts);
    FromRule(5, Validated(Platform), fields, accepts);
    FromRule(6, Required(Type), fields, accepts);
    FromRule(7, Validated(Type), fields, accepts);
  }

  lemma NextDefects(fields: Row, accepts: Validator)
    ensures FirstBroken(RULES[8..], fields, accepts)
         == if Missing(fields, Credentials) then Some(Required(Credentials))
            else if Missing(fields, Extra) then Some(Required(Extra))
            else if Missing(fields, Concurrency) then Some(Required(Concurrency))
            else if Missing(fields, Priority) then Some(Required(Priority))
            else if Missing(fields, RateMultiplier) then Some(Required(RateMultiplier))
            else if Missing(fields, Status) then Some(Required(Status))
            else if Rejected(fields, accepts, Status) then Some(Validated(Status))
            else FirstBroken(RULES[15..], fields, accepts)
  {
    hide Broken, Missing, Rejected, FirstBroken;
    BrokenIs(fields, accepts);
    FromRule(8, Required(Credentials), fields, accepts);
    FromRule(9, Required(Extra), fields, accepts);
    FromRule(10, Required(Concurrency), fields, accepts);
    FromRule(11, Required(Priority), fields, accepts);
    FromRule(12, Required(RateMultiplier), fields, accepts);
    FromRule(13, Required(Status), fields, accepts);
    FromRule(14, Validated(Status), fields, accepts);
  }

  lemma LastDefects(fields: Row, accepts: Validator)
    ensures FirstBroken(RULES[15..], fields, accepts)
         == if Missing(fields, AutoPauseOnExpired) then Some(Required(AutoPauseOnExpired))
            else if Missing(fields, Schedulable) then Some(Required(Schedulable))
            else if Rejected(fields, accepts, SessionWindowStatus) then Some(Validated(SessionWindowStatus))
            else if Missing(fields, QuotaDimension) then Some(Required(QuotaDimension))
            else if Rejected(fields, accepts, QuotaDimension) then Some(Validated(QuotaDimension))
            else None
  {
    hide Broken, Missing, Rejected, FirstBroken;
    BrokenIs(fields, accepts);
    FromRule(15, Required(AutoPauseOnExpired), fields, accepts);
    FromRule(16, Required(Schedulable), fields, accepts);
    FromRule(17, Validated(SessionWindowStatus), fields, accepts);
    FromRule(18, Required(QuotaDimension), fields, accepts);
    FromRule(19, Validated(QuotaDimension), fields, accepts);
    assert RULES[20..] == [];
    NoneBroken(fields, accepts);
  }

  lemma NoneBroken(fields: Row, accepts: Validator)
    ensures FirstBroken([], fields, accepts) == None
  {
  }

  // A row passes exactly if the fourteen required fields are set and the validators accept
  // the six validated ones, as far as they are set.
  lemma PassesExactly(fields: Row, accepts: Validator)
    ensures Passes(fields, accepts)
       <==> CreatedAt in fields && UpdatedAt in fields && Name in fields && Platform in fields && Type in fields
            && Credentials in fields && Extra in fields && Concurrency in fields && Priority in fields
            && RateMultiplier in fields && Status in fields && AutoPauseOnExpired in fields
            && Schedulable in fields && QuotaDimension in fields
            && accepts(Name, fields[Name]) && accepts(Platform, fields[Platform]) && accepts(Type, fields[Type])
            && accepts(Status, fields[Status]) && accepts(QuotaDimension, fields[QuotaDimension])
            && (SessionWindowStatus in fields ==> accepts(SessionWindowStatus, fields[SessionWindowStatus]))
  {
    hide FirstBroken;
    FirstDefects(fields, accepts);
    NextDefects(fields, accepts);
    LastDefects(fields, accepts);
  }

  // ---- the defaults one by one --------------------------------------------------------------

  lemma FromDefault(fields: Row, d: DefaultValues, k: nat, c: Column, v: Option<Cell>)
    requires k < 11 && DefaultedAt(k) == c && d.Of(c) == v
    ensures FillFrom(fields, d, k)
         == if c in fields then FillFrom(fields, d, k + 1)
            else if v.None? then (fields, Some(c))
            else FillFrom(fields[c := v.value], d, k + 1)
  {
    assert DEFAULTED[k..][0] == c && DEFAULTED[k..][1..] == DEFAULTED[k + 1..];
  }

  function Given(fields: Row, c: Column, v: Option<Cell>): Option<Cell> {
    if c in fields then Some(fields[c]) else v
  }

  // The default whose absence ends defaults: the first of four that is not installed and
  // not made up for by the caller.
  lemma FirstMissing(fields: Row, d: DefaultValues)
    ensures Fill(fields, d, DEFAULTED).1
         == if Given(fields, CreatedAt, d.createdAt).None? then Some(CreatedAt)
            else if Given(fields, UpdatedAt, d.updatedAt).None? then Some(UpdatedAt)
            else if Given(fields, Credentials, d.credentials).None? then Some(Credentials)
            else if Given(fields, Extra, d.extra).None? then Some(Extra)
            else None
  {
    hide Fill, DefaultedAt, DefaultValues.Of;
    FillEnds(fields, d);
    RuntimeColumns(d);
    hide FillFrom;
    FromDefault(fields, d, 0, CreatedAt, d.createdAt);
    var f1 := Set(fields, CreatedAt, d.createdAt);
    FromDefault(f1, d, 1, UpdatedAt, d.updatedAt);
    var f2 := Set(f1, UpdatedAt, d.updatedAt);
    FromDefault(f2, d, 2, Credentials, d.credentials);
    var f3 := Set(f2, Credentials, d.credentials);
    FromDefault(f3, d, 3, Extra, d.extra);
    var f4 := Set(f3, Extra, d.extra);
    StaticAlways(f4, d, 4);
  }

  // No column behind the missing default is set.
  lemma {:induction false} FillStops(fields: Row, d: DefaultValues, columns: seq<Column>) returns (k: nat)
    requires Fill(fields, d, columns).1.Some?
    ensures k < |columns| && Fill(fields, d, columns).1 == Some(columns[k])
    ensures forall c :: c in Fill(fields, d, columns).0 && c !in fields ==> c in columns[..k]
    decreases columns
  {
    var c0 := columns[0];
    if c0 !in fields && d.Of(c0).None? {
      k := 0;
    } else {
      k := FillStops(Set(fields, c0, d.Of(c0)), d, columns[1..]);
      assert columns[..k + 1] == [c0] + columns[1..][..k];
      k := k + 1;
    }
  }

  function Set(fields: Row, c: Column, v: Option<Cell>): Row {
    if c in fields || v.None? then fields else fields[c := v.value]
  }

  lemma {:induction false} StaticAlways(fields: Row, d: DefaultValues, k: nat)
    requires 4 <= k <= 11
    ensures FillFrom(fields, d, k).1 == None
    decreases 11 - k
  {
    hide FillFrom, Fill;
    FillEnds(fields, d);
    if k < 11 {
      StaticDefault(d, k);
      FromDefault(fields, d, k, DefaultedAt(k), d.Of(DefaultedAt(k)));
      StaticAlways(fields, d, k + 1);
      StaticAlways(Set(fields, DefaultedAt(k), d.Of(DefaultedAt(k))), d, k + 1);
    } else {
      FillEnds(fields, d);
    }
  }

  lemma StaticDefault(d: DefaultValues, k: nat)
    requires 4 <= k < 11
    ensures d.Of(DefaultedAt(k)).Some?
  {
    NumberColumns(d);
    StateColumns(d);
  }
}
