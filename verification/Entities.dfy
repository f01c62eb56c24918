// Entities and row decoding (backend/ent/account.go, backend/ent/accountgroup.go).
module Entities {
  import opened Lists
  import opened Rows

  // The Go type scanValues allocates for a column.
  datatype Kind = JsonKind | BoolKind | FloatKind | IntKind | StringKind | TimeKind | UnknownKind

  function AccountKind(c: Column): Kind {
    match c
    case Credentials | Extra => JsonKind
    case AutoPauseOnExpired | Schedulable => BoolKind
    case RateMultiplier => FloatKind
    case Id | ProxyId | ProxyFallbackOriginId | Concurrency | LoadFactor | Priority
      | ParentAccountId => IntKind
    case Name | Notes | Platform | Type | Status | ErrorMessage | TempUnschedulableReason
      | SessionWindowStatus | QuotaDimension => StringKind
    case CreatedAt | UpdatedAt | DeletedAt | LastUsedAt | ExpiresAt | RateLimitedAt
      | RateLimitResetAt | OverloadUntil | TempUnschedulableUntil | SessionWindowStart
      | SessionWindowEnd => TimeKind
    case AccountId | GroupId | Other(_) => UnknownKind
  }

  const GROUP_JSON: set<string> := {
    "video_model_prices", "model_pricing", "model_routing", "supported_model_scopes", "messages_dispatch_model_config",
    "model_allowlist", "codex_models_manifest_config", "reasoning_effort_mappings"}

  const GROUP_BOOLS: set<string> := {
    "peak_rate_enabled", "is_exclusive", "allow_image_generation", "allow_batch_image_generation",
    "image_rate_independent", "video_rate_independent", "long_context_pricing_enabled", "claude_code_only",
    "model_routing_enabled", "mcp_xml_inject", "allow_messages_dispatch", "allow_live", "force_openai_fast",
    "free_openai_fast", "require_oauth_only", "require_privacy_set", "profit_control_enabled"}

  const GROUP_FLOATS: set<string> := {
    "peak_rate_multiplier", "daily_limit_usd", "weekly_limit_usd", "monthly_limit_usd", "image_rate_multiplier",
    "image_price_1k", "image_price_2k", "image_price_4k", "batch_image_discount_multiplier",
    "batch_image_hold_multiplier", "video_rate_multiplier", "video_price_480p", "video_price_720p",
    "video_price_1080p", "web_search_price_per_call", "search_price_per_1k", "audio_realtime_price_per_min",
    "audio_tts_price_per_million_chars", "audio_stt_price_per_hour", "profit_min_margin", "profit_safety_buffer"}

  const GROUP_INTS: set<string> := {
    "default_validity_days", "fallback_group_id", "fallback_group_id_on_invalid_request", "sort_order", "rpm_limit"}

  const GROUP_STRINGS: set<string> := {
    "description", "peak_start", "peak_end", "duplicate_operation_id", "subscription_type", "default_mapped_model",
    "max_reasoning_effort", "max_reasoning_effort_over_limit"}

  // The same for the columns of a group (backend/ent/group.go:257-278). The keys of
  // the join table are not among them.
  function GroupKind(c: Column): Kind {
    match c
    case Id => IntKind
    case RateMultiplier => FloatKind
    case Name | Status | Platform => StringKind
    case CreatedAt | UpdatedAt | DeletedAt => TimeKind
    case Other(name) =>
      if name in GROUP_JSON then JsonKind
      else if name in GROUP_BOOLS then BoolKind
      else if name in GROUP_FLOATS then FloatKind
      else if name in GROUP_INTS then IntKind
      else if name in GROUP_STRINGS then StringKind
      else UnknownKind
    case _ => UnknownKind
  }

  // A scan destination with its content: sql.NullInt64, sql.NullString, ...,
  // *[]byte and sql.UnknownType.
  datatype Holder =
    | NullInt64(valid: bool, i: int)
    | NullFloat64(valid: bool, r: real)
    | NullBool(valid: bool, b: bool)
    | NullString(valid: bool, s: string)
    | NullTime(valid: bool, t: int)
    | RawBytes(doc: Json)
    | UnknownType(cell: Cell)

  function NewHolder(k: Kind): Holder {
    match k
    case JsonKind => RawBytes(Blank)
    case BoolKind => NullBool(false, false)
    case FloatKind => NullFloat64(false, 0.0)
    case IntKind => NullInt64(false, 0)
    case StringKind => NullString(false, "")
    case TimeKind => NullTime(false, 0)
    case UnknownKind => UnknownType(Null)
  }

  // The holder has the Go type that belongs to the kind; its content is arbitrary.
  predicate Shaped(k: Kind, h: Holder) {
    match k
    case JsonKind => h.RawBytes?
    case BoolKind => h.NullBool?
    case FloatKind => h.NullFloat64?
    case IntKind => h.NullInt64?
    case StringKind => h.NullString?
    case TimeKind => h.NullTime?
    case UnknownKind => h.UnknownType?
  }

  // The cell may be scanned into a holder of the kind.
  predicate Fits(k: Kind, cell: Cell) {
    cell.Null? ||
    match k
    case JsonKind => cell.JsonCell?
    case BoolKind => cell.BoolCell?
    case FloatKind => cell.RealCell?
    case IntKind => cell.IntCell?
    case StringKind => cell.StringCell?
    case TimeKind => cell.TimeCell?
    case UnknownKind => true
  }

  // rows.Scan of a fitting cell.
  function Scanned(k: Kind, cell: Cell): (h: Holder)
    requires Fits(k, cell)
    ensures Shaped(k, h)
    ensures k != UnknownKind && k != JsonKind ==> HeldValue(h) == if cell.Null? then None else Some(cell)
    ensures k == JsonKind ==> h == RawBytes(if cell.Null? then Blank else cell.doc)
  {
    if k == UnknownKind then UnknownType(cell)
    else if cell.Null? then NewHolder(k)
    else
      match k
      case JsonKind => RawBytes(cell.doc)
      case BoolKind => NullBool(true, cell.b)
      case FloatKind => NullFloat64(true, cell.r)
      case IntKind => NullInt64(true, cell.i)
      case StringKind => NullString(true, cell.s)
      case TimeKind => NullTime(true, cell.t)
  }

  // The holder of a kind after rows.Scan; a cell of another type leaves it as it was made.
  function ScanInto(k: Kind, cell: Cell): (h: Holder)
    ensures Shaped(k, h)
    ensures k == IntKind ==> h.i == if cell.IntCell? then cell.i else 0
  {
    if Fits(k, cell) then Scanned(k, cell) else NewHolder(k)
  }

  // The value a holder carries, if it is not NULL.
  function HeldValue(h: Holder): Option<Cell> {
    match h
    case NullInt64(v, i) => if v then Some(IntCell(i)) else None
    case NullFloat64(v, r) => if v then Some(RealCell(r)) else None
    case NullBool(v, b) => if v then Some(BoolCell(b)) else None
    case NullString(v, s) => if v then Some(StringCell(s)) else None
    case NullTime(v, t) => if v then Some(TimeCell(t)) else None
    case RawBytes(doc) => if doc == Blank then None else Some(JsonCell(doc))
    case UnknownType(cell) => Some(cell)
  }

  // The scanned part of an entity. A column absent from `fields` is a nil
  // pointer or a zero value in the Go struct.
  datatype Scalars = Scalars(fields: Row, selected: map<Column, Holder>)

  datatype ScanError = LengthMismatch | UnexpectedType(column: Column) | BadJson(column: Column)

  // The members of a JSON field; a nil map has none.
  function Members(fields: Row, c: Column): map<string, string> {
    if c in fields && fields[c].JsonCell? && fields[c].doc.JsonObject? then fields[c].doc.members else map[]
  }

  // json.Unmarshal(*value, &field): null makes the map nil, and an object adds its
  // members to those the map already has.
  function Unmarshal(c: Column, doc: Json, fields: Row): Result<Row, ScanError> {
    match doc
    case Blank => Ok(fields)
    case Malformed => Err(BadJson(c))
    case JsonNull => Ok(fields - {c})
    case JsonObject(members) => Ok(fields[c := JsonCell(JsonObject(Members(fields, c) + members))])
  }

  // One case of the switch in assignValues. The id is taken whether or not it is
  // NULL; any other field only when it is present.
  function AssignOne(c: Column, h: Holder, sc: Scalars): Result<Scalars, ScanError> {
    var kind := AccountKind(c);
    if kind == UnknownKind then Ok(sc.(selected := sc.selected[c := h]))
    else if !Shaped(kind, h) then Err(UnexpectedType(c))
    else if c == Id then Ok(sc.(fields := sc.fields[Id := IntCell(h.i)]))
    else if kind == JsonKind then
      match Unmarshal(c, h.doc, sc.fields)
      case Err(e) => Err(e)
      case Ok(fields) => Ok(sc.(fields := fields))
    else
      match HeldValue(h)
      case None => Ok(sc)
      case Some(v) => Ok(sc.(fields := sc.fields[c := v]))
  }

  // The switch applied to every column in turn.
  function AssignAll(columns: seq<Column>, values: seq<Holder>, sc: Scalars): Result<Scalars, ScanError>
    requires |columns| <= |values|
  {
    if columns == [] then Ok(sc)
    else
      var n := |columns| - 1;
      match AssignAll(columns[..n], values, sc)
      case Err(e) => Err(e)
      case Ok(sc') => AssignOne(columns[n], values[n], sc')
  }

  // The holders have the types scanValues gives them for these columns.
  ghost predicate ShapedFor(columns: seq<Column>, values: seq<Holder>) {
    |columns| <= |values| && forall i :: 0 <= i < |columns| ==> Shaped(AccountKind(columns[i]), values[i])
  }

  // The last non-NULL value that the first k holders have for column c.
  function LastHeld(columns: seq<Column>, values: seq<Holder>, c: Column, k: nat): Option<Cell>
    requires k <= |columns| <= |values|
  {
    if k == 0 then None
    else if columns[k - 1] == c && HeldValue(values[k - 1]).Some? then HeldValue(values[k - 1])
    else LastHeld(columns, values, c, k - 1)
  }

  lemma {:induction false} LastHeldPrefix(columns: seq<Column>, values: seq<Holder>, c: Column, n: nat, k: nat)
    requires k <= n <= |columns| <= |values|
    ensures LastHeld(columns[..n], values, c, k) == LastHeld(columns, values, c, k)
  {
    if k > 0 {
      LastHeldPrefix(columns, values, c, n, k - 1);
    }
  }

  // The value that the first k holders leave for member x of the JSON column c, in
  // a map that held `before`: reading back from the last one, the first object with
  // this member decides, unless a null comes first.
  function LastMember(
    columns: seq<Column>, values: seq<Holder>, c: Column, x: string, before: Option<string>, k: nat): Option<string>
    requires k <= |columns| <= |values|
  {
    if k == 0 then before
    else if columns[k - 1] == c && values[k - 1] == RawBytes(JsonNull) then None
    else if columns[k - 1] == c && Holds(values[k - 1], x) then Some(values[k - 1].doc.members[x])
    else LastMember(columns, values, c, x, before, k - 1)
  }

  predicate Holds(h: Holder, x: string) {
    h.RawBytes? && h.doc.JsonObject? && x in h.doc.members
  }

  lemma {:induction false} LastMemberPrefix(
    columns: seq<Column>, values: seq<Holder>, c: Column, x: string, before: Option<string>, n: nat, k: nat)
    requires k <= n <= |columns| <= |values|
    ensures LastMember(columns[..n], values, c, x, before, k) == LastMember(columns, values, c, x, before, k)
  {
    if k > 0 {
      LastMemberPrefix(columns, values, c, x, before, n, k - 1);
    }
  }

  function MemberOfField(sc: Scalars, c: Column, x: string): Option<string> {
    var m := Members(sc.fields, c);
    if x in m then Some(m[x]) else None
  }

  // A JSON document that does not decode into the field of its column.
  predicate Undecodable(c: Column, h: Holder) {
    AccountKind(c) == JsonKind && h == RawBytes(Malformed)
  }

  lemma IdIsInt()
    ensures AccountKind(Id) == IntKind
  {
  }

  // One case fails only on an undecodable document.
  lemma AssignFailsOn(d: Column, h: Holder, sc: Scalars)
    requires Shaped(AccountKind(d), h)
    ensures AssignOne(d, h, sc).Err? <==> Undecodable(d, h)
    ensures AssignOne(d, h, sc).Err? ==> AssignOne(d, h, sc).error == BadJson(d)
  {
    hide HeldValue, Members, AccountKind;
    IdIsInt();
  }

  lemma UnmarshalElsewhere(d: Column, doc: Json, fields: Row, c: Column)
    requires Unmarshal(d, doc, fields).Ok? && c != d
    ensures c in Unmarshal(d, doc, fields).value <==> c in fields
    ensures c in fields ==> Unmarshal(d, doc, fields).value[c] == fields[c]
  {
    hide Members;
  }

  // One case changes at most the field of its column.
  lemma AssignElsewhere(d: Column, h: Holder, sc: Scalars, c: Column)
    requires AssignOne(d, h, sc).Ok? && c != d
    ensures ValueOf(AssignOne(d, h, sc).value, c) == ValueOf(sc, c)
  {
    hide HeldValue, Unmarshal, AccountKind;
    IdIsInt();
    if AccountKind(d) == JsonKind && h.RawBytes? {
      UnmarshalElsewhere(d, h.doc, sc.fields, c);
    }
  }

  lemma AssignScalar(h: Holder, sc: Scalars, c: Column)
    requires Shaped(AccountKind(c), h) && AssignOne(c, h, sc).Ok? && c != Id && AccountKind(c) != JsonKind
    ensures ValueOf(AssignOne(c, h, sc).value, c)
         == if AccountKind(c) != UnknownKind && HeldValue(h).Some? then HeldValue(h) else ValueOf(sc, c)
  {
    hide HeldValue, Members, AccountKind, Shaped;
  }

  lemma AssignMember(d: Column, h: Holder, sc: Scalars, c: Column, x: string)
    requires Shaped(AccountKind(d), h) && AccountKind(c) == JsonKind && AssignOne(d, h, sc).Ok?
    ensures MemberOfField(AssignOne(d, h, sc).value, c, x)
         == if d == c && h == RawBytes(JsonNull) then None
            else if d == c && Holds(h, x) then Some(h.doc.members[x])
            else MemberOfField(sc, c, x)
  {
    hide HeldValue, AssignOne, Holds, Shaped, AccountKind, MemberOfField, ValueOf;
    if d != c {
      AssignElsewhere(d, h, sc, c);
      SameMember(AssignOne(d, h, sc).value, sc, c, x);
    } else {
      assert d == c;
      JsonHolder(c, h);
      JsonMember(h, sc, c, x);
    }
  }

  lemma SameMember(sc: Scalars, sc': Scalars, c: Column, x: string)
    requires ValueOf(sc, c) == ValueOf(sc', c)
    ensures MemberOfField(sc, c, x) == MemberOfField(sc', c, x)
  {
  }

  lemma JsonHolder(c: Column, h: Holder)
    requires Shaped(AccountKind(c), h) && AccountKind(c) == JsonKind
    ensures h.RawBytes? && c != Id
  {
  }

  lemma JsonMember(h: Holder, sc: Scalars, c: Column, x: string)
    requires h.RawBytes? && AccountKind(c) == JsonKind && c != Id && AssignOne(c, h, sc).Ok?
    ensures MemberOfField(AssignOne(c, h, sc).value, c, x)
         == if h == RawBytes(JsonNull) then None
            else if Holds(h, x) then Some(h.doc.members[x])
            else MemberOfField(sc, c, x)
  {
    hide HeldValue, AccountKind;
  }

  // assignValues never reports an unexpected type for holders shaped by scanValues,
  // whatever the columns: it fails exactly on a document that does not decode.
  lemma {:induction false} ScanThenAssign(columns: seq<Column>, values: seq<Holder>, sc: Scalars)
    requires ShapedFor(columns, values)
    ensures AssignAll(columns, values, sc).Err?
           <==> exists i :: 0 <= i < |columns| && Undecodable(columns[i], values[i])
    ensures AssignAll(columns, values, sc).Err? ==> AssignAll(columns, values, sc).error.BadJson?
  {
    hide AssignOne, Undecodable, Shaped;
    if columns != [] {
      var n := |columns| - 1;
      ScanThenAssign(columns[..n], values, sc);
      if AssignAll(columns[..n], values, sc).Ok? {
        AssignFailsOn(columns[n], values[n], AssignAll(columns[..n], values, sc).value);
      }
    }
  }

  // A scalar field other than the id ends as the last non-NULL value of its column,
  // or as it was.
  lemma {:induction false} ScalarAssigned(columns: seq<Column>, values: seq<Holder>, sc: Scalars, c: Column)
    requires ShapedFor(columns, values) && AssignAll(columns, values, sc).Ok?
    requires c != Id && AccountKind(c) != JsonKind
    ensures var last := if AccountKind(c) == UnknownKind then None else LastHeld(columns, values, c, |columns|);
            ValueOf(AssignAll(columns, values, sc).value, c) == if last.Some? then last else ValueOf(sc, c)
  {
    hide AssignOne, HeldValue, Shaped, Undecodable;
    if columns != [] {
      var n := |columns| - 1;
      ScalarAssigned(columns[..n], values, sc, c);
      LastHeldPrefix(columns, values, c, n, n);
      if columns[n] == c {
        AssignScalar(values[n], AssignAll(columns[..n], values, sc).value, c);
      } else {
        AssignElsewhere(columns[n], values[n], AssignAll(columns[..n], values, sc).value, c);
      }
    }
  }

  // A JSON field ends as the merge of the documents of its column into what it was.
  lemma {:induction false} JsonAssigned(columns: seq<Column>, values: seq<Holder>, sc: Scalars, c: Column, x: string)
    requires ShapedFor(columns, values) && AssignAll(columns, values, sc).Ok? && AccountKind(c) == JsonKind
    ensures MemberOfField(AssignAll(columns, values, sc).value, c, x)
         == LastMember(columns, values, c, x, MemberOfField(sc, c, x), |columns|)
  {
    hide AssignOne, MemberOfField, Shaped, Holds;
    if columns != [] {
      var n := |columns| - 1;
      JsonAssigned(columns[..n], values, sc, c, x);
      LastMemberPrefix(columns, values, c, x, MemberOfField(sc, c, x), n, n);
      AssignMember(columns[n], values[n], AssignAll(columns[..n], values, sc).value, c, x);
    }
  }

  // The position of the last document that the first k holders have for column c.
  function LastDocument(columns: seq<Column>, values: seq<Holder>, c: Column, k: nat): (i: Option<nat>)
    requires k <= |columns| <= |values|
    ensures i.Some? ==> i.value < k && columns[i.value] == c && values[i.value] != RawBytes(Blank)
  {
    if k == 0 then None
    else if columns[k - 1] == c && values[k - 1] != RawBytes(Blank) then Some(k - 1)
    else LastDocument(columns, values, c, k - 1)
  }

  lemma {:induction false} LastDocumentPrefix(columns: seq<Column>, values: seq<Holder>, c: Column, n: nat, k: nat)
    requires k <= n <= |columns| <= |values|
    ensures LastDocument(columns[..n], values, c, k) == LastDocument(columns, values, c, k)
  {
    if k > 0 {
      LastDocumentPrefix(columns, values, c, n, k - 1);
    }
  }

  // What a JSON field would be if the last document of its column replaced it.
  function Replacement(columns: seq<Column>, values: seq<Holder>, sc: Scalars, c: Column): Option<Cell>
    requires |columns| <= |values|
  {
    match LastDocument(columns, values, c, |columns|)
    case None => ValueOf(sc, c)
    case Some(i) => if values[i] == RawBytes(JsonNull) then None else HeldValue(values[i])
  }

  // The last document, if it is an object, has every member that the value before the
  // scan and the earlier documents leave.
  ghost predicate HasAllLeft(columns: seq<Column>, values: seq<Holder>, sc: Scalars, c: Column)
    requires |columns| <= |values|
  {
    var last := LastDocument(columns, values, c, |columns|);
    last.Some? && values[last.value].RawBytes? && values[last.value].doc.JsonObject? ==>
      forall x :: LastMember(columns, values, c, x, MemberOfField(sc, c, x), last.value).Some? ==>
        x in values[last.value].doc.members
  }

  // A JSON field ends as the last document of its column, or as it was, exactly if that
  // document leaves no member of another.
  lemma {:induction false} JsonReplacedIff(columns: seq<Column>, values: seq<Holder>, sc: Scalars, c: Column)
    requires ShapedFor(columns, values) && AssignAll(columns, values, sc).Ok? && AccountKind(c) == JsonKind
    ensures ValueOf(AssignAll(columns, values, sc).value, c) == Replacement(columns, values, sc, c)
       <==> HasAllLeft(columns, values, sc, c)
  {
    if columns == [] {
    } else if columns[|columns| - 1] == c && values[|columns| - 1] != RawBytes(Blank) {
      ReplacedLast(columns, values, sc, c);
    } else {
      hide AccountKind, Shaped, AssignOne, ValueOf, Replacement, HasAllLeft;
      var n := |columns| - 1;
      JsonReplacedIff(columns[..n], values, sc, c);
      KeepsField(columns[n], values[n], AssignAll(columns[..n], values, sc).value, c);
      SameLeft(columns, values, sc, c);
    }
  }

  lemma ReplacedLast(columns: seq<Column>, values: seq<Holder>, sc: Scalars, c: Column)
    requires ShapedFor(columns, values) && AssignAll(columns, values, sc).Ok? && AccountKind(c) == JsonKind
    requires columns != [] && columns[|columns| - 1] == c && values[|columns| - 1] != RawBytes(Blank)
    ensures ValueOf(AssignAll(columns, values, sc).value, c) == Replacement(columns, values, sc, c)
       <==> HasAllLeft(columns, values, sc, c)
  {
    hide AccountKind, Shaped, AssignOne, ValueOf, HeldValue, MemberOfField, LastMember;
    var n := |columns| - 1;
    LeftBefore(columns, values, sc, c);
    JsonHolder(c, values[n]);
    ReplacedBy(values[n], AssignAll(columns[..n], values, sc).value, c);
  }

  lemma KeepsField(d: Column, h: Holder, sc: Scalars, c: Column)
    requires AssignOne(d, h, sc).Ok? && AccountKind(c) == JsonKind && (d == c ==> h == RawBytes(Blank))
    ensures ValueOf(AssignOne(d, h, sc).value, c) == ValueOf(sc, c)
  {
    hide HeldValue, AccountKind;
    IdIsInt();
    if d != c {
      AssignElsewhere(d, h, sc, c);
    }
  }

  lemma ReplacedBy(h: Holder, sc: Scalars, c: Column)
    requires h.RawBytes? && h != RawBytes(Blank) && AccountKind(c) == JsonKind && c != Id && AssignOne(c, h, sc).Ok?
    ensures ValueOf(AssignOne(c, h, sc).value, c) == (if h == RawBytes(JsonNull) then None else HeldValue(h))
       <==> (h.doc.JsonObject? ==> forall x :: MemberOfField(sc, c, x).Some? ==> x in h.doc.members)
  {
    hide AccountKind, Members;
    if h.doc.JsonObject? {
      assert forall x :: MemberOfField(sc, c, x).Some? <==> x in Members(sc.fields, c);
      MergeIsLast(Members(sc.fields, c), h.doc.members);
    }
  }

  lemma MergeIsLast(m: map<string, string>, last: map<string, string>)
    ensures m + last == last <==> forall x :: x in m ==> x in last
  {
    if m + last == last {
      assert forall x :: x in m ==> x in m + last;
    }
  }

  // The members left before the last column.
  lemma LeftBefore(columns: seq<Column>, values: seq<Holder>, sc: Scalars, c: Column)
    requires columns != [] && ShapedFor(columns, values) && AssignAll(columns, values, sc).Ok?
    requires AccountKind(c) == JsonKind
    ensures var n := |columns| - 1;
            forall x :: MemberOfField(AssignAll(columns[..n], values, sc).value, c, x)
                        == LastMember(columns, values, c, x, MemberOfField(sc, c, x), n)
  {
    hide AssignOne, MemberOfField, Shaped, LastMember;
    var n := |columns| - 1;
    forall x
      ensures MemberOfField(AssignAll(columns[..n], values, sc).value, c, x)
           == LastMember(columns, values, c, x, MemberOfField(sc, c, x), n)
    {
      JsonAssigned(columns[..n], values, sc, c, x);
      LastMemberPrefix(columns, values, c, x, MemberOfField(sc, c, x), n, n);
    }
  }

  lemma SameLeft(columns: seq<Column>, values: seq<Holder>, sc: Scalars, c: Column)
    requires columns != [] && |columns| <= |values|
    requires columns[|columns| - 1] == c ==> values[|columns| - 1] == RawBytes(Blank)
    ensures HasAllLeft(columns[..|columns| - 1], values, sc, c) <==> HasAllLeft(columns, values, sc, c)
    ensures Replacement(columns[..|columns| - 1], values, sc, c) == Replacement(columns, values, sc, c)
  {
    hide MemberOfField, LastMember, HeldValue, ValueOf, LastDocument;
    StillLast(columns, values, c);
    var n := |columns| - 1;
    LastDocumentPrefix(columns, values, c, n, n);
    var last := LastDocument(columns, values, c, n);
    if last.Some? {
      forall x
        ensures LastMember(columns[..n], values, c, x, MemberOfField(sc, c, x), last.value)
             == LastMember(columns, values, c, x, MemberOfField(sc, c, x), last.value)
      {
        LastMemberPrefix(columns, values, c, x, MemberOfField(sc, c, x), n, last.value);
      }
    }
  }

  lemma StillLast(columns: seq<Column>, values: seq<Holder>, c: Column)
    requires columns != [] && |columns| <= |values|
    requires columns[|columns| - 1] == c ==> values[|columns| - 1] == RawBytes(Blank)
    ensures LastDocument(columns, values, c, |columns|) == LastDocument(columns, values, c, |columns| - 1)
  {
  }

  // {"a": 1} and then {"b": 2}, for the same column: the first entry stays.
  lemma RepeatedColumnMerges(c: Column, sc: Scalars)
    requires AccountKind(c) == JsonKind
    ensures var values := [RawBytes(JsonObject(map["a" := "1"])), RawBytes(JsonObject(map["b" := "2"]))];
            && ShapedFor([c, c], values) && AssignAll([c, c], values, sc).Ok?
            && MemberOfField(AssignAll([c, c], values, sc).value, c, "a") == Some("1")
            && ValueOf(AssignAll([c, c], values, sc).value, c) != Replacement([c, c], values, sc, c)
  {
    hide AccountKind, AssignAll;
    var values := [RawBytes(JsonObject(map["a" := "1"])), RawBytes(JsonObject(map["b" := "2"]))];
    ScanThenAssign([c, c], values, sc);
    JsonAssigned([c, c], values, sc, c, "a");
    assert "a" !in map["b" := "2"];
  }

  // A column without a field ends in `selected` with the last holder that it had.
  lemma {:induction false} SelectedAssigned(
    columns: seq<Column>, values: seq<Holder>, sc: Scalars, c: Column, i: nat)
    requires ShapedFor(columns, values) && AssignAll(columns, values, sc).Ok? && AccountKind(c) == UnknownKind
    requires i < |columns| && columns[i] == c && forall k :: i < k < |columns| ==> columns[k] != c
    ensures c in AssignAll(columns, values, sc).value.selected
    ensures AssignAll(columns, values, sc).value.selected[c] == values[i]
    decreases |columns|
  {
    hide AccountKind, Shaped, HeldValue, Unmarshal;
    var n := |columns| - 1;
    if i < n {
      SelectedAssigned(columns[..n], values, sc, c, i);
    }
  }

  // The id ends as the last one scanned, NULL or not.
  lemma {:induction false} IdAssigned(columns: seq<Column>, values: seq<Holder>, sc: Scalars, i: nat)
    requires ShapedFor(columns, values) && AssignAll(columns, values, sc).Ok?
    requires i < |columns| && columns[i] == Id && forall k :: i < k < |columns| ==> columns[k] != Id
    ensures values[i].NullInt64?
    ensures ValueOf(AssignAll(columns, values, sc).value, Id) == Some(IntCell(values[i].i))
    decreases |columns|
  {
    IdIsInt();
    hide AccountKind, HeldValue, Unmarshal;
    var n := |columns| - 1;
    if i < n {
      IdAssigned(columns[..n], values, sc, i);
      AssignElsewhere(columns[n], values[n], AssignAll(columns[..n], values, sc).value, Id);
    }
  }

  // The holders fit the fields of the struct (account.go:17-96): maps, booleans, a float,
  // integers, strings and times. The keys of the join table and unknown names have none.
  lemma HoldersFitFields(c: Column)
    ensures AccountKind(c) == JsonKind <==> c.Credentials? || c.Extra?
    ensures AccountKind(c) == BoolKind <==> c.AutoPauseOnExpired? || c.Schedulable?
    ensures AccountKind(c) == FloatKind <==> c.RateMultiplier?
    ensures AccountKind(c) == IntKind
       <==> c.Id? || c.ProxyId? || c.ProxyFallbackOriginId? || c.Concurrency? || c.LoadFactor?
            || c.Priority? || c.ParentAccountId?
    ensures AccountKind(c) == StringKind
       <==> c.Name? || c.Notes? || c.Platform? || c.Type? || c.Status? || c.ErrorMessage?
            || c.TempUnschedulableReason? || c.SessionWindowStatus? || c.QuotaDimension?
    ensures AccountKind(c) == TimeKind
       <==> c.CreatedAt? || c.UpdatedAt? || c.DeletedAt? || c.LastUsedAt? || c.ExpiresAt?
            || c.RateLimitedAt? || c.RateLimitResetAt? || c.OverloadUntil? || c.TempUnschedulableUntil?
            || c.SessionWindowStart? || c.SessionWindowEnd?
    ensures AccountKind(c) == UnknownKind <==> c.AccountId? || c.GroupId? || c.Other?
  {
  }

  function ValueOf(sc: Scalars, c: Column): Option<Cell> {
    if c in sc.fields then Some(sc.fields[c]) else None
  }

  function CellOf(row: Row, c: Column): Cell {
    if c in row then row[c] else Null
  }

  // Cells have the type of their column, and JSON text decodes into a map.
  ghost predicate TypedRow(row: Row) {
    forall c :: c in row ==> Fits(AccountKind(c), row[c]) && row[c] != JsonCell(Malformed)
  }

  ghost predicate Known(columns: seq<Column>) {
    forall c :: c in columns ==> AccountKind(c) != UnknownKind
  }

  lemma KeyColumnsKnown()
    ensures Known([Id, ProxyId, ParentAccountId])
  {
    forall c | c in [Id, ProxyId, ParentAccountId]
      ensures AccountKind(c) != UnknownKind
    {
      assert c == Id || c == ProxyId || c == ParentAccountId;
    }
  }

  // The holders after rows.Scan of a typed row.
  ghost function ScanRow(columns: seq<Column>, row: Row): (values: seq<Holder>)
    requires TypedRow(row)
    ensures |values| == |columns|
    ensures forall i :: 0 <= i < |columns| ==> values[i] == Scanned(AccountKind(columns[i]), CellOf(row, columns[i]))
    ensures ShapedFor(columns, values)
  {
    seq(|columns|, i requires 0 <= i < |columns| => Scanned(AccountKind(columns[i]), CellOf(row, columns[i])))
  }

  // Decoding a row into a new entity keeps exactly the present selected cells.
  lemma {:induction false} DecodesRow(columns: seq<Column>, row: Row)
    requires TypedRow(row) && Known(columns)
    requires Id in columns ==> CellOf(row, Id).IntCell?
    ensures AssignAll(columns, ScanRow(columns, row), Scalars(map[], map[]))
         == Ok(Scalars(Decode(columns, row), map[]))
  {
    DecodesPrefix(columns, row, |columns|);
    assert columns[..|columns|] == columns;
  }

  lemma {:induction false} DecodesPrefix(columns: seq<Column>, row: Row, k: nat)
    requires k <= |columns|
    requires TypedRow(row) && Known(columns)
    requires Id in columns ==> CellOf(row, Id).IntCell?
    ensures AssignAll(columns[..k], ScanRow(columns, row), Scalars(map[], map[]))
         == Ok(Scalars(Decode(columns[..k], row), map[]))
  {
    hide AssignOne, Decode, Present, TypedRow, AccountKind;
    NothingDecoded(row);
    if k > 0 {
      DecodesPrefix(columns, row, k - 1);
      assert columns[..k][..k - 1] == columns[..k - 1];
      AssignScanned(columns[..k - 1], columns[k - 1], row);
      DecodeSnoc(columns[..k - 1], columns[k - 1], row);
      assert columns[..k] == columns[..k - 1] + [columns[k - 1]];
    }
  }

  lemma NothingDecoded(row: Row)
    ensures Decode([], row) == map[]
  {
  }

  lemma AssignScanned(columns: seq<Column>, c: Column, row: Row)
    requires TypedRow(row) && AccountKind(c) != UnknownKind
    requires c == Id ==> CellOf(row, Id).IntCell?
    ensures var fields := Decode(columns, row);
            AssignOne(c, Scanned(AccountKind(c), CellOf(row, c)), Scalars(fields, map[]))
            == Ok(Scalars(if Present(CellOf(row, c)) then fields[c := CellOf(row, c)] else fields, map[]))
  {
    var fields, cell := Decode(columns, row), CellOf(row, c);
    if AccountKind(c) == JsonKind && cell.JsonCell? {
      if cell.doc.JsonObject? {
        assert Members(fields, c) + cell.doc.members == cell.doc.members;
      } else {
        assert fields - {c} == fields;
      }
    }
  }

  lemma DecodeSnoc(columns: seq<Column>, c: Column, row: Row)
    ensures Decode(columns + [c], row)
         == if Present(CellOf(row, c)) then Decode(columns, row)[c := CellOf(row, c)] else Decode(columns, row)
  {
    var cell, before := CellOf(row, c), Decode(columns, row);
    assert forall d :: d in columns + [c] <==> d in columns || d == c;
    assert Decode(columns + [c], row) == if Present(cell) then before[c := cell] else before;
  }

  datatype EdgeError = NotFound | NotLoaded

  // Group, Proxy and UsageLog, of which the loaders only use the scalar fields.
  class Entity {
    const fields: Row

    constructor (fields: Row)
      ensures this.fields == fields
    {
      this.fields := fields;
    }

    function ID(): int {
      IntOf(fields, Id)
    }
  }

  class Account {
    var fields: Row
    var selected: map<Column, Holder>
    // Edges (loadedTypes is set when the node is made)
    var Groups: seq<Entity>
    var Proxy: Entity?
    var Parent: Account?
    var Children: seq<Account>
    var UsageLogs: seq<Entity>
    var AccountGroups: seq<AccountGroup>
    const loadedTypes: seq<bool>

    constructor (loadedTypes: seq<bool>)
      ensures fields == map[] && selected == map[] && this.loadedTypes == loadedTypes
      ensures Groups == [] && Proxy == null && Parent == null
      ensures Children == [] && UsageLogs == [] && AccountGroups == []
    {
      fields, selected := map[], map[];
      Groups, Proxy, Parent, Children, UsageLogs, AccountGroups := [], null, null, [], [], [];
      this.loadedTypes := loadedTypes;
    }

    function ID(): int
      reads this`fields
    {
      IntOf(fields, Id)
    }

    // assignValues (account.go:193-417).
    method AssignValues(columns: seq<Column>, values: array<Holder>) returns (r: Result<(), ScanError>)
      modifies this`fields, this`selected
      ensures r.Err? && r.error.LengthMismatch? <==> values.Length < |columns|
      ensures |columns| <= values.Length ==>
                match AssignAll(columns, values[..], old(Scalars(fields, selected)))
                case Err(e) => r == Err(e)
                case Ok(sc) => r == Ok(()) && Scalars(fields, selected) == sc
    {
      if values.Length < |columns| {
        return Err(LengthMismatch);
      }
      ghost var sc := Scalars(fields, selected);
      for i := 0 to |columns|
        invariant AssignAll(columns[..i], values[..], sc) == Ok(Scalars(fields, selected))
      {
        var c, h := columns[i], values[i];
        assert columns[..i + 1][..i] == columns[..i];
        var kind := AccountKind(c);
        if kind == UnknownKind {
          selected := selected[c := h];
        } else if !Shaped(kind, h) {
          AssignFails(columns, values[..], sc, i + 1);
          return Err(UnexpectedType(c));
        } else if c == Id {
          fields := fields[Id := IntCell(h.i)];
        } else if kind == JsonKind {
          match Unmarshal(c, h.doc, fields)
          case Err(e) =>
            AssignFails(columns, values[..], sc, i + 1);
            return Err(e);
          case Ok(decoded) =>
            fields := decoded;
        } else if HeldValue(h).Some? {
          fields := fields[c := HeldValue(h).value];
        }
      }
      assert columns[..|columns|] == columns;
      r := Ok(());
    }

    function GroupsOrErr(): Result<seq<Entity>, EdgeError>
      requires |loadedTypes| == 6
      reads this
    {
      if loadedTypes[0] then Ok(Groups) else Err(NotLoaded)
    }

    function ProxyOrErr(): Result<Entity, EdgeError>
      requires |loadedTypes| == 6
      reads this
    {
      if Proxy != null then Ok(Proxy) else if loadedTypes[1] then Err(NotFound) else Err(NotLoaded)
    }

    function ParentOrErr(): Result<Account, EdgeError>
      requires |loadedTypes| == 6
      reads this
    {
      if Parent != null then Ok(Parent) else if loadedTypes[2] then Err(NotFound) else Err(NotLoaded)
    }

    function ChildrenOrErr(): Result<seq<Account>, EdgeError>
      requires |loadedTypes| == 6
      reads this
    {
      if loadedTypes[3] then Ok(Children) else Err(NotLoaded)
    }

    function UsageLogsOrErr(): Result<seq<Entity>, EdgeError>
      requires |loadedTypes| == 6
      reads this
    {
      if loadedTypes[4] then Ok(UsageLogs) else Err(NotLoaded)
    }

    function AccountGroupsOrErr(): Result<seq<AccountGroup>, EdgeError>
      requires |loadedTypes| == 6
      reads this
    {
      if loadedTypes[5] then Ok(AccountGroups) else Err(NotLoaded)
    }
  }

  // A prefix that fails to assign makes the whole list fail.
  lemma {:induction false} AssignFails(
    columns: seq<Column>, values: seq<Holder>, sc: Scalars, k: nat)
    requires k <= |columns| <= |values|
    requires AssignAll(columns[..k], values, sc).Err?
    ensures AssignAll(columns, values, sc) == AssignAll(columns[..k], values, sc)
    decreases |columns|
  {
    if k < |columns| {
      var t := columns[..|columns| - 1];
      assert t[..k] == columns[..k];
      AssignFails(t, values, sc, k);
    } else {
      assert columns[..k] == columns;
    }
  }

  // scanValues (account.go:168-189).
  method ScanValues(columns: seq<Column>) returns (values: array<Holder>)
    ensures fresh(values) && values.Length == |columns|
    ensures forall i :: 0 <= i < |columns| ==> values[i] == NewHolder(AccountKind(columns[i]))
    ensures ShapedFor(columns, values[..])
  {
    values := new Holder[|columns|](i => UnknownType(Null));
    for i := 0 to |columns|
      invariant forall j :: 0 <= j < i ==> values[j] == NewHolder(AccountKind(columns[j]))
    {
      values[i] := NewHolder(AccountKind(columns[i]));
    }
  }

  // rows.Scan: fill the holders with the cells of one row of the result.
  method RowsScan(columns: seq<Column>, values: array<Holder>, row: Row)
    requires TypedRow(row) && values.Length == |columns|
    requires ShapedFor(columns, values[..])
    modifies values
    ensures values[..] == ScanRow(columns, row)
  {
    for i := 0 to |columns|
      invariant forall j :: 0 <= j < i ==> values[j] == ScanRow(columns, row)[j]
    {
      values[i] := Scanned(AccountKind(columns[i]), CellOf(row, columns[i]));
    }
  }

  class AccountGroup {
    const fields: Row
    var Account: Account?
    var Group: Entity?
    const loadedTypes: seq<bool>

    constructor (fields: Row, loadedTypes: seq<bool>)
      ensures this.fields == fields && this.loadedTypes == loadedTypes
      ensures Account == null && Group == null
    {
      this.fields, this.loadedTypes := fields, loadedTypes;
      Account, Group := null, null;
    }

    function AccountOrErr(): Result<Account, EdgeError>
      requires |loadedTypes| == 2
      reads this
    {
      if Account != null then Ok(Account) else if loadedTypes[0] then Err(NotFound) else Err(NotLoaded)
    }

    function GroupOrErr(): Result<Entity, EdgeError>
      requires |loadedTypes| == 2
      reads this
    {
      if Group != null then Ok(Group) else if loadedTypes[1] then Err(NotFound) else Err(NotLoaded)
    }
  }
}
