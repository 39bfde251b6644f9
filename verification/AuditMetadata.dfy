/** The audit metadata sanitizer (audit/service.py): allowlist, redaction and a shared budget. */
module AuditMetadata {
  import opened Basics
  import opened Names

  datatype Key = Text(name: string) | NotText

  datatype Entry = Entry(key: Key, value: Value)

  // The text of a UUID or of a UTC instant.
  type ShortText = s: string | |s| <= 40 witness ""

  /** A Python value offered as metadata, or the sanitized JSON value. */
  datatype Value =
    | Null
    | Bool(b: bool)
    | Int(n: int)
    | Float(x: real)
    | NotFinite
    | Str(s: string)
    | Uuid(text: ShortText)
    | Instant(text: ShortText)
    | NaiveInstant
    | List(items: seq<Value>)
    | Tuple(items: seq<Value>)
    | Mapping(entries: seq<Entry>)
    | Unsupported

  datatype Error = ValueError | TypeError

  const REDACTED := Str("[REDACTED]")
  const MAX_BYTES: nat := 16384
  const MAX_DEPTH: int := 4
  const MAX_FIELDS: nat := 50
  const MAX_ITEMS: nat := 20
  const MAX_VALUES: int := 100
  const MAX_STRING: nat := 500

  const SENSITIVE: set<string> :=
    {"address", "authorization", "body", "card", "cardholder", "connection", "cookie", "credential", "cvc", "cvv",
     "email", "hash", "ip", "otp", "pan", "password", "passwd", "payload", "phone", "secret", "session", "token"}

  /** Sensitivity of an allowed key, which is lower case, so its parts are those between underscores. */
  predicate Sensitive(name: string) {
    exists i :: 0 <= i < |Split(name, '_')| && Split(name, '_')[i] in SENSITIVE
  }

  predicate Listed(key: Key, allowed: set<string>) {
    key.Text? && key.name in allowed
  }

  /** The value of this key is looked at. */
  predicate Open(key: Key, allowed: set<string>) {
    Listed(key, allowed) && !Sensitive(key.name)
  }

  function Keys(entries: seq<Entry>): set<Key> {
    set i | 0 <= i < |entries| :: entries[i].key
  }

  /** output[key] = value on an insertion-ordered dictionary. */
  function Put(entries: seq<Entry>, name: string, v: Value): seq<Entry> {
    if Text(name) !in Keys(entries) then entries + [Entry(Text(name), v)]
    else
      var n := |entries| - 1;
      if entries[n].key == Text(name) then entries[..n] + [Entry(Text(name), v)]
      else Put(entries[..n], name, v) + [entries[n]]
  }

  // ---- the traversal ---------------------------------------------------------------

  function SanitizeMapping(entries: seq<Entry>, allowed: set<string>, depth: int, budget: int)
    : Result<(seq<Entry>, int), Error>
    decreases entries, 1
  {
    if depth > MAX_DEPTH || |entries| > MAX_FIELDS then Err(ValueError)
    else SanitizeFields(entries, allowed, depth, budget)
  }

  function SanitizeFields(entries: seq<Entry>, allowed: set<string>, depth: int, budget: int)
    : Result<(seq<Entry>, int), Error>
    decreases entries, 0
  {
    if entries == [] then Ok(([], budget))
    else
      var last := entries[|entries| - 1];
      match SanitizeFields(entries[..|entries| - 1], allowed, depth, budget)
      case Err(e) => Err(e)
      case Ok((done, left)) =>
        if last.key.NotText? then Err(TypeError)
        else if !Listed(last.key, allowed) then Ok((done, left))
        else if left - 1 < 0 then Err(ValueError)
        else if Sensitive(last.key.name) then Ok((Put(done, last.key.name, REDACTED), left - 1))
        else
          assert last.value < last;
          match SanitizeValue(last.value, allowed, depth + 1, left - 1)
          case Err(e) => Err(e)
          case Ok((v, left')) => Ok((Put(done, last.key.name, v), left'))
  }

  function SanitizeValue(v: Value, allowed: set<string>, depth: int, budget: int): Result<(Value, int), Error>
    decreases v, 2
  {
    if depth > MAX_DEPTH then Err(ValueError)
    else
      match v
      case NotFinite => Err(ValueError)
      case Str(s) => Ok((Str(Cut(s)), budget))
      case Uuid(text) => Ok((Str(text), budget))
      case Instant(text) => Ok((Str(text), budget))
      case NaiveInstant => Err(ValueError)
      case Mapping(entries) =>
        (match SanitizeMapping(entries, allowed, depth, budget)
         case Err(e) => Err(e)
         case Ok((fields, left)) => Ok((Mapping(fields), left)))
      case List(items) => SanitizeList(items, allowed, depth, budget)
      case Tuple(items) => SanitizeList(items, allowed, depth, budget)
      case Unsupported => Err(TypeError)
      case _ => Ok((v, budget))
  }

  function Cut(s: string): (r: string)
    ensures |r| <= MAX_STRING && (|s| <= MAX_STRING ==> r == s)
  {
    if |s| <= MAX_STRING then s else s[..MAX_STRING]
  }

  function SanitizeList(items: seq<Value>, allowed: set<string>, depth: int, budget: int): Result<(Value, int), Error>
    decreases items, 1
  {
    if |items| > MAX_ITEMS then Err(ValueError)
    else
      match SanitizeItems(items, allowed, depth, budget)
      case Err(e) => Err(e)
      case Ok((done, left)) => Ok((List(done), left))
  }

  function SanitizeItems(items: seq<Value>, allowed: set<string>, depth: int, budget: int)
    : Result<(seq<Value>, int), Error>
    decreases items, 0
  {
    if items == [] then Ok(([], budget))
    else
      var n := |items| - 1;
      match SanitizeItems(items[..n], allowed, depth, budget)
      case Err(e) => Err(e)
      case Ok((done, left)) =>
        if left - 1 < 0 then Err(ValueError)
        else
          match SanitizeValue(items[n], allowed, depth + 1, left - 1)
          case Err(e) => Err(e)
          case Ok((v, left')) => Ok((done + [v], left'))
  }

  predicate SafeKeys(allowed: set<string>) {
    |allowed| <= MAX_VALUES && forall k | k in allowed :: SafeKey(k)
  }

  /** encoded is the length of the compact UTF-8 JSON text, or None if it cannot be encoded. */
  function Sanitize(metadata: Value, allowed: set<string>, encoded: seq<Entry> -> Option<nat>)
    : Result<seq<Entry>, Error>
  {
    if !metadata.Mapping? then Err(TypeError)
    else if !SafeKeys(allowed) then Err(ValueError)
    else
      match SanitizeMapping(metadata.entries, allowed, 0, MAX_VALUES)
      case Err(e) => Err(e)
      case Ok((fields, _)) =>
        if encoded(fields).None? || encoded(fields).value > MAX_BYTES then Err(ValueError) else Ok(fields)
  }

  // ---- non-interference ------------------------------------------------------------

  /**
   * The same but for what lies under keys that are not open, at any depth: values under
   * sensitive keys, and whole fields under keys that are not listed.
   */
  predicate Alike(v: Value, w: Value, allowed: set<string>)
    decreases v
  {
    match v
    case List(items) => w.List? && AlikeItems(items, w.items, allowed)
    case Tuple(items) => w.Tuple? && AlikeItems(items, w.items, allowed)
    case Mapping(entries) => w.Mapping? && AlikeEntries(entries, w.entries, allowed)
    case _ => v == w
  }

  predicate AlikeItems(items: seq<Value>, others: seq<Value>, allowed: set<string>)
    decreases items
  {
    |items| == |others| && forall i | 0 <= i < |items| :: Alike(items[i], others[i], allowed)
  }

  predicate AlikeEntries(entries: seq<Entry>, others: seq<Entry>, allowed: set<string>)
    decreases entries
  {
    && |entries| == |others|
    && forall i | 0 <= i < |entries| ::
         if entries[i].key.Text? && others[i].key.Text? && !Listed(entries[i].key, allowed) then
           !Listed(others[i].key, allowed)
         else
           && entries[i].key == others[i].key
           && (Open(entries[i].key, allowed) ==>
                 assert entries[i].value < entries[i];
                 Alike(entries[i].value, others[i].value, allowed))
  }

  lemma {:induction false} AlikeValues(v: Value, w: Value, allowed: set<string>, depth: int, budget: int)
    requires Alike(v, w, allowed)
    ensures SanitizeValue(v, allowed, depth, budget) == SanitizeValue(w, allowed, depth, budget)
    decreases v
  {
    if depth <= MAX_DEPTH {
      match v
      case List(items) => AlikeLists(items, w.items, allowed, depth, budget);
      case Tuple(items) => AlikeLists(items, w.items, allowed, depth, budget);
      case Mapping(entries) => AlikeFields(entries, w.entries, allowed, depth, budget);
      case _ =>
    }
  }

  lemma {:induction false} AlikeLists(items: seq<Value>, others: seq<Value>, allowed: set<string>, depth: int,
                                      budget: int)
    requires AlikeItems(items, others, allowed)
    ensures SanitizeItems(items, allowed, depth, budget) == SanitizeItems(others, allowed, depth, budget)
    decreases items
  {
    if items != [] {
      var n := |items| - 1;
      AlikeLists(items[..n], others[..n], allowed, depth, budget);
      var r := SanitizeItems(items[..n], allowed, depth, budget);
      if r.Ok? {
        AlikeValues(items[n], others[n], allowed, depth + 1, r.value.1 - 1);
      }
    }
  }

  lemma {:induction false} AlikeFields(entries: seq<Entry>, others: seq<Entry>, allowed: set<string>, depth: int,
                                       budget: int)
    requires AlikeEntries(entries, others, allowed)
    ensures SanitizeFields(entries, allowed, depth, budget) == SanitizeFields(others, allowed, depth, budget)
    decreases entries
  {
    if entries != [] {
      var n := |entries| - 1;
      assert forall i | 0 <= i < n :: entries[..n][i] == entries[i] && others[..n][i] == others[i];
      AlikeFields(entries[..n], others[..n], allowed, depth, budget);
      var r := SanitizeFields(entries[..n], allowed, depth, budget);
      assert entries[n].value < entries[n];
      if r.Ok? && Open(entries[n].key, allowed) {
        AlikeValues(entries[n].value, others[n].value, allowed, depth + 1, r.value.1 - 1);
      }
    }
  }

  /** What lies under keys that are not open reaches neither the result nor the error. */
  lemma NonInterference(v: Value, w: Value, allowed: set<string>, encoded: seq<Entry> -> Option<nat>)
    requires Alike(v, w, allowed)
    ensures Sanitize(v, allowed, encoded) == Sanitize(w, allowed, encoded)
  {
    if v.Mapping? {
      AlikeFields(v.entries, w.entries, allowed, 0, MAX_VALUES);
    }
  }

  // ---- idempotence -----------------------------------------------------------------

  predicate DistinctKeys(entries: seq<Entry>) {
    forall i, j | 0 <= i < j < |entries| :: entries[i].key != entries[j].key
  }

  /** JSON values within the bounds that hold only open values and redactions. */
  predicate Clean(v: Value, allowed: set<string>, depth: int)
    decreases v
  {
    && depth <= MAX_DEPTH
    && match v
       case NotFinite => false
       case Str(s) => |s| <= MAX_STRING
       case Uuid(_) => false
       case Instant(_) => false
       case NaiveInstant => false
       case Tuple(_) => false
       case Unsupported => false
       case List(items) => |items| <= MAX_ITEMS && CleanItems(items, allowed, depth)
       case Mapping(entries) => |entries| <= MAX_FIELDS && CleanFields(entries, allowed, depth)
       case _ => true
  }

  predicate CleanItems(items: seq<Value>, allowed: set<string>, depth: int)
    decreases items
  {
    forall i | 0 <= i < |items| :: Clean(items[i], allowed, depth + 1)
  }

  predicate CleanFields(entries: seq<Entry>, allowed: set<string>, depth: int)
    decreases entries
  {
    && DistinctKeys(entries)
    && forall i | 0 <= i < |entries| ::
         && Listed(entries[i].key, allowed)
         && if Sensitive(entries[i].key.name) then entries[i].value == REDACTED
            else
              assert entries[i].value < entries[i];
              Clean(entries[i].value, allowed, depth + 1)
  }

  /** The budget a clean value uses: one unit a field and one an item. */
  function Cost(v: Value): nat
    decreases v
  {
    match v
    case List(items) => CostItems(items)
    case Mapping(entries) => CostFields(entries)
    case _ => 0
  }

  function CostItems(items: seq<Value>): nat
    decreases items
  {
    if items == [] then 0 else CostItems(items[..|items| - 1]) + 1 + Cost(items[|items| - 1])
  }

  function CostFields(entries: seq<Entry>): nat
    decreases entries
  {
    if entries == [] then 0
    else
      var last := entries[|entries| - 1];
      assert last.value < last;
      CostFields(entries[..|entries| - 1]) + 1 + Cost(last.value)
  }

  predicate CleanField(e: Entry, allowed: set<string>, depth: int) {
    Listed(e.key, allowed) && if Sensitive(e.key.name) then e.value == REDACTED else Clean(e.value, allowed, depth + 1)
  }

  lemma CleanFieldsSnoc(entries: seq<Entry>, allowed: set<string>, depth: int)
    requires entries != []
    ensures var n := |entries| - 1;
            CleanFields(entries, allowed, depth)
            <==> && CleanFields(entries[..n], allowed, depth) && entries[n].key !in Keys(entries[..n])
                 && CleanField(entries[n], allowed, depth)
  {
    hide Sensitive, Clean;
    var n := |entries| - 1;
    assert forall i | 0 <= i < n :: entries[..n][i] == entries[i];
    if CleanFields(entries[..n], allowed, depth) && entries[n].key !in Keys(entries[..n]) {
      forall i | 0 <= i < n ensures entries[i].key != entries[n].key {
        assert entries[..n][i].key in Keys(entries[..n]);
      }
    }
  }

  /** A dictionary assignment keeps clean fields clean and uses at most one more unit than its value. */
  lemma {:induction false} PutClean(entries: seq<Entry>, name: string, v: Value, allowed: set<string>, depth: int)
    requires CleanFields(entries, allowed, depth) && CleanField(Entry(Text(name), v), allowed, depth)
    ensures var more := Put(entries, name, v);
            && CleanFields(more, allowed, depth) && |more| <= |entries| + 1
            && CostFields(more) <= CostFields(entries) + 1 + Cost(v)
            && Keys(more) == Keys(entries) + {Text(name)}
    decreases |entries|
  {
    var more := Put(entries, name, v);
    var last := Entry(Text(name), v);
    hide CleanFields, CleanField, Cost;
    CleanFieldsSnoc(more, allowed, depth);
    if Text(name) !in Keys(entries) {
      assert more[..|entries|] == entries;
      KeysSnoc(more);
    } else {
      var n := |entries| - 1;
      CleanFieldsSnoc(entries, allowed, depth);
      KeysSnoc(entries);
      KeysSnoc(more);
      if entries[n].key == Text(name) {
        assert more[..n] == entries[..n];
      } else {
        PutClean(entries[..n], name, v, allowed, depth);
        assert more[..|more| - 1] == Put(entries[..n], name, v);
      }
    }
  }

  lemma KeysSnoc(entries: seq<Entry>)
    requires entries != []
    ensures Keys(entries) == Keys(entries[..|entries| - 1]) + {entries[|entries| - 1].key}
  {
    var n := |entries| - 1;
    forall k | k in Keys(entries) ensures k in Keys(entries[..n]) + {entries[n].key} {
      var i :| 0 <= i < |entries| && entries[i].key == k;
      if i < n {
        assert entries[..n][i].key == k;
      }
    }
    forall k | k in Keys(entries[..n]) ensures k in Keys(entries) {
      var i :| 0 <= i < n && entries[..n][i].key == k;
      assert entries[i].key == k;
    }
  }

  /** Whatever the sanitizer returns is clean and used at most the budget it spent. */
  lemma {:induction false} ResultIsClean(v: Value, allowed: set<string>, depth: int, budget: int)
    requires SanitizeValue(v, allowed, depth, budget).Ok?
    ensures var (u, left) := SanitizeValue(v, allowed, depth, budget).value;
            Clean(u, allowed, depth) && Cost(u) <= budget - left && (budget >= 0 ==> left >= 0)
    decreases v
  {
    match v
    case List(items) => ResultItemsClean(items, allowed, depth, budget);
    case Tuple(items) => ResultItemsClean(items, allowed, depth, budget);
    case Mapping(entries) => ResultFieldsClean(entries, allowed, depth, budget);
    case _ =>
  }

  lemma {:induction false} ResultItemsClean(items: seq<Value>, allowed: set<string>, depth: int, budget: int)
    requires SanitizeItems(items, allowed, depth, budget).Ok?
    ensures var (done, left) := SanitizeItems(items, allowed, depth, budget).value;
            && |done| == |items| && CleanItems(done, allowed, depth) && CostItems(done) <= budget - left
            && (budget >= 0 ==> left >= 0)
    decreases items
  {
    if items != [] {
      var n := |items| - 1;
      ResultItemsClean(items[..n], allowed, depth, budget);
      var (done, left) := SanitizeItems(items[..n], allowed, depth, budget).value;
      ResultIsClean(items[n], allowed, depth + 1, left - 1);
      var (all, _) := SanitizeItems(items, allowed, depth, budget).value;
      assert all[..n] == done;
    }
  }

  lemma {:induction false} ResultFieldsClean(entries: seq<Entry>, allowed: set<string>, depth: int, budget: int)
    requires SanitizeFields(entries, allowed, depth, budget).Ok?
    ensures var (done, left) := SanitizeFields(entries, allowed, depth, budget).value;
            && |done| <= |entries| && CleanFields(done, allowed, depth) && CostFields(done) <= budget - left
            && (budget >= 0 ==> left >= 0)
    decreases entries
  {
    hide Sensitive, Clean, CleanFields, Put, Cost;
    if entries == [] {
      NoFieldsAreClean(allowed, depth);
    } else {
      var last := entries[|entries| - 1];
      ResultFieldsClean(entries[..|entries| - 1], allowed, depth, budget);
      var (done, left) := SanitizeFields(entries[..|entries| - 1], allowed, depth, budget).value;
      assert last.value < last;
      if Listed(last.key, allowed) {
        if Sensitive(last.key.name) {
          RedactionIsClean(depth);
          PutClean(done, last.key.name, REDACTED, allowed, depth);
        } else {
          ResultIsClean(last.value, allowed, depth + 1, left - 1);
          var (v, _) := SanitizeValue(last.value, allowed, depth + 1, left - 1).value;
          PutClean(done, last.key.name, v, allowed, depth);
        }
      }
    }
  }

  lemma NoFieldsAreClean(allowed: set<string>, depth: int)
    ensures CleanFields([], allowed, depth)
  {
  }

  lemma RedactionIsClean(depth: int)
    ensures Cost(REDACTED) == 0
  {
  }

  /** A clean value is a fixed point of the sanitizer, under any budget it fits. */
  lemma {:induction false} CleanIsFixed(v: Value, allowed: set<string>, depth: int, budget: int)
    requires Clean(v, allowed, depth) && Cost(v) <= budget
    ensures SanitizeValue(v, allowed, depth, budget) == Ok((v, budget - Cost(v)))
    decreases v
  {
    hide CleanItems, CleanFields, CostItems, CostFields, SanitizeItems, SanitizeFields, Sensitive;
    match v
    case List(items) => CleanItemsAreFixed(items, allowed, depth, budget);
    case Mapping(entries) => CleanFieldsAreFixed(entries, allowed, depth, budget);
    case _ =>
  }

  lemma {:induction false} CleanItemsAreFixed(items: seq<Value>, allowed: set<string>, depth: int, budget: int)
    requires CleanItems(items, allowed, depth) && CostItems(items) <= budget
    ensures SanitizeItems(items, allowed, depth, budget) == Ok((items, budget - CostItems(items)))
    decreases items
  {
    hide Clean, Cost, SanitizeValue;
    if items != [] {
      var n := |items| - 1;
      CleanItemsAreFixed(items[..n], allowed, depth, budget);
      CleanIsFixed(items[n], allowed, depth + 1, budget - CostItems(items[..n]) - 1);
      assert items == items[..n] + [items[n]];
    }
  }

  lemma {:induction false} CleanFieldsAreFixed(entries: seq<Entry>, allowed: set<string>, depth: int, budget: int)
    requires CleanFields(entries, allowed, depth) && CostFields(entries) <= budget
    ensures SanitizeFields(entries, allowed, depth, budget) == Ok((entries, budget - CostFields(entries)))
    decreases entries
  {
    hide Sensitive, Clean, CleanFields, Cost, SanitizeValue, Put, Keys;
    if entries != [] {
      var n := |entries| - 1;
      CleanFieldsSnoc(entries, allowed, depth);
      CleanFieldsAreFixed(entries[..n], allowed, depth, budget);
      PutNew(entries);
      assert entries[n].value < entries[n];
      if Sensitive(entries[n].key.name) {
        RedactionIsClean(depth);
      } else {
        CleanIsFixed(entries[n].value, allowed, depth + 1, budget - CostFields(entries[..n]) - 1);
      }
    }
  }

  lemma PutNew(entries: seq<Entry>)
    requires entries != [] && entries[|entries| - 1].key.Text?
    requires entries[|entries| - 1].key !in Keys(entries[..|entries| - 1])
    ensures var last := entries[|entries| - 1];
            Put(entries[..|entries| - 1], last.key.name, last.value) == entries
  {
    hide Keys;
    assert entries == entries[..|entries| - 1] + [entries[|entries| - 1]];
  }

  /** Sanitizing a sanitized value with the same allowlist succeeds and returns it unchanged. */
  lemma Idempotence(v: Value, allowed: set<string>, encoded: seq<Entry> -> Option<nat>)
    requires Sanitize(v, allowed, encoded).Ok?
    ensures var fields := Sanitize(v, allowed, encoded).value;
            Sanitize(Mapping(fields), allowed, encoded) == Ok(fields)
  {
    ResultFieldsClean(v.entries, allowed, 0, MAX_VALUES);
    var (fields, left) := SanitizeFields(v.entries, allowed, 0, MAX_VALUES).value;
    CleanFieldsAreFixed(fields, allowed, 0, MAX_VALUES);
    hide SanitizeFields, CleanFields, SafeKeys;
  }

  /**
   * The results of the sanitizer are exactly the mappings of open values and redactions within
   * the depth, size, budget and byte bounds; these are the mappings it leaves alone.
   */
  lemma ResultsAreTheCleanMappings(fields: seq<Entry>, allowed: set<string>, encoded: seq<Entry> -> Option<nat>)
    ensures Sanitize(Mapping(fields), allowed, encoded) == Ok(fields)
            <==> && SafeKeys(allowed) && |fields| <= MAX_FIELDS && CleanFields(fields, allowed, 0)
                 && CostFields(fields) <= MAX_VALUES && encoded(fields).Some? && encoded(fields).value <= MAX_BYTES
  {
    hide CleanFields, SafeKeys, SanitizeFields, CostFields;
    if Sanitize(Mapping(fields), allowed, encoded) == Ok(fields) {
      ResultFieldsClean(fields, allowed, 0, MAX_VALUES);
    }
    if CleanFields(fields, allowed, 0) && CostFields(fields) <= MAX_VALUES {
      CleanFieldsAreFixed(fields, allowed, 0, MAX_VALUES);
    }
  }

  // ---- the methods -----------------------------------------------------------------

  lemma {:induction false} FieldsFailEarly(entries: seq<Entry>, n: nat, allowed: set<string>, depth: int, budget: int)
    requires n <= |entries|
    ensures SanitizeFields(entries[..n], allowed, depth, budget).Err? ==>
              SanitizeFields(entries, allowed, depth, budget) == SanitizeFields(entries[..n], allowed, depth, budget)
    decreases |entries|
  {
    if n == |entries| {
      assert entries[..n] == entries;
    } else {
      FieldsFailEarly(entries[..|entries| - 1], n, allowed, depth, budget);
      assert entries[..|entries| - 1][..n] == entries[..n];
    }
  }

  lemma {:induction false} ItemsFailEarly(items: seq<Value>, n: nat, allowed: set<string>, depth: int, budget: int)
    requires n <= |items|
    ensures SanitizeItems(items[..n], allowed, depth, budget).Err? ==>
              SanitizeItems(items, allowed, depth, budget) == SanitizeItems(items[..n], allowed, depth, budget)
    decreases |items|
  {
    if n == |items| {
      assert items[..n] == items;
    } else {
      ItemsFailEarly(items[..|items| - 1], n, allowed, depth, budget);
      assert items[..|items| - 1][..n] == items[..n];
    }
  }

  method ConsumeBudget(budget: Budget) returns (ok: bool)
    modifies budget
    ensures budget.left == old(budget.left) - 1
    ensures ok <==> budget.left >= 0
  {
    budget.left := budget.left - 1;
    return budget.left >= 0;
  }

  method CleanMapping(entries: seq<Entry>, allowed: set<string>, depth: int, budget: Budget)
    returns (r: Result<seq<Entry>, Error>)
    modifies budget
    ensures match SanitizeMapping(entries, allowed, depth, old(budget.left))
            case Ok((fields, left)) => r == Ok(fields) && budget.left == left
            case Err(e) => r == Err(e)
    decreases entries, 1
  {
    if depth > MAX_DEPTH || |entries| > MAX_FIELDS {
      return Err(ValueError);
    }
    var output: seq<Entry> := [];
    for i := 0 to |entries|
      invariant SanitizeFields(entries[..i], allowed, depth, old(budget.left)) == Ok((output, budget.left))
    {
      assert entries[..i + 1][..i] == entries[..i];
      FieldsFailEarly(entries, i + 1, allowed, depth, old(budget.left));
      var key := entries[i].key;
      if key.NotText? {
        return Err(TypeError);
      }
      if key.name !in allowed {
        continue;
      }
      var within := ConsumeBudget(budget);
      if !within {
        return Err(ValueError);
      }
      if Sensitive(key.name) {
        output := Put(output, key.name, REDACTED);
        continue;
      }
      assert entries[i].value < entries[i];
      var item := CleanValue(entries[i].value, allowed, depth + 1, budget);
      if item.Err? {
        return Err(item.error);
      }
      output := Put(output, key.name, item.value);
    }
    assert entries[..|entries|] == entries;
    return Ok(output);
  }

  method CleanValue(v: Value, allowed: set<string>, depth: int, budget: Budget) returns (r: Result<Value, Error>)
    modifies budget
    ensures match SanitizeValue(v, allowed, depth, old(budget.left))
            case Ok((u, left)) => r == Ok(u) && budget.left == left
            case Err(e) => r == Err(e)
    decreases v, 2
  {
    if depth > MAX_DEPTH {
      return Err(ValueError);
    }
    match v
    case NotFinite => return Err(ValueError);
    case Str(s) => return Ok(Str(Cut(s)));
    case Uuid(text) => return Ok(Str(text));
    case Instant(text) => return Ok(Str(text));
    case NaiveInstant => return Err(ValueError);
    case Mapping(entries) =>
      var fields := CleanMapping(entries, allowed, depth, budget);
      return if fields.Ok? then Ok(Mapping(fields.value)) else Err(fields.error);
    case List(items) => r := CleanList(items, allowed, depth, budget);
    case Tuple(items) => r := CleanList(items, allowed, depth, budget);
    case Unsupported => return Err(TypeError);
    case _ => return Ok(v);
  }

  method CleanList(items: seq<Value>, allowed: set<string>, depth: int, budget: Budget)
    returns (r: Result<Value, Error>)
    modifies budget
    ensures match SanitizeList(items, allowed, depth, old(budget.left))
            case Ok((u, left)) => r == Ok(u) && budget.left == left
            case Err(e) => r == Err(e)
    decreases items, 1
  {
    if |items| > MAX_ITEMS {
      return Err(ValueError);
    }
    var output: seq<Value> := [];
    for i := 0 to |items|
      invariant SanitizeItems(items[..i], allowed, depth, old(budget.left)) == Ok((output, budget.left))
    {
      assert items[..i + 1][..i] == items[..i];
      ItemsFailEarly(items, i + 1, allowed, depth, old(budget.left));
      var within := ConsumeBudget(budget);
      if !within {
        return Err(ValueError);
      }
      var item := CleanValue(items[i], allowed, depth + 1, budget);
      if item.Err? {
        return Err(item.error);
      }
      output := output + [item.value];
    }
    assert items[..|items|] == items;
    return Ok(List(output));
  }

  method SanitizeAuditMetadata(metadata: Value, allowed: set<string>, encoded: seq<Entry> -> Option<nat>)
    returns (r: Result<seq<Entry>, Error>)
    ensures r == Sanitize(metadata, allowed, encoded)
  {
    if !metadata.Mapping? {
      return Err(TypeError);
    }
    if !SafeKeys(allowed) {
      return Err(ValueError);
    }
    var budget := new Budget(MAX_VALUES);
    var sanitized := CleanMapping(metadata.entries, allowed, 0, budget);
    if sanitized.Err? {
      return Err(sanitized.error);
    }
    var length := encoded(sanitized.value);
    if length.None? || length.value > MAX_BYTES {
      return Err(ValueError);
    }
    return Ok(sanitized.value);
  }
}
