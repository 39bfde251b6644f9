/**
 * What the sanitizer accepts, keeps and charges, independent of how its traversal spends depth
 * and budget, with every limit and every sensitive word written out.
 */
module AuditAnswers {
  import opened Basics
  import opened AuditMetadata
  import Names

  /** A part of the name between underscores is a sensitive word. */
  predicate Secret(name: string) {
    exists i :: 0 <= i < |Names.Split(name, '_')| &&
      Names.Split(name, '_')[i] in
        {"address", "authorization", "body", "card", "cardholder", "connection", "cookie", "credential", "cvc", "cvv",
         "email", "hash", "ip", "otp", "pan", "password", "passwd", "payload", "phone", "secret", "session", "token"}
  }

  lemma SecretIsSensitive(name: string)
    ensures Sensitive(name) <==> Secret(name)
  {
  }

  /** JSON kinds within four levels, twenty items a list and fifty fields a mapping; hidden values may be anything. */
  predicate Fits(v: Value, allowed: set<string>, depth: int)
    decreases v
  {
    && depth <= 4
    && match v
       case NotFinite => false
       case NaiveInstant => false
       case Unsupported => false
       case List(items) => |items| <= 20 && FitItems(items, allowed, depth + 1)
       case Tuple(items) => |items| <= 20 && FitItems(items, allowed, depth + 1)
       case Mapping(entries) => |entries| <= 50 && FitFields(entries, allowed, depth + 1)
       case _ => true
  }

  predicate FitItems(items: seq<Value>, allowed: set<string>, depth: int)
    decreases items
  {
    forall i | 0 <= i < |items| :: Fits(items[i], allowed, depth)
  }

  predicate FitFields(entries: seq<Entry>, allowed: set<string>, depth: int)
    decreases entries
  {
    forall i | 0 <= i < |entries| ::
      && entries[i].key.Text?
      && (entries[i].key.name in allowed && !Secret(entries[i].key.name) ==>
            assert entries[i].value < entries[i];
            Fits(entries[i].value, allowed, depth))
  }

  /** Strings cut to five hundred characters, ids and instants as text, lists for tuples, fields as below. */
  function Kept(v: Value, allowed: set<string>): Value
    decreases v
  {
    match v
    case Str(s) => Str(if |s| > 500 then s[..500] else s)
    case Uuid(text) => Str(text)
    case Instant(text) => Str(text)
    case List(items) => List(KeptItems(items, allowed))
    case Tuple(items) => List(KeptItems(items, allowed))
    case Mapping(entries) => Mapping(KeptFields(entries, allowed))
    case _ => v
  }

  function KeptItems(items: seq<Value>, allowed: set<string>): seq<Value>
    decreases items
  {
    if items == [] then [] else KeptItems(items[..|items| - 1], allowed) + [Kept(items[|items| - 1], allowed)]
  }

  /** The listed fields, in order, with secret values replaced. */
  function KeptFields(entries: seq<Entry>, allowed: set<string>): seq<Entry>
    decreases entries
  {
    if entries == [] then []
    else
      var last := entries[|entries| - 1];
      assert last.value < last;
      var done := KeptFields(entries[..|entries| - 1], allowed);
      if last.key.Text? && last.key.name in allowed then
        Put(done, last.key.name, if Secret(last.key.name) then Str("[REDACTED]") else Kept(last.value, allowed))
      else done
  }

  /** One unit a listed field and one an item, at every level that is looked at. */
  function Spend(v: Value, allowed: set<string>): nat
    decreases v
  {
    match v
    case List(items) => SpendItems(items, allowed)
    case Tuple(items) => SpendItems(items, allowed)
    case Mapping(entries) => SpendFields(entries, allowed)
    case _ => 0
  }

  function SpendItems(items: seq<Value>, allowed: set<string>): nat
    decreases items
  {
    if items == [] then 0
    else SpendItems(items[..|items| - 1], allowed) + 1 + Spend(items[|items| - 1], allowed)
  }

  function SpendFields(entries: seq<Entry>, allowed: set<string>): nat
    decreases entries
  {
    if entries == [] then 0
    else
      var last := entries[|entries| - 1];
      assert last.value < last;
      SpendFields(entries[..|entries| - 1], allowed)
      + if last.key.Text? && last.key.name in allowed then
          1 + if Secret(last.key.name) then 0 else Spend(last.value, allowed)
        else 0
  }

  /** What a traversal answers: all or nothing. */
  predicate Answers<T(==)>(r: Result<(T, int), Error>, fits: bool, kept: T, spend: nat, budget: int) {
    if fits && spend <= budget then r == Ok((kept, budget - spend)) else r.Err?
  }

  /** A value is accepted exactly when it fits and the budget covers it, and comes out as what is kept of it. */
  lemma {:induction false} ValueAnswers(v: Value, allowed: set<string>, depth: int, budget: int)
    requires budget >= 0
    ensures Answers(SanitizeValue(v, allowed, depth, budget), Fits(v, allowed, depth), Kept(v, allowed),
                    Spend(v, allowed), budget)
    decreases v
  {
    hide FitItems, FitFields, KeptItems, KeptFields, SpendItems, SpendFields, SanitizeItems, SanitizeFields;
    if depth <= 4 {
      match v
      case List(items) => ItemsAnswers(items, allowed, depth, budget);
      case Tuple(items) => ItemsAnswers(items, allowed, depth, budget);
      case Mapping(entries) => FieldsAnswers(entries, allowed, depth, budget);
      case _ =>
    }
  }

  lemma FitItemsSnoc(items: seq<Value>, allowed: set<string>, depth: int)
    requires items != []
    ensures FitItems(items, allowed, depth)
            <==> FitItems(items[..|items| - 1], allowed, depth) && Fits(items[|items| - 1], allowed, depth)
  {
    hide Fits;
    assert forall i | 0 <= i < |items| - 1 :: items[..|items| - 1][i] == items[i];
  }

  lemma {:induction false} ItemsAnswers(items: seq<Value>, allowed: set<string>, depth: int, budget: int)
    requires budget >= 0
    ensures Answers(SanitizeItems(items, allowed, depth, budget), FitItems(items, allowed, depth + 1),
                    KeptItems(items, allowed), SpendItems(items, allowed), budget)
    decreases items
  {
    hide Fits, FitItems, Kept, Spend, SanitizeValue;
    if items != [] {
      var n := |items| - 1;
      FitItemsSnoc(items, allowed, depth + 1);
      ItemsAnswers(items[..n], allowed, depth, budget);
      var left := budget - SpendItems(items[..n], allowed) - 1;
      if left >= 0 {
        ValueAnswers(items[n], allowed, depth + 1, left);
      }
    } else {
      assert FitItems(items, allowed, depth + 1) by {
        NothingFits(allowed, depth + 1);
      }
    }
  }

  lemma NothingFits(allowed: set<string>, depth: int)
    ensures FitItems([], allowed, depth) && FitFields([], allowed, depth)
  {
  }

  predicate FitField(e: Entry, allowed: set<string>, depth: int) {
    e.key.Text? && (e.key.name in allowed && !Secret(e.key.name) ==> Fits(e.value, allowed, depth))
  }

  lemma FitFieldsSnoc(entries: seq<Entry>, allowed: set<string>, depth: int)
    requires entries != []
    ensures FitFields(entries, allowed, depth)
            <==> FitFields(entries[..|entries| - 1], allowed, depth) && FitField(entries[|entries| - 1], allowed, depth)
  {
    hide Fits, Secret;
    assert forall i | 0 <= i < |entries| - 1 :: entries[..|entries| - 1][i] == entries[i];
  }

  lemma {:induction false} FieldsAnswers(entries: seq<Entry>, allowed: set<string>, depth: int, budget: int)
    requires budget >= 0
    ensures Answers(SanitizeFields(entries, allowed, depth, budget), FitFields(entries, allowed, depth + 1),
                    KeptFields(entries, allowed), SpendFields(entries, allowed), budget)
    decreases entries
  {
    hide Fits, FitFields, Kept, Spend, SanitizeValue, Put, Secret, Sensitive;
    if entries != [] {
      var n := |entries| - 1;
      FitFieldsSnoc(entries, allowed, depth + 1);
      FieldsAnswers(entries[..n], allowed, depth, budget);
      var left := budget - SpendFields(entries[..n], allowed) - 1;
      var last := entries[n];
      assert last.value < last;
      if last.key.Text? {
        SecretIsSensitive(last.key.name);
        if left >= 0 {
          ValueAnswers(last.value, allowed, depth + 1, left);
        }
      }
    } else {
      NothingFits(allowed, depth + 1);
    }
  }

  /**
   * Metadata is accepted exactly when it is a mapping with a safe allowlist, fits, costs at
   * most a hundred units and encodes to at most 16384 bytes; what comes out is what is kept.
   */
  lemma SanitizeAnswers(metadata: Value, allowed: set<string>, encoded: seq<Entry> -> Option<nat>)
    ensures var r := Sanitize(metadata, allowed, encoded);
            && (r.Ok? <==>
                  && metadata.Mapping? && |allowed| <= 100 && (forall k | k in allowed :: Names.SafeKey(k))
                  && |metadata.entries| <= 50 && FitFields(metadata.entries, allowed, 1)
                  && SpendFields(metadata.entries, allowed) <= 100
                  && encoded(KeptFields(metadata.entries, allowed)).Some?
                  && encoded(KeptFields(metadata.entries, allowed)).value <= 16384)
            && (r.Ok? ==> r.value == KeptFields(metadata.entries, allowed))
  {
    hide FitFields, KeptFields, SpendFields, SanitizeFields, Names.SafeKey;
    if metadata.Mapping? {
      FieldsAnswers(metadata.entries, allowed, 0, 100);
    }
  }

  /** No secret, at any depth: every field is listed, and a secret one reads "[REDACTED]". */
  predicate Discreet(v: Value, allowed: set<string>)
    decreases v
  {
    match v
    case List(items) => forall i | 0 <= i < |items| :: Discreet(items[i], allowed)
    case Mapping(entries) => DiscreetFields(entries, allowed)
    case Tuple(_) => false
    case _ => true
  }

  predicate DiscreetFields(entries: seq<Entry>, allowed: set<string>)
    decreases entries
  {
    forall i | 0 <= i < |entries| ::
      && entries[i].key.Text? && entries[i].key.name in allowed
      && if Secret(entries[i].key.name) then entries[i].value == Str("[REDACTED]")
         else
           assert entries[i].value < entries[i];
           Discreet(entries[i].value, allowed)
  }

  lemma {:induction false} PutIsDiscreet(entries: seq<Entry>, name: string, v: Value, allowed: set<string>)
    requires DiscreetFields(entries, allowed) && name in allowed
    requires if Secret(name) then v == Str("[REDACTED]") else Discreet(v, allowed)
    ensures DiscreetFields(Put(entries, name, v), allowed)
  {
    hide Secret, Discreet;
    if Text(name) in Keys(entries) {
      var n := |entries| - 1;
      assert forall i | 0 <= i < n :: entries[..n][i] == entries[i];
      if entries[n].key != Text(name) {
        assert Text(name) in Keys(entries[..n]) by {
          var i :| 0 <= i < |entries| && entries[i].key == Text(name);
          assert entries[..n][i].key == Text(name);
        }
        PutIsDiscreet(entries[..n], name, v, allowed);
      }
    }
  }

  lemma {:induction false} KeptIsDiscreet(v: Value, allowed: set<string>)
    ensures Discreet(Kept(v, allowed), allowed)
    decreases v
  {
    match v
    case List(items) => KeptItemsAreDiscreet(items, allowed);
    case Tuple(items) => KeptItemsAreDiscreet(items, allowed);
    case Mapping(entries) => KeptFieldsAreDiscreet(entries, allowed);
    case _ =>
  }

  lemma {:induction false} KeptItemsAreDiscreet(items: seq<Value>, allowed: set<string>)
    ensures |KeptItems(items, allowed)| == |items|
    ensures forall i | 0 <= i < |items| :: Discreet(KeptItems(items, allowed)[i], allowed)
    decreases items
  {
    hide Discreet, Kept;
    if items != [] {
      KeptItemsAreDiscreet(items[..|items| - 1], allowed);
      KeptIsDiscreet(items[|items| - 1], allowed);
    }
  }

  lemma {:induction false} KeptFieldsAreDiscreet(entries: seq<Entry>, allowed: set<string>)
    ensures DiscreetFields(KeptFields(entries, allowed), allowed)
    decreases entries
  {
    hide Discreet, Kept, Secret, Put;
    if entries != [] {
      var n, last := |entries| - 1, entries[|entries| - 1];
      KeptFieldsAreDiscreet(entries[..n], allowed);
      assert last.value < last;
      if last.key.Text? && last.key.name in allowed {
        KeptIsDiscreet(last.value, allowed);
        hide DiscreetFields;
        PutIsDiscreet(KeptFields(entries[..n], allowed), last.key.name,
                      if Secret(last.key.name) then Str("[REDACTED]") else Kept(last.value, allowed), allowed);
      }
    }
  }

  /** Whatever is offered, nothing secret and nothing unlisted is in what the sanitizer returns, at any depth. */
  lemma NothingSecretIsLeft(metadata: Value, allowed: set<string>, encoded: seq<Entry> -> Option<nat>)
    ensures Sanitize(metadata, allowed, encoded).Ok? ==>
              DiscreetFields(Sanitize(metadata, allowed, encoded).value, allowed)
  {
    hide Sanitize, DiscreetFields, KeptFields;
    SanitizeAnswers(metadata, allowed, encoded);
    if Sanitize(metadata, allowed, encoded).Ok? {
      KeptFieldsAreDiscreet(metadata.entries, allowed);
    }
  }

  /** Fields in order, each listed one kept at its own place: a mapping with distinct keys is only filtered. */
  lemma {:induction false} DistinctFieldsKeepOrder(entries: seq<Entry>, allowed: set<string>)
    requires DistinctKeys(entries)
    ensures KeptFields(entries, allowed) == Filtered(entries, allowed)
    ensures Keys(Filtered(entries, allowed)) <= Keys(entries)
    decreases entries
  {
    hide Kept, Secret;
    if entries != [] {
      var n, last := |entries| - 1, entries[|entries| - 1];
      DistinctFieldsKeepOrder(entries[..n], allowed);
      assert last.key !in Keys(entries[..n]);
      assert forall k | k in Keys(entries[..n]) :: k in Keys(entries);
      assert last.key in Keys(entries);
    }
  }

  function Filtered(entries: seq<Entry>, allowed: set<string>): seq<Entry>
    decreases entries
  {
    if entries == [] then []
    else
      var last := entries[|entries| - 1];
      Filtered(entries[..|entries| - 1], allowed)
      + if last.key.Text? && last.key.name in allowed then
          [Entry(last.key, if Secret(last.key.name) then Str("[REDACTED]") else Kept(last.value, allowed))]
        else []
  }
}
