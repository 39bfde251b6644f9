/**
 * Domain events: freezing a payload under a shared budget, thawing it for storage, and
 * rebuilding the event from its row (events.py, outbox/repository.py, outbox/model.py).
 */
module EventPayload {
  import opened Basics
  import opened Names

  datatype Key = Text(name: string) | NotText

  datatype Entry = Entry(key: Key, value: Value)

  /** A Python value offered as payload, or read back from storage. */
  datatype Value =
    | Null
    | Bool(b: bool)
    | Int(n: int)
    | Float(x: real)
    | NotFinite
    | Str(s: string)
    | List(items: seq<Value>)
    | Tuple(items: seq<Value>)
    | Mapping(entries: seq<Entry>)
    | Unsupported

  /** A frozen value: tuples and read-only mappings, whose order does not count for equality. */
  datatype Frozen =
    | FNull
    | FBool(b: bool)
    | FInt(n: int)
    | FFloat(x: real)
    | FStr(s: string)
    | FTuple(items: seq<Frozen>)
    | FMap(fields: map<string, Frozen>)

  datatype Error = ValueError | TypeError

  const MAX_DEPTH: int := 8
  const MAX_VALUES: int := 500
  const MAX_STRING: nat := 10000

  const SENSITIVE: set<string> :=
    {"authorization", "card", "cookie", "credential", "cvv", "password", "secret", "token"}

  predicate Sensitive(name: string) {
    exists i :: 0 <= i < |Split(name, '_')| && Split(name, '_')[i] in SENSITIVE
  }

  predicate GoodName(name: string) {
    |name| <= 100 && SnakeCase(name) && !Sensitive(name)
  }

  function CheckKey(key: Key): Option<Error> {
    if key.NotText? then Some(TypeError)
    else if GoodName(key.name) then None
    else Some(ValueError)
  }

  // ---- the traversal ---------------------------------------------------------------

  /** The frozen value and what is left of the budget. */
  function FreezeValue(v: Value, depth: int, budget: int): Result<(Frozen, int), Error>
    decreases v
  {
    if depth > MAX_DEPTH || budget - 1 < 0 then Err(ValueError)
    else
      match v
      case Null => Ok((FNull, budget - 1))
      case Bool(b) => Ok((FBool(b), budget - 1))
      case Int(n) => Ok((FInt(n), budget - 1))
      case Float(x) => Ok((FFloat(x), budget - 1))
      case NotFinite => Err(ValueError)
      case Str(s) => if |s| > MAX_STRING then Err(ValueError) else Ok((FStr(s), budget - 1))
      case List(items) => FrozenTuple(FreezeItems(items, depth + 1, budget - 1))
      case Tuple(items) => FrozenTuple(FreezeItems(items, depth + 1, budget - 1))
      case Mapping(entries) => FrozenMap(FreezeEntries(entries, depth + 1, budget - 1))
      case Unsupported => Err(TypeError)
  }

  function FrozenTuple(r: Result<(seq<Frozen>, int), Error>): Result<(Frozen, int), Error> {
    match r
    case Ok((items, left)) => Ok((FTuple(items), left))
    case Err(e) => Err(e)
  }

  function FrozenMap(r: Result<(map<string, Frozen>, int), Error>): Result<(Frozen, int), Error> {
    match r
    case Ok((fields, left)) => Ok((FMap(fields), left))
    case Err(e) => Err(e)
  }

  function FreezeItems(items: seq<Value>, depth: int, budget: int): Result<(seq<Frozen>, int), Error>
    decreases items
  {
    if items == [] then Ok(([], budget))
    else
      var n := |items| - 1;
      match FreezeItems(items[..n], depth, budget)
      case Err(e) => Err(e)
      case Ok((done, left)) =>
        match FreezeValue(items[n], depth, left)
        case Err(e) => Err(e)
        case Ok((last, left')) => Ok((done + [last], left'))
  }

  function FreezeEntries(entries: seq<Entry>, depth: int, budget: int): Result<(map<string, Frozen>, int), Error>
    decreases entries
  {
    if entries == [] then Ok((map[], budget))
    else
      var n := |entries| - 1;
      match FreezeEntries(entries[..n], depth, budget)
      case Err(e) => Err(e)
      case Ok((done, left)) =>
        match CheckKey(entries[n].key)
        case Some(e) => Err(e)
        case None =>
          assert entries[n].value < entries[n];
          match FreezeValue(entries[n].value, depth, left)
          case Err(e) => Err(e)
          case Ok((last, left')) => Ok((done[entries[n].key.name := last], left'))
  }

  // ---- what it accepts -------------------------------------------------------------

  /** The values a traversal counts. */
  function Count(v: Value): nat
    decreases v
  {
    match v
    case List(items) => 1 + CountItems(items)
    case Tuple(items) => 1 + CountItems(items)
    case Mapping(entries) => 1 + CountEntries(entries)
    case _ => 1
  }

  function CountItems(items: seq<Value>): nat
    decreases items
  {
    if items == [] then 0 else CountItems(items[..|items| - 1]) + Count(items[|items| - 1])
  }

  function CountEntries(entries: seq<Entry>): nat
    decreases entries
  {
    if entries == [] then 0
    else
      var last := entries[|entries| - 1];
      assert last.value < last;
      CountEntries(entries[..|entries| - 1]) + Count(last.value)
  }

  /** Every leaf and key is allowed, and nothing lies more than `levels` deep. */
  predicate Legal(v: Value, levels: int)
    decreases v
  {
    && levels >= 1
    && match v
       case NotFinite => false
       case Str(s) => |s| <= MAX_STRING
       case List(items) => forall i | 0 <= i < |items| :: Legal(items[i], levels - 1)
       case Tuple(items) => forall i | 0 <= i < |items| :: Legal(items[i], levels - 1)
       case Mapping(entries) => LegalEntries(entries, levels - 1)
       case Unsupported => false
       case _ => true
  }

  predicate LegalEntries(entries: seq<Entry>, levels: int)
    decreases entries
  {
    forall i | 0 <= i < |entries| ::
      && entries[i].key.Text? && GoodName(entries[i].key.name)
      && assert entries[i].value < entries[i];
         Legal(entries[i].value, levels)
  }

  predicate LegalItems(items: seq<Value>, levels: int) {
    forall i | 0 <= i < |items| :: Legal(items[i], levels)
  }

  /** The tree behind a frozen value, whatever the budget. */
  function Image(v: Value): Frozen
    decreases v
  {
    match v
    case Null => FNull
    case Bool(b) => FBool(b)
    case Int(n) => FInt(n)
    case Float(x) => FFloat(x)
    case Str(s) => FStr(s)
    case List(items) => FTuple(ImageItems(items))
    case Tuple(items) => FTuple(ImageItems(items))
    case Mapping(entries) => FMap(ImageEntries(entries))
    case NotFinite => FNull
    case Unsupported => FNull
  }

  function ImageItems(items: seq<Value>): (fs: seq<Frozen>)
    ensures |fs| == |items|
    decreases items
  {
    if items == [] then [] else ImageItems(items[..|items| - 1]) + [Image(items[|items| - 1])]
  }

  function ImageEntries(entries: seq<Entry>): map<string, Frozen>
    decreases entries
  {
    if entries == [] then map[]
    else
      var last := entries[|entries| - 1];
      var done := ImageEntries(entries[..|entries| - 1]);
      assert last.value < last;
      if last.key.Text? then done[last.key.name := Image(last.value)] else done
  }

  /**
   * The traversal accepts exactly the legal trees that fit the depth and the budget, spends
   * one unit a value, and its result does not depend on either.
   */
  lemma {:induction false} FreezeValueExactly(v: Value, depth: int, budget: int)
    ensures var r := FreezeValue(v, depth, budget);
            if Legal(v, MAX_DEPTH + 1 - depth) && Count(v) <= budget then r == Ok((Image(v), budget - Count(v)))
            else r.Err?
    decreases v
  {
    var levels := MAX_DEPTH + 1 - depth;
    if depth <= MAX_DEPTH && budget >= 1 {
      match v
      case List(items) => FreezeItemsExactly(items, depth + 1, budget - 1);
      case Tuple(items) => FreezeItemsExactly(items, depth + 1, budget - 1);
      case Mapping(entries) => FreezeEntriesExactly(entries, depth + 1, budget - 1);
      case _ =>
    }
  }

  lemma {:induction false} FreezeItemsExactly(items: seq<Value>, depth: int, budget: int)
    requires budget >= 0
    ensures var r := FreezeItems(items, depth, budget);
            if LegalItems(items, MAX_DEPTH + 1 - depth) && CountItems(items) <= budget
            then r == Ok((ImageItems(items), budget - CountItems(items))) else r.Err?
    decreases items
  {
    if items != [] {
      var n := |items| - 1;
      FreezeItemsExactly(items[..n], depth, budget);
      assert LegalItems(items, MAX_DEPTH + 1 - depth)
        <==> LegalItems(items[..n], MAX_DEPTH + 1 - depth) && Legal(items[n], MAX_DEPTH + 1 - depth);
      if budget - CountItems(items[..n]) >= 0 {
        FreezeValueExactly(items[n], depth, budget - CountItems(items[..n]));
      }
    }
  }

  lemma {:induction false} FreezeEntriesExactly(entries: seq<Entry>, depth: int, budget: int)
    requires budget >= 0
    ensures var r := FreezeEntries(entries, depth, budget);
            if LegalEntries(entries, MAX_DEPTH + 1 - depth) && CountEntries(entries) <= budget
            then r == Ok((ImageEntries(entries), budget - CountEntries(entries))) else r.Err?
    decreases entries
  {
    if entries != [] {
      var n := |entries| - 1;
      FreezeEntriesExactly(entries[..n], depth, budget);
      hide GoodName;
      LegalEntriesSnoc(entries, MAX_DEPTH + 1 - depth);
      if budget - CountEntries(entries[..n]) >= 0 {
        assert entries[n].value < entries[n];
        FreezeValueExactly(entries[n].value, depth, budget - CountEntries(entries[..n]));
      }
    }
  }

  // ---- thawing and storage ---------------------------------------------------------

  predicate DistinctKeys(entries: seq<Entry>) {
    forall i, j | 0 <= i < j < |entries| :: entries[i].key != entries[j].key
  }

  /**
   * v is f with lists for tuples and its mappings in some order, which is what _thaw_value
   * returns and what JSONB gives back.
   */
  ghost predicate Renders(f: Frozen, v: Value)
    decreases v
  {
    match f
    case FNull => v == Null
    case FBool(b) => v == Bool(b)
    case FInt(n) => v == Int(n)
    case FFloat(x) => v == Float(x)
    case FStr(s) => v == Str(s)
    case FTuple(items) =>
      v.List? && |v.items| == |items| && forall i | 0 <= i < |items| :: Renders(items[i], v.items[i])
    case FMap(fields) => v.Mapping? && RendersEntries(fields, v.entries)
  }

  ghost predicate RendersEntries(fields: map<string, Frozen>, entries: seq<Entry>)
    decreases entries
  {
    && DistinctKeys(entries)
    && (forall k | k in fields :: Text(k) in Keys(entries))
    && forall i | 0 <= i < |entries| ::
         && entries[i].key.Text? && entries[i].key.name in fields
         && assert entries[i].value < entries[i];
            Renders(fields[entries[i].key.name], entries[i].value)
  }

  function Keys(entries: seq<Entry>): set<Key> {
    set i | 0 <= i < |entries| :: entries[i].key
  }

  ghost function Total(m: map<string, nat>): nat
    decreases |m.Keys|
  {
    if m == map[] then 0
    else
      var k :| k in m;
      m[k] + Total(m - {k})
  }

  /** The total does not depend on which key is taken out first. */
  lemma {:induction false} TotalWithout(m: map<string, nat>, k: string)
    requires k in m
    ensures Total(m) == m[k] + Total(m - {k})
    decreases |m.Keys|
  {
    var x :| x in m && Total(m) == m[x] + Total(m - {x});
    if x != k {
      TotalWithout(m - {x}, k);
      TotalWithout(m - {k}, x);
      assert m - {x} - {k} == m - {k} - {x};
    }
  }

  lemma TotalPut(m: map<string, nat>, k: string, n: nat)
    ensures Total(m[k := n]) == Total(m - {k}) + n
    ensures k in m ==> Total(m - {k}) <= Total(m)
    ensures k !in m ==> Total(m[k := n]) == Total(m) + n
  {
    TotalWithout(m[k := n], k);
    assert m[k := n] - {k} == m - {k};
    if k in m {
      TotalWithout(m, k);
    } else {
      assert m - {k} == m;
    }
  }

  ghost function FrozenCount(f: Frozen): nat
    decreases f, 1
  {
    match f
    case FTuple(items) => 1 + FrozenCountItems(items)
    case FMap(fields) => 1 + Total(Weights(f))
    case _ => 1
  }

  ghost function FrozenCountItems(items: seq<Frozen>): nat
    decreases items, 1
  {
    if items == [] then 0 else FrozenCountItems(items[..|items| - 1]) + FrozenCount(items[|items| - 1])
  }

  ghost function Weights(f: Frozen): map<string, nat>
    requires f.FMap?
    decreases f, 0
  {
    map k | k in f.fields :: FrozenCount(f.fields[k])
  }

  predicate FrozenLegal(f: Frozen, levels: int)
    decreases f
  {
    && levels >= 1
    && match f
       case FStr(s) => |s| <= MAX_STRING
       case FTuple(items) => forall i | 0 <= i < |items| :: FrozenLegal(items[i], levels - 1)
       case FMap(fields) => forall k | k in fields :: GoodName(k) && FrozenLegal(fields[k], levels - 1)
       case _ => true
  }

  /** Freezing a legal value gives a legal tree that counts no more. */
  lemma {:induction false} ImageLegal(v: Value, levels: int)
    requires Legal(v, levels)
    ensures FrozenLegal(Image(v), levels) && FrozenCount(Image(v)) <= Count(v)
    decreases v
  {
    match v
    case List(items) => ImageItemsLegal(items, levels - 1);
    case Tuple(items) => ImageItemsLegal(items, levels - 1);
    case Mapping(entries) => ImageEntriesLegal(entries, levels - 1);
    case _ =>
  }

  lemma {:induction false} ImageItemsLegal(items: seq<Value>, levels: int)
    requires LegalItems(items, levels)
    ensures forall i | 0 <= i < |items| :: FrozenLegal(ImageItems(items)[i], levels)
    ensures FrozenCountItems(ImageItems(items)) <= CountItems(items)
    decreases items
  {
    if items != [] {
      var n := |items| - 1;
      assert forall i | 0 <= i < n :: items[..n][i] == items[i];
      ImageItemsLegal(items[..n], levels);
      assert Legal(items[n], levels);
      ImageLegal(items[n], levels);
      assert ImageItems(items)[..n] == ImageItems(items[..n]);
    }
  }

  ghost predicate LegalFields(fields: map<string, Frozen>, levels: int) {
    forall k | k in fields :: GoodName(k) && FrozenLegal(fields[k], levels)
  }

  lemma WeightsPut(done: map<string, Frozen>, name: string, last: Frozen)
    ensures Total(Weights(FMap(done[name := last]))) <= Total(Weights(FMap(done))) + FrozenCount(last)
  {
    TotalPut(Weights(FMap(done)), name, FrozenCount(last));
    assert Weights(FMap(done[name := last])) == Weights(FMap(done))[name := FrozenCount(last)];
  }

  lemma LegalEntriesSnoc(entries: seq<Entry>, levels: int)
    requires entries != []
    ensures var n := |entries| - 1;
            LegalEntries(entries, levels)
            <==> && LegalEntries(entries[..n], levels) && entries[n].key.Text? && GoodName(entries[n].key.name)
                 && Legal(entries[n].value, levels)
  {
    hide GoodName;
    assert forall i | 0 <= i < |entries| - 1 :: entries[..|entries| - 1][i] == entries[i];
  }

  lemma {:induction false} ImageEntriesLegal(entries: seq<Entry>, levels: int)
    requires LegalEntries(entries, levels)
    ensures LegalFields(ImageEntries(entries), levels)
    ensures Total(Weights(FMap(ImageEntries(entries)))) <= CountEntries(entries)
    decreases entries
  {
    hide GoodName, FrozenLegal, FrozenCount, Weights, LegalEntries, Image, Legal;
    if entries == [] {
      NoWeights();
    } else {
      var n := |entries| - 1;
      LegalEntriesSnoc(entries, levels);
      ImageEntriesLegal(entries[..n], levels);
      assert entries[n].value < entries[n];
      ImageLegal(entries[n].value, levels);
      WeightsPut(ImageEntries(entries[..n]), entries[n].key.name, Image(entries[n].value));
      hide Total;
    }
  }

  lemma NoWeights()
    ensures Total(Weights(FMap(map[]))) == 0
  {
  }

  /** Any rendering of a legal frozen tree freezes back to that tree at the same cost. */
  lemma {:induction false} RenderingIsLegal(f: Frozen, v: Value, levels: int)
    requires Renders(f, v) && FrozenLegal(f, levels)
    ensures Legal(v, levels) && Image(v) == f && Count(v) == FrozenCount(f)
    decreases v
  {
    hide RendersEntries, ImageEntries, LegalEntries, CountEntries, Weights, GoodName, Total;
    if f.FTuple? {
      hide LegalFields;
      RenderedItemsLegal(f.items, v.items, levels - 1);
    } else if f.FMap? {
      assert LegalFields(f.fields, levels - 1);
      hide LegalFields, CountItems, ImageItems, FrozenCountItems;
      RenderedEntriesLegal(f.fields, v.entries, levels - 1);
    } else {
      hide *;
      RenderedLeafLegal(f, v, levels);
    }
  }

  lemma RenderedLeafLegal(f: Frozen, v: Value, levels: int)
    requires Renders(f, v) && FrozenLegal(f, levels) && !f.FTuple? && !f.FMap?
    ensures Legal(v, levels) && Image(v) == f && Count(v) == FrozenCount(f)
  {
  }

  lemma {:induction false} RenderedItemsLegal(fs: seq<Frozen>, items: seq<Value>, levels: int)
    requires |fs| == |items|
    requires forall i | 0 <= i < |fs| :: Renders(fs[i], items[i]) && FrozenLegal(fs[i], levels)
    ensures LegalItems(items, levels) && ImageItems(items) == fs && CountItems(items) == FrozenCountItems(fs)
    decreases items
  {
    hide Renders, FrozenLegal, Legal, Image, Count, FrozenCount;
    if items != [] {
      var n := |items| - 1;
      RenderedItemsLegal(fs[..n], items[..n], levels);
      RenderingIsLegal(fs[n], items[n], levels);
      assert forall i | 0 <= i < n :: items[..n][i] == items[i];
      assert LegalItems(items[..n], levels);
      assert fs == fs[..n] + [fs[n]];
    }
  }

  lemma {:induction false} RenderedEntriesLegal(fields: map<string, Frozen>, entries: seq<Entry>, levels: int)
    requires RendersEntries(fields, entries) && LegalFields(fields, levels)
    ensures LegalEntries(entries, levels) && ImageEntries(entries) == fields
    ensures CountEntries(entries) == Total(Weights(FMap(fields)))
    decreases entries
  {
    hide GoodName, FrozenLegal, FrozenCount, Weights, Image, Legal, Renders, Total;
    if entries == [] {
      assert forall k | k in fields :: Text(k) in Keys(entries);
      assert fields == map[];
      NoWeights();
    } else {
      var n := |entries| - 1;
      RendersInit(fields, entries, levels);
      assert FrozenLegal(fields[entries[n].key.name], levels) && GoodName(entries[n].key.name);
      hide RendersEntries, LegalEntries, LegalFields, Keys, ImageEntries, CountEntries;
      RenderedEntriesLegal(fields - {entries[n].key.name}, entries[..n], levels);
      assert entries[n].value < entries[n];
      RenderingIsLegal(fields[entries[n].key.name], entries[n].value, levels);
      SnocImage(fields, entries);
      SnocCount(fields, entries);
      LegalEntriesSnoc(entries, levels);
    }
  }

  lemma SnocImage(fields: map<string, Frozen>, entries: seq<Entry>)
    requires entries != [] && RendersLast(fields, entries)
    requires var last := entries[|entries| - 1];
             && ImageEntries(entries[..|entries| - 1]) == fields - {last.key.name}
             && Image(last.value) == fields[last.key.name]
    ensures ImageEntries(entries) == fields
  {
    var name := entries[|entries| - 1].key.name;
    hide Renders, Image;
    assert (fields - {name})[name := fields[name]] == fields;
  }

  lemma SnocCount(fields: map<string, Frozen>, entries: seq<Entry>)
    requires entries != [] && RendersLast(fields, entries)
    requires var last := entries[|entries| - 1];
             && CountEntries(entries[..|entries| - 1]) == Total(Weights(FMap(fields - {last.key.name})))
             && Count(last.value) == FrozenCount(fields[last.key.name])
    ensures CountEntries(entries) == Total(Weights(FMap(fields)))
  {
    WeightsWithout(fields, entries[|entries| - 1].key.name);
    hide Total, Weights, Renders, Count, FrozenCount;
  }

  ghost predicate RendersLast(fields: map<string, Frozen>, entries: seq<Entry>)
    requires entries != []
  {
    var last := entries[|entries| - 1];
    last.key.Text? && last.key.name in fields && Renders(fields[last.key.name], last.value)
  }

  lemma WeightsWithout(fields: map<string, Frozen>, name: string)
    requires name in fields
    ensures Total(Weights(FMap(fields))) == FrozenCount(fields[name]) + Total(Weights(FMap(fields - {name})))
  {
    TotalWithout(Weights(FMap(fields)), name);
    assert Weights(FMap(fields)) - {name} == Weights(FMap(fields - {name}));
  }

  lemma RendersInit(fields: map<string, Frozen>, entries: seq<Entry>, levels: int)
    requires RendersEntries(fields, entries) && entries != []
    ensures RendersLast(fields, entries)
    ensures RendersEntries(fields - {entries[|entries| - 1].key.name}, entries[..|entries| - 1])
    ensures LegalFields(fields, levels) ==> LegalFields(fields - {entries[|entries| - 1].key.name}, levels)
  {
    var n := |entries| - 1;
    var name := entries[n].key.name;
    var init := entries[..n];
    hide Renders, FrozenLegal, GoodName;
    assert forall i | 0 <= i < n :: init[i] == entries[i] && entries[i].key != entries[n].key;
    forall k | k in fields - {name} ensures Text(k) in Keys(init) {
      assert Text(k) in Keys(entries);
      var i :| 0 <= i < |entries| && entries[i].key == Text(k);
      assert init[i].key == Text(k);
    }
  }

  // ---- what storage does to floats ---------------------------------------------------

  /**
   * How JSONB prints the shortest decimal of a float: with a fraction, which reads back as the
   * same float, or as a whole number, which reads back as an integer.
   */
  datatype Numeral = Fractional | Whole(n: int)

  function ReadBack(f: Frozen, spell: real -> Numeral): Frozen
    decreases f
  {
    match f
    case FFloat(x) => if spell(x).Whole? then FInt(spell(x).n) else f
    case FTuple(items) => FTuple(ReadBackItems(items, spell))
    case FMap(fields) => FMap(map k | k in fields :: ReadBack(fields[k], spell))
    case _ => f
  }

  function ReadBackItems(items: seq<Frozen>, spell: real -> Numeral): (r: seq<Frozen>)
    ensures |r| == |items|
    decreases items
  {
    if items == [] then []
    else ReadBackItems(items[..|items| - 1], spell) + [ReadBack(items[|items| - 1], spell)]
  }

  function Quantity(f: Frozen): Option<real> {
    match f
    case FBool(b) => Some(if b then 1.0 else 0.0)
    case FInt(n) => Some(n as real)
    case FFloat(x) => Some(x)
    case _ => None
  }

  /** Python's ==, which compares numbers by value. */
  predicate Equal(f: Frozen, g: Frozen)
    decreases f
  {
    if Quantity(f).Some? || Quantity(g).Some? then Quantity(f) == Quantity(g)
    else
      match f
      case FTuple(items) =>
        g.FTuple? && |g.items| == |items| && forall i | 0 <= i < |items| :: Equal(items[i], g.items[i])
      case FMap(fields) =>
        g.FMap? && g.fields.Keys == fields.Keys && forall k | k in fields :: Equal(fields[k], g.fields[k])
      case _ => f == g
  }

  /** Every float that is stored as a whole number is that number. */
  predicate Exact(f: Frozen, spell: real -> Numeral)
    decreases f
  {
    match f
    case FFloat(x) => spell(x).Whole? ==> spell(x).n as real == x
    case FTuple(items) => forall i | 0 <= i < |items| :: Exact(items[i], spell)
    case FMap(fields) => forall k | k in fields :: Exact(fields[k], spell)
    case _ => true
  }

  lemma {:induction false} ReadBackAt(items: seq<Frozen>, spell: real -> Numeral, i: nat)
    requires i < |items|
    ensures ReadBackItems(items, spell)[i] == ReadBack(items[i], spell)
    decreases |items|
  {
    if i < |items| - 1 {
      ReadBackAt(items[..|items| - 1], spell, i);
    }
  }

  /** A stored tree compares equal to the original exactly when its whole floats are exact. */
  lemma {:induction false} EqualExactly(f: Frozen, spell: real -> Numeral)
    ensures Equal(f, ReadBack(f, spell)) <==> Exact(f, spell)
    decreases f
  {
    match f
    case FTuple(items) =>
      forall i | 0 <= i < |items|
        ensures Equal(items[i], ReadBackItems(items, spell)[i]) <==> Exact(items[i], spell)
      {
        ReadBackAt(items, spell, i);
        EqualExactly(items[i], spell);
      }
      hide ReadBackItems;
    case FMap(fields) =>
      forall k | k in fields ensures Equal(fields[k], ReadBack(fields[k], spell)) <==> Exact(fields[k], spell) {
        EqualExactly(fields[k], spell);
      }
    case _ =>
  }

  function ReadBackFields(fields: map<string, Frozen>, spell: real -> Numeral): map<string, Frozen> {
    map k | k in fields :: ReadBack(fields[k], spell)
  }

  lemma SameWeights(fields: map<string, Frozen>, others: map<string, Frozen>)
    requires others.Keys == fields.Keys
    requires forall k | k in fields :: FrozenCount(others[k]) == FrozenCount(fields[k])
    ensures Weights(FMap(others)) == Weights(FMap(fields))
  {
    hide FrozenCount;
  }

  /** Storage changes neither the legality of a tree nor what it counts. */
  lemma {:induction false} ReadBackLegal(f: Frozen, spell: real -> Numeral, levels: int)
    requires FrozenLegal(f, levels)
    ensures FrozenLegal(ReadBack(f, spell), levels) && FrozenCount(ReadBack(f, spell)) == FrozenCount(f)
    decreases f, 1
  {
    hide GoodName, Total, Weights, FrozenCountItems, ReadBackItems;
    match f
    case FTuple(items) => ReadBackItemsLegal(items, spell, levels - 1);
    case FMap(fields) =>
      ReadBackFieldsLegal(f, spell, levels - 1);
      assert ReadBack(f, spell) == FMap(ReadBackFields(fields, spell));
    case _ =>
  }

  lemma {:induction false} ReadBackFieldsLegal(f: Frozen, spell: real -> Numeral, levels: int)
    requires f.FMap? && forall k | k in f.fields :: GoodName(k) && FrozenLegal(f.fields[k], levels)
    ensures forall k | k in ReadBackFields(f.fields, spell) ::
              GoodName(k) && FrozenLegal(ReadBackFields(f.fields, spell)[k], levels)
    ensures Weights(FMap(ReadBackFields(f.fields, spell))) == Weights(f)
    decreases f, 0
  {
    hide GoodName, FrozenLegal, FrozenCount, ReadBack, Weights;
    var others := ReadBackFields(f.fields, spell);
    forall k | k in f.fields
      ensures FrozenLegal(others[k], levels) && FrozenCount(others[k]) == FrozenCount(f.fields[k])
    {
      ReadBackLegal(f.fields[k], spell, levels);
    }
    SameWeights(f.fields, others);
  }

  lemma {:induction false} ReadBackItemsLegal(items: seq<Frozen>, spell: real -> Numeral, levels: int)
    requires forall i | 0 <= i < |items| :: FrozenLegal(items[i], levels)
    ensures forall i | 0 <= i < |items| :: FrozenLegal(ReadBackItems(items, spell)[i], levels)
    ensures FrozenCountItems(ReadBackItems(items, spell)) == FrozenCountItems(items)
    decreases items
  {
    hide FrozenLegal, FrozenCount, ReadBack;
    if items != [] {
      var n := |items| - 1;
      ReadBackItemsLegal(items[..n], spell, levels);
      ReadBackLegal(items[n], spell, levels);
      assert ReadBackItems(items, spell)[..n] == ReadBackItems(items[..n], spell);
    }
  }

  // ---- events ----------------------------------------------------------------------

  datatype DomainEvent = DomainEvent(
    eventId: nat, eventType: string, aggregateType: string, aggregateId: nat, version: int, occurredAt: Time,
    payload: map<string, Frozen>)

  predicate TypeName(name: string) {
    |name| <= 100 && SnakeCase(name)
  }

  /** A legal payload: its fields lie at depth 1 and at most 500 values are counted. */
  predicate LegalPayload(payload: Value) {
    payload.Mapping? && LegalEntries(payload.entries, MAX_DEPTH) && CountEntries(payload.entries) <= MAX_VALUES
  }

  function MakeEvent(eventId: nat, eventType: string, aggregateType: string, aggregateId: nat, version: int,
                     occurredAt: Time, payload: Value): (r: Result<DomainEvent, Error>)
    ensures r.Ok? <==> TypeName(eventType) && TypeName(aggregateType) && version >= 1 && LegalPayload(payload)
    ensures r.Ok? ==> r.value.payload == ImageEntries(payload.entries)
  {
    if !TypeName(eventType) || !TypeName(aggregateType) || version < 1 then Err(ValueError)
    else if !payload.Mapping? then Err(TypeError)
    else
      FreezeEntriesExactly(payload.entries, 1, MAX_VALUES);
      match FreezeEntries(payload.entries, 1, MAX_VALUES)
      case Err(e) => Err(e)
      case Ok((fields, _)) =>
        Ok(DomainEvent(eventId, eventType, aggregateType, aggregateId, version, occurredAt, fields))
  }

  /** The event columns of an outbox row. */
  datatype Columns = Columns(
    eventId: nat, eventType: string, aggregateType: string, aggregateId: nat, version: int, occurredAt: Time,
    payload: Value)

  function ToEvent(c: Columns): Result<DomainEvent, Error> {
    MakeEvent(c.eventId, c.eventType, c.aggregateType, c.aggregateId, c.version, c.occurredAt, c.payload)
  }

  /** The row of an event as it reads back: mappings in any key order, floats as storage spells them. */
  ghost predicate Stages(e: DomainEvent, c: Columns, spell: real -> Numeral) {
    && c.eventId == e.eventId && c.eventType == e.eventType && c.aggregateType == e.aggregateType
    && c.aggregateId == e.aggregateId && c.version == e.version && c.occurredAt == e.occurredAt
    && Renders(ReadBack(FMap(e.payload), spell), c.payload)
  }

  predicate SameEvent(a: DomainEvent, b: DomainEvent) {
    a.(payload := b.payload) == b && Equal(FMap(a.payload), FMap(b.payload))
  }

  /**
   * Rebuilding an event from its row never raises, whatever the event.  The rebuilt event
   * equals the original exactly when every float stored as a whole number is that number.
   */
  lemma StagedEventsRebuild(made: Columns, e: DomainEvent, stored: Columns, spell: real -> Numeral)
    requires ToEvent(made) == Ok(e) && Stages(e, stored, spell)
    ensures ToEvent(stored).Ok?
    ensures ToEvent(stored).value == e.(payload := ReadBack(FMap(e.payload), spell).fields)
    ensures SameEvent(e, ToEvent(stored).value) <==> Exact(FMap(e.payload), spell)
  {
    ImageEntriesLegal(made.payload.entries, MAX_DEPTH);
    assert FrozenLegal(FMap(e.payload), MAX_DEPTH + 1);
    var back := ReadBack(FMap(e.payload), spell);
    ReadBackLegal(FMap(e.payload), spell, MAX_DEPTH + 1);
    assert LegalFields(back.fields, MAX_DEPTH);
    RenderedEntriesLegal(back.fields, stored.payload.entries, MAX_DEPTH);
    EqualExactly(FMap(e.payload), spell);
    hide LegalEntries, RendersEntries, LegalFields, CountEntries, ImageEntries, TypeName, ReadBack, Equal, Exact,
        FrozenLegal, Total, Weights;
    FreezeEntriesExactly(stored.payload.entries, 1, MAX_VALUES);
  }

  // The float nearest to ten to the 23rd, and the whole number it is stored as.
  const LARGE: real := 99999999999999991611392.0
  const SPELLED: int := 100000000000000000000000

  lemma OneLetterName()
    ensures GoodName("a") && TypeName("a")
  {
    assert "a"[1..] == "" && Split("", '_') == [""];
    assert ['a'] + "" == "a";
    assert Split("a", '_') == ["a"] by {
      assert [""][1..] == [];
      assert Split("a", '_') == [['a'] + [""][0]] + [""][1..];
    }
  }

  lemma OneFieldPayload(v: Value)
    requires Legal(v, MAX_DEPTH) && Count(v) == 1
    ensures var fields := [Entry(Text("a"), v)];
            LegalPayload(Mapping(fields)) && ImageEntries(fields) == map["a" := Image(v)]
  {
    OneLetterName();
    var fields := [Entry(Text("a"), v)];
    hide GoodName, Legal, Count, Image;
    assert fields[..0] == [] && CountEntries([]) == 0 && ImageEntries([]) == map[];
  }

  lemma OneFieldRenders(f: Frozen, v: Value)
    requires Renders(f, v)
    ensures Renders(FMap(map["a" := f]), Mapping([Entry(Text("a"), v)]))
  {
    var fields := [Entry(Text("a"), v)];
    assert fields[0].key in Keys(fields);
    assert RendersEntries(map["a" := f], fields) by {
      hide Renders;
    }
  }

  /** Such a float exists: an event that carries it is rebuilt, but not equal to the original. */
  lemma LargeFloatsChange(spell: real -> Numeral)
    requires spell(LARGE) == Whole(SPELLED)
    ensures var made := Columns(1, "a", "a", 1, 1, 0, Mapping([Entry(Text("a"), Float(LARGE))]));
            var stored := made.(payload := Mapping([Entry(Text("a"), Int(SPELLED))]));
            && ToEvent(made).Ok? && ToEvent(stored).Ok?
            && Stages(ToEvent(made).value, stored, spell)
            && !SameEvent(ToEvent(made).value, ToEvent(stored).value)
  {
    var float, whole := Mapping([Entry(Text("a"), Float(LARGE))]), Mapping([Entry(Text("a"), Int(SPELLED))]);
    OneLetterName();
    OneFieldPayload(Float(LARGE));
    OneFieldRenders(FInt(SPELLED), Int(SPELLED));
    var made := Columns(1, "a", "a", 1, 1, 0, float);
    hide GoodName, LegalPayload, TypeName, ImageEntries;
    var e := ToEvent(made).value;
    assert e.payload["a"] == FFloat(LARGE);
    assert ReadBack(FMap(e.payload), spell).fields == map["a" := FInt(SPELLED)];
    assert !Exact(FMap(e.payload), spell) by {
      assert !Exact(e.payload["a"], spell);
    }
    hide Renders, ReadBack, Exact, Equal;
    StagedEventsRebuild(made, e, made.(payload := whole), spell);
  }

  // ---- the methods -----------------------------------------------------------------

  /** DomainEvent.__post_init__. */
  method ConstructEvent(eventId: nat, eventType: string, aggregateType: string, aggregateId: nat, version: int,
                        occurredAt: Time, payload: Value)
    returns (r: Result<DomainEvent, Error>)
    ensures r == MakeEvent(eventId, eventType, aggregateType, aggregateId, version, occurredAt, payload)
  {
    if !TypeName(eventType) || !TypeName(aggregateType) || version < 1 {
      return Err(ValueError);
    }
    if !payload.Mapping? {
      return Err(TypeError);
    }
    var budget := new Budget(MAX_VALUES);
    var fields := FreezeMapping(payload.entries, 1, budget);
    if fields.Err? {
      return Err(fields.error);
    }
    return Ok(DomainEvent(eventId, eventType, aggregateType, aggregateId, version, occurredAt, fields.value));
  }

  method FreezeMapping(entries: seq<Entry>, depth: int, budget: Budget) returns (r: Result<map<string, Frozen>, Error>)
    modifies budget
    ensures match FreezeEntries(entries, depth, old(budget.left))
            case Ok((fields, left)) => r == Ok(fields) && budget.left == left
            case Err(e) => r == Err(e)
    decreases entries
  {
    var frozen: map<string, Frozen> := map[];
    for i := 0 to |entries|
      invariant FreezeEntries(entries[..i], depth, old(budget.left)) == Ok((frozen, budget.left))
    {
      assert entries[..i + 1][..i] == entries[..i];
      assert FreezeEntries(entries[..i + 1], depth, old(budget.left)).Err? ==>
          FreezeEntries(entries, depth, old(budget.left))
          == FreezeEntries(entries[..i + 1], depth, old(budget.left)) by {
        EntriesFailEarly(entries, i + 1, depth, old(budget.left));
      }
      var bad := CheckKey(entries[i].key);
      if bad.Some? {
        return Err(bad.value);
      }
      assert entries[i].value < entries[i];
      var item := FreezeOne(entries[i].value, depth, budget);
      if item.Err? {
        return Err(item.error);
      }
      frozen := frozen[entries[i].key.name := item.value];
    }
    assert entries[..|entries|] == entries;
    return Ok(frozen);
  }

  method FreezeOne(v: Value, depth: int, budget: Budget) returns (r: Result<Frozen, Error>)
    modifies budget
    ensures match FreezeValue(v, depth, old(budget.left))
            case Ok((f, left)) => r == Ok(f) && budget.left == left
            case Err(e) => r == Err(e)
    decreases v
  {
    if depth > MAX_DEPTH {
      return Err(ValueError);
    }
    budget.left := budget.left - 1;
    if budget.left < 0 {
      return Err(ValueError);
    }
    match v
    case Null => return Ok(FNull);
    case Bool(b) => return Ok(FBool(b));
    case Int(n) => return Ok(FInt(n));
    case Float(x) => return Ok(FFloat(x));
    case NotFinite => return Err(ValueError);
    case Str(s) => return if |s| > MAX_STRING then Err(ValueError) else Ok(FStr(s));
    case List(items) => r := FreezeSequence(items, depth + 1, budget);
    case Tuple(items) => r := FreezeSequence(items, depth + 1, budget);
    case Mapping(entries) =>
      var fields := FreezeMapping(entries, depth + 1, budget);
      return if fields.Ok? then Ok(FMap(fields.value)) else Err(fields.error);
    case Unsupported => return Err(TypeError);
  }

  method FreezeSequence(items: seq<Value>, depth: int, budget: Budget) returns (r: Result<Frozen, Error>)
    modifies budget
    ensures match FreezeItems(items, depth, old(budget.left))
            case Ok((fs, left)) => r == Ok(FTuple(fs)) && budget.left == left
            case Err(e) => r == Err(e)
    decreases items
  {
    var frozen: seq<Frozen> := [];
    for i := 0 to |items|
      invariant FreezeItems(items[..i], depth, old(budget.left)) == Ok((frozen, budget.left))
    {
      assert items[..i + 1][..i] == items[..i];
      ItemsFailEarly(items, i + 1, depth, old(budget.left));
      var item := FreezeOne(items[i], depth, budget);
      if item.Err? {
        return Err(item.error);
      }
      frozen := frozen + [item.value];
    }
    assert items[..|items|] == items;
    return Ok(FTuple(frozen));
  }

  lemma {:induction false} EntriesFailEarly(entries: seq<Entry>, n: nat, depth: int, budget: int)
    requires n <= |entries|
    ensures FreezeEntries(entries[..n], depth, budget).Err? ==>
              FreezeEntries(entries, depth, budget) == FreezeEntries(entries[..n], depth, budget)
    decreases |entries|
  {
    if n == |entries| {
      assert entries[..n] == entries;
    } else {
      EntriesFailEarly(entries[..|entries| - 1], n, depth, budget);
      assert entries[..|entries| - 1][..n] == entries[..n];
    }
  }

  lemma {:induction false} ItemsFailEarly(items: seq<Value>, n: nat, depth: int, budget: int)
    requires n <= |items|
    ensures FreezeItems(items[..n], depth, budget).Err? ==>
              FreezeItems(items, depth, budget) == FreezeItems(items[..n], depth, budget)
    decreases |items|
  {
    if n == |items| {
      assert items[..n] == items;
    } else {
      ItemsFailEarly(items[..|items| - 1], n, depth, budget);
      assert items[..|items| - 1][..n] == items[..n];
    }
  }

  /** _thaw_value: lists for tuples, a fresh dictionary for every mapping. */
  method Thaw(f: Frozen) returns (v: Value)
    ensures Renders(f, v)
    decreases f, 1
  {
    match f
    case FNull => v := Null;
    case FBool(b) => v := Bool(b);
    case FInt(n) => v := Int(n);
    case FFloat(x) => v := Float(x);
    case FStr(s) => v := Str(s);
    case FTuple(items) =>
      var thawed: seq<Value> := [];
      for i := 0 to |items|
        invariant |thawed| == i && forall k | 0 <= k < i :: Renders(items[k], thawed[k])
      {
        var item := Thaw(items[i]);
        thawed := thawed + [item];
      }
      v := List(thawed);
    case FMap(fields) =>
      var entries := ThawFields(f);
      v := Mapping(entries);
  }

  /** payload_dict. */
  method ThawFields(f: Frozen) returns (entries: seq<Entry>)
    requires f.FMap?
    ensures RendersEntries(f.fields, entries)
    decreases f, 0
  {
    entries := [];
    var left := f.fields.Keys;
    while left != {}
      invariant left <= f.fields.Keys
      invariant RendersEntries(f.fields - left, entries)
      decreases |left|
    {
      var name :| name in left;
      var item := Thaw(f.fields[name]);
      RendersSnoc(f.fields - left, entries, name, f.fields[name], item);
      assert (f.fields - left)[name := f.fields[name]] == f.fields - (left - {name});
      entries := entries + [Entry(Text(name), item)];
      left := left - {name};
    }
    assert f.fields - {} == f.fields;
  }

  lemma RendersSnoc(fields: map<string, Frozen>, entries: seq<Entry>, name: string, f: Frozen, v: Value)
    requires RendersEntries(fields, entries) && name !in fields && Renders(f, v)
    ensures RendersEntries(fields[name := f], entries + [Entry(Text(name), v)])
  {
    var more := entries + [Entry(Text(name), v)];
    assert forall i | 0 <= i < |entries| :: more[i] == entries[i];
    forall k | k in fields[name := f] ensures Text(k) in Keys(more) {
      if k == name {
        assert more[|entries|].key == Text(k);
      } else {
        assert Text(k) in Keys(entries);
        var i :| 0 <= i < |entries| && entries[i].key == Text(k);
        assert more[i].key == Text(k);
      }
    }
    hide Renders;
  }
}
