/** Which payloads make an event, with every limit and every sensitive word written out. */
module PayloadAnswers {
  import opened Basics
  import opened EventPayload
  import Names

  /** Lower-case words and digits joined by single underscores, starting with a letter, a hundred characters at most. */
  predicate Snake(name: string) {
    && 1 <= |name| <= 100 && 'a' <= name[0] <= 'z'
    && forall i | 0 <= i < |Names.Split(name, '_')| ::
         && Names.Split(name, '_')[i] != ""
         && forall j | 0 <= j < |Names.Split(name, '_')[i]| ::
              'a' <= Names.Split(name, '_')[i][j] <= 'z' || '0' <= Names.Split(name, '_')[i][j] <= '9'
  }

  /** A part of the name between underscores is a sensitive word. */
  predicate Secret(name: string) {
    exists i :: 0 <= i < |Names.Split(name, '_')| &&
      Names.Split(name, '_')[i] in
        {"authorization", "card", "cookie", "credential", "cvv", "password", "secret", "token"}
  }

  /** How many levels a value has; a leaf or an empty container has one. */
  function Height(v: Value): nat
    decreases v
  {
    match v
    case List(items) => 1 + HeightItems(items)
    case Tuple(items) => 1 + HeightItems(items)
    case Mapping(entries) => 1 + HeightEntries(entries)
    case _ => 1
  }

  function HeightItems(items: seq<Value>): nat
    decreases items
  {
    if items == [] then 0 else Max(HeightItems(items[..|items| - 1]), Height(items[|items| - 1]))
  }

  function HeightEntries(entries: seq<Entry>): nat
    decreases entries
  {
    if entries == [] then 0
    else
      var last := entries[|entries| - 1];
      assert last.value < last;
      Max(HeightEntries(entries[..|entries| - 1]), Height(last.value))
  }

  /** JSON kinds, strings of ten thousand characters at most, and proper names for all fields. */
  predicate Sound(v: Value)
    decreases v
  {
    match v
    case NotFinite => false
    case Unsupported => false
    case Str(s) => |s| <= 10000
    case List(items) => SoundItems(items)
    case Tuple(items) => SoundItems(items)
    case Mapping(entries) => SoundEntries(entries)
    case _ => true
  }

  predicate SoundItems(items: seq<Value>)
    decreases items
  {
    items == [] || (SoundItems(items[..|items| - 1]) && Sound(items[|items| - 1]))
  }

  predicate SoundEntries(entries: seq<Entry>)
    decreases entries
  {
    entries == [] ||
    var last := entries[|entries| - 1];
    assert last.value < last;
    && SoundEntries(entries[..|entries| - 1]) && Sound(last.value)
    && last.key.Text? && Snake(last.key.name) && !Secret(last.key.name)
  }

  // ---- names -----------------------------------------------------------------------

  predicate Word(s: string) {
    s != "" && forall j | 0 <= j < |s| :: Names.Lower(s[j]) || Names.Digit(s[j])
  }

  predicate Words(parts: seq<string>) {
    forall i | 0 <= i < |parts| :: Word(parts[i])
  }

  /** What SnakeCase says about the characters alone, the first one aside. */
  predicate Joined(s: string) {
    && s != "" && s[0] != '_' && s[|s| - 1] != '_'
    && (forall i | 0 <= i < |s| :: Names.Lower(s[i]) || Names.Digit(s[i]) || s[i] == '_')
    && forall i | 0 < i < |s| :: !(s[i - 1] == '_' && s[i] == '_')
  }

  /** The parts of a string that starts with another character, and of one that starts with a separator. */
  lemma SplitOfMore(c: char, s: string)
    ensures var parts := Names.Split(s, '_');
            && (c == '_' ==> Names.Split([c] + s, '_') == [""] + parts)
            && (c != '_' ==> Names.Split([c] + s, '_') == [[c] + parts[0]] + parts[1..])
  {
    assert ([c] + s)[1..] == s;
  }

  lemma {:induction false} JoinedIsWords(s: string)
    ensures Joined(s) <==> Words(Names.Split(s, '_'))
  {
    if s == "" {
      assert Names.Split(s, '_')[0] == "";
    } else {
      var c, rest := s[0], s[1..];
      assert s == [c] + rest;
      SplitOfMore(c, rest);
      var parts := Names.Split(rest, '_');
      if c == '_' {
        assert Names.Split(s, '_')[0] == "";
      } else if rest == "" {
        assert Names.Split(s, '_') == [[c] + ""];
        assert Words(Names.Split(s, '_')) <==> Word(Names.Split(s, '_')[0]);
      } else if rest[0] == '_' {
        assert rest == ['_'] + rest[1..];
        SplitOfMore('_', rest[1..]);
        JoinedIsWords(rest[1..]);
        AfterSeparator(c, rest[1..]);
      } else {
        JoinedIsWords(rest);
        OneMoreLetter(c, rest);
      }
    }
  }

  /** "c" and a separator before s. */
  lemma AfterSeparator(c: char, s: string)
    requires c != '_'
    ensures var parts := Names.Split(s, '_');
            && (Words([[c] + ""] + parts) <==> Word([c]) && Words(parts))
            && (Joined([c] + (['_'] + s)) <==> Word([c]) && Joined(s))
  {
    OneMoreWord([c], Names.Split(s, '_'));
    assert [c] + "" == [c];
    hide Names.Split, Words;
    SeparatorJoined(c, s);
  }

  lemma OneMoreWord(word: string, parts: seq<string>)
    ensures Words([word] + parts) <==> Word(word) && Words(parts)
  {
    hide Word;
    var more := [word] + parts;
    assert more[0] == word && forall i | 0 <= i < |parts| :: more[i + 1] == parts[i];
    if Words(more) {
      forall i | 0 <= i < |parts| ensures Word(parts[i]) {
        assert Word(more[i + 1]);
      }
    }
  }

  lemma SeparatorJoined(c: char, s: string)
    requires c != '_'
    ensures Joined([c] + (['_'] + s)) <==> Word([c]) && Joined(s)
  {
    var t := [c] + (['_'] + s);
    assert [c][0] == c;
    assert t[0] == c && t[1] == '_' && |t| == |s| + 2;
    assert forall i | 0 <= i < |s| :: t[i + 2] == s[i];
    if Joined(t) {
      assert s != "" && s[|s| - 1] == t[|t| - 1] && s[0] == t[2];
      forall i | 0 <= i < |s| ensures Names.Lower(s[i]) || Names.Digit(s[i]) || s[i] == '_' {
        assert t[i + 2] == s[i];
      }
      forall i | 0 < i < |s| ensures !(s[i - 1] == '_' && s[i] == '_') {
        assert t[i + 1] == s[i - 1] && t[i + 2] == s[i];
      }
    }
  }

  lemma LongerWord(c: char, part: string)
    requires part != ""
    ensures Word([c] + part) <==> Word([c]) && Word(part)
  {
    var more := [c] + part;
    assert forall j | 0 <= j < |part| :: more[j + 1] == part[j];
    assert more[0] == c && [c][0] == c;
    if Word(more) {
      forall j | 0 <= j < |part| ensures Names.Lower(part[j]) || Names.Digit(part[j]) {
        assert more[j + 1] == part[j];
      }
    }
  }

  lemma LongerFirstWord(c: char, parts: seq<string>)
    requires |parts| >= 1 && parts[0] != ""
    ensures Words([[c] + parts[0]] + parts[1..]) <==> Word([c]) && Words(parts)
  {
    var more := [[c] + parts[0]] + parts[1..];
    LongerWord(c, parts[0]);
    assert more[0] == [c] + parts[0];
    assert forall i | 1 <= i < |parts| :: more[i] == parts[i];
    hide Word;
    if Words(more) {
      forall i | 0 <= i < |parts| ensures Word(parts[i]) {
        assert Word(more[i]);
      }
    }
  }

  lemma OneMoreLetter(c: char, s: string)
    requires c != '_' && s != "" && s[0] != '_'
    ensures var parts := Names.Split(s, '_');
            && (Words([[c] + parts[0]] + parts[1..]) <==> Word([c]) && Words(parts))
            && (Joined([c] + s) <==> Word([c]) && Joined(s))
  {
    SplitOfMore(s[0], s[1..]);
    assert s == [s[0]] + s[1..];
    assert Names.Split(s, '_')[0] != "";
    LongerFirstWord(c, Names.Split(s, '_'));
    hide Names.Split, Words;
    LongerJoined(c, s);
  }

  lemma LongerJoined(c: char, s: string)
    requires c != '_' && s != "" && s[0] != '_'
    ensures Joined([c] + s) <==> Word([c]) && Joined(s)
  {
    var t := [c] + s;
    assert t[0] == c && [c][0] == c;
    assert forall i | 0 <= i < |s| :: t[i + 1] == s[i];
    if Joined(t) {
      forall i | 0 < i < |s| ensures !(s[i - 1] == '_' && s[i] == '_') {
        assert t[i] == s[i - 1] && t[i + 1] == s[i];
      }
    }
  }

  lemma NameAnswers(name: string)
    ensures TypeName(name) <==> Snake(name)
    ensures GoodName(name) <==> Snake(name) && !Secret(name)
  {
    JoinedIsWords(name);
    assert Snake(name) <==> 1 <= |name| <= 100 && Names.Lower(name[0]) && Words(Names.Split(name, '_'));
    assert Secret(name) <==> Sensitive(name);
  }

  // ---- values ----------------------------------------------------------------------

  lemma {:induction false} LegalMeans(v: Value, levels: int)
    ensures Legal(v, levels) <==> Height(v) <= levels && Sound(v)
    decreases v
  {
    hide LegalEntries, HeightItems, HeightEntries, SoundItems, SoundEntries, GoodName;
    if levels >= 1 {
      match v
      case List(items) => LegalItemsMean(items, levels - 1);
      case Tuple(items) => LegalItemsMean(items, levels - 1);
      case Mapping(entries) => LegalEntriesMean(entries, levels - 1);
      case _ =>
    }
  }

  lemma {:induction false} LegalItemsMean(items: seq<Value>, levels: nat)
    ensures (forall i | 0 <= i < |items| :: Legal(items[i], levels))
            <==> HeightItems(items) <= levels && SoundItems(items)
    decreases items
  {
    hide Legal, Height, Sound;
    if items != [] {
      var n := |items| - 1;
      LegalItemsMean(items[..n], levels);
      LegalMeans(items[n], levels);
      assert forall i | 0 <= i < n :: items[..n][i] == items[i];
      assert (forall i | 0 <= i < |items| :: Legal(items[i], levels))
        <==> (forall i | 0 <= i < n :: Legal(items[i], levels)) && Legal(items[n], levels);
    }
  }

  lemma {:induction false} LegalEntriesMean(entries: seq<Entry>, levels: nat)
    ensures LegalEntries(entries, levels) <==> HeightEntries(entries) <= levels && SoundEntries(entries)
    decreases entries
  {
    hide Legal, Height, Sound, GoodName, Snake, Secret, TypeName;
    if entries != [] {
      var n := |entries| - 1;
      assert entries[n].value < entries[n];
      LegalEntriesSnoc(entries, levels);
      hide LegalEntries;
      LegalEntriesMean(entries[..n], levels);
      LegalMeans(entries[n].value, levels);
      if entries[n].key.Text? {
        NameAnswers(entries[n].key.name);
      }
    } else {
      assert LegalEntries(entries, levels);
    }
  }

  /**
   * An event can be made exactly from proper type names, a positive version, and a mapping of
   * at most eight levels below it, with sound values under proper, unsuspicious names, and at
   * most five hundred of them.
   */
  lemma MakeEventAnswers(eventId: nat, eventType: string, aggregateType: string, aggregateId: nat, version: int,
                         occurredAt: Time, payload: Value)
    ensures var r := MakeEvent(eventId, eventType, aggregateType, aggregateId, version, occurredAt, payload);
            && (r.Ok? <==>
                  && Snake(eventType) && Snake(aggregateType) && version >= 1 && payload.Mapping?
                  && Height(payload) <= 9 && Sound(payload) && Count(payload) <= 501)
            && (r.Ok? ==>
                  r.value == DomainEvent(eventId, eventType, aggregateType, aggregateId, version, occurredAt,
                                         ImageEntries(payload.entries)))
  {
    NameAnswers(eventType);
    NameAnswers(aggregateType);
    hide TypeName, Snake, LegalEntries, HeightEntries, SoundEntries, ImageEntries, CountEntries;
    if payload.Mapping? {
      LegalEntriesMean(payload.entries, 8);
    }
  }
}
