// JSON values with ordered object entries, and the canonical form the gateway planner
// compares (apps/gateway/src/normalize.ts, sortKeys and stableStringify).
module CanonicalJson {
  import opened Json

  /** A number is kept as its canonical text. */
  datatype Value =
    | Null
    | Flag(flag: bool)
    | Number(digits: string)
    | Text(text: string)
    | List(items: seq<Value>)
    | Record(entries: seq<Entry>)

  datatype Entry = Entry(key: string, value: Value)

  /** What a value means when the order of object entries does not count. */
  datatype Meaning =
    | MNull
    | MFlag(flag: bool)
    | MNumber(digits: string)
    | MText(text: string)
    | MList(items: seq<Meaning>)
    | MRecord(fields: map<string, Meaning>)

  function Means(v: Value): Meaning
    decreases v, 1
  {
    match v
    case Null => MNull
    case Flag(b) => MFlag(b)
    case Number(d) => MNumber(d)
    case Text(s) => MText(s)
    case List(items) => MList(MeansAll(items))
    case Record(entries) => MRecord(Fields(entries))
  }

  function MeansAll(items: seq<Value>): (m: seq<Meaning>)
    ensures |m| == |items|
    decreases items, 0
  {
    if items == [] then [] else MeansAll(items[..|items| - 1]) + [Means(items[|items| - 1])]
  }

  function Fields(entries: seq<Entry>): map<string, Meaning>
    decreases entries, 0
  {
    if entries == [] then map[]
    else
      var last := entries[|entries| - 1];
      Fields(entries[..|entries| - 1])[last.key := Means(last.value)]
  }

  /** Object keys are distinct, at every level. */
  ghost predicate DistinctKeys(entries: seq<Entry>) {
    forall i, j :: 0 <= i < j < |entries| ==> entries[i].key != entries[j].key
  }

  ghost predicate Proper(v: Value)
    decreases v
  {
    match v
    case List(items) => forall i :: 0 <= i < |items| ==> Proper(items[i])
    case Record(entries) => DistinctKeys(entries) && forall i :: 0 <= i < |entries| ==> Proper(entries[i].value)
    case _ => true
  }

  // ---- Ordering keys ----

  predicate Below(a: string, b: string) {
    if b == "" then false else if a == "" then true
    else a[0] < b[0] || (a[0] == b[0] && Below(a[1..], b[1..]))
  }

  lemma {:induction false} BelowTotal(a: string, b: string)
    ensures a == b || Below(a, b) || Below(b, a)
    ensures !(Below(a, b) && Below(b, a)) && (a == b ==> !Below(a, b))
  {
    if a != "" && b != "" {
      BelowTotal(a[1..], b[1..]);
      if a[0] == b[0] && a[1..] == b[1..] {
        assert a == [a[0]] + a[1..] && b == [b[0]] + b[1..];
      }
    }
  }

  lemma {:induction false} BelowTransitive(a: string, b: string, c: string)
    requires Below(a, b) && Below(b, c)
    ensures Below(a, c)
  {
    if a != "" && a[0] == b[0] && b[0] == c[0] { BelowTransitive(a[1..], b[1..], c[1..]); }
  }

  /** Keys strictly ascending. */
  ghost predicate Ascending(entries: seq<Entry>) {
    forall i, j :: 0 <= i < j < |entries| ==> Below(entries[i].key, entries[j].key)
  }

  function Insert(entries: seq<Entry>, e: Entry): seq<Entry> {
    if entries == [] then [e]
    else
      var last := entries[|entries| - 1];
      if Below(last.key, e.key) then entries + [e] else Insert(entries[..|entries| - 1], e) + [last]
  }

  function SortKeys(v: Value): Value
    decreases v, 1
  {
    match v
    case List(items) => List(SortAll(items))
    case Record(entries) => Record(Sorted(entries))
    case _ => v
  }

  function SortAll(items: seq<Value>): (s: seq<Value>)
    ensures |s| == |items|
    decreases items, 0
  {
    if items == [] then [] else SortAll(items[..|items| - 1]) + [SortKeys(items[|items| - 1])]
  }

  function Sorted(entries: seq<Entry>): seq<Entry>
    decreases entries, 0
  {
    if entries == [] then []
    else
      var last := entries[|entries| - 1];
      Insert(Sorted(entries[..|entries| - 1]), Entry(last.key, SortKeys(last.value)))
  }

  // ---- Looking up ----

  function Find(entries: seq<Entry>, key: string): Option<Value> {
    if entries == [] then None
    else if entries[|entries| - 1].key == key then Some(entries[|entries| - 1].value)
    else Find(entries[..|entries| - 1], key)
  }

  lemma {:induction false} FindInserted(entries: seq<Entry>, e: Entry, key: string)
    requires Find(entries, e.key).None?
    ensures Find(Insert(entries, e), key) == if key == e.key then Some(e.value) else Find(entries, key)
  {
    if entries != [] {
      var init, last := entries[..|entries| - 1], entries[|entries| - 1];
      var inserted := Insert(entries, e);
      if Below(last.key, e.key) {
        assert inserted[..|inserted| - 1] == entries;
      } else {
        FindInserted(init, e, key);
        assert inserted[..|inserted| - 1] == Insert(init, e);
      }
    }
  }

  lemma {:induction false} FindAbsent(entries: seq<Entry>, key: string)
    ensures Find(entries, key).None? <==> forall i :: 0 <= i < |entries| ==> entries[i].key != key
  {
    if entries != [] { FindAbsent(entries[..|entries| - 1], key); }
  }

  lemma {:induction false} InsertKeys(entries: seq<Entry>, e: Entry, x: Entry)
    ensures x in Insert(entries, e) <==> x in entries || x == e
  {
    if entries != [] {
      var init, last := entries[..|entries| - 1], entries[|entries| - 1];
      assert entries == init + [last];
      if !Below(last.key, e.key) { InsertKeys(init, e, x); }
    }
  }

  lemma {:induction false} InsertAscends(entries: seq<Entry>, e: Entry)
    requires Ascending(entries) && Find(entries, e.key).None?
    ensures Ascending(Insert(entries, e))
  {
    if entries != [] {
      var init, last := entries[..|entries| - 1], entries[|entries| - 1];
      BelowTotal(last.key, e.key);
      if Below(last.key, e.key) {
        forall i | 0 <= i < |init| ensures Below(init[i].key, e.key) { BelowTransitive(init[i].key, last.key, e.key); }
      } else {
        InsertAscends(init, e);
        forall i | 0 <= i < |Insert(init, e)| ensures Below(Insert(init, e)[i].key, last.key) {
          InsertKeys(init, e, Insert(init, e)[i]);
        }
      }
    }
  }

  /** Sorting orders the keys and sorts each value in place. */
  lemma {:induction false} SortedFacts(entries: seq<Entry>, key: string)
    requires DistinctKeys(entries)
    ensures Ascending(Sorted(entries))
    ensures Find(Sorted(entries), key) ==
      match Find(entries, key) case None => None case Some(v) => Some(SortKeys(v))
  {
    if entries != [] {
      var init, last := entries[..|entries| - 1], entries[|entries| - 1];
      SortedFacts(init, key);
      SortedFacts(init, last.key);
      FindAbsent(init, last.key);
      InsertAscends(Sorted(init), Entry(last.key, SortKeys(last.value)));
      FindInserted(Sorted(init), Entry(last.key, SortKeys(last.value)), key);
    }
  }

  lemma {:induction false} FieldsAreFound(entries: seq<Entry>, key: string)
    ensures key in Fields(entries) <==> Find(entries, key).Some?
    ensures key in Fields(entries) ==> Fields(entries)[key] == Means(Find(entries, key).value)
  {
    if entries != [] { FieldsAreFound(entries[..|entries| - 1], key); }
  }

  lemma {:induction false} FoundIsListed(entries: seq<Entry>, key: string)
    requires Find(entries, key).Some?
    ensures Entry(key, Find(entries, key).value) in entries
  {
    assert entries == entries[..|entries| - 1] + [entries[|entries| - 1]];
    if entries[|entries| - 1].key != key { FoundIsListed(entries[..|entries| - 1], key); }
  }

  lemma LastIsFound(entries: seq<Entry>)
    requires entries != []
    ensures Find(entries, entries[|entries| - 1].key) == Some(entries[|entries| - 1].value)
  {}

  /** Ascending lists that answer every lookup alike are the same list. */
  lemma {:induction false} AscendingIsUnique(a: seq<Entry>, b: seq<Entry>)
    requires Ascending(a) && Ascending(b) && forall key :: Find(a, key) == Find(b, key)
    ensures a == b
    decreases |a|
  {
    if a == [] {
      if b != [] { LastIsFound(b); }
    } else {
      LastIsFound(a);
      var la := a[|a| - 1];
      FoundIsListed(b, la.key);
      var lb := b[|b| - 1];
      LastIsFound(b);
      FoundIsListed(a, lb.key);
      SameLast(a, b);
      var ia, ib := a[..|a| - 1], b[..|b| - 1];
      forall key ensures Find(ia, key) == Find(ib, key) {
        if key == la.key {
          NotBeforeLast(a);
          NotBeforeLast(b);
        } else {
          assert Find(a, key) == Find(ia, key) && Find(b, key) == Find(ib, key);
        }
      }
      AscendingIsUnique(ia, ib);
      assert a == ia + [la] && b == ib + [lb];
    }
  }

  lemma NotBeforeLast(a: seq<Entry>)
    requires Ascending(a) && a != []
    ensures Find(a[..|a| - 1], a[|a| - 1].key) == None
  {
    FindAbsent(a[..|a| - 1], a[|a| - 1].key);
    forall i | 0 <= i < |a| - 1 ensures a[i].key != a[|a| - 1].key { BelowTotal(a[i].key, a[|a| - 1].key); }
  }

  lemma SameLast(a: seq<Entry>, b: seq<Entry>)
    requires Ascending(a) && Ascending(b) && a != [] && b != []
    requires Find(b, a[|a| - 1].key) == Some(a[|a| - 1].value) && Find(a, b[|b| - 1].key) == Some(b[|b| - 1].value)
    ensures a[|a| - 1] == b[|b| - 1]
  {
    var la, lb := a[|a| - 1], b[|b| - 1];
    FoundIsListed(b, la.key);
    FoundIsListed(a, lb.key);
    if la.key != lb.key {
      var i :| 0 <= i < |b| && b[i] == la;
      var j :| 0 <= j < |a| && a[j].key == lb.key;
      assert Below(la.key, lb.key) && Below(lb.key, la.key);
      BelowTotal(la.key, lb.key);
    }
  }

  // ---- The canonical form ----

  /** Two values have the same sorted text exactly when they mean the same. */
  lemma {:induction false} CanonicalMeans(a: Value, b: Value)
    requires Proper(a) && Proper(b)
    ensures SortKeys(a) == SortKeys(b) <==> Means(a) == Means(b)
    decreases a, 1
  {
    match a {
      case List(items) => if b.List? { CanonicalItems(items, b.items); }
      case Record(entries) => if b.Record? { CanonicalEntries(entries, b.entries); }
      case _ =>
    }
  }

  lemma {:induction false} CanonicalItems(a: seq<Value>, b: seq<Value>)
    requires (forall i :: 0 <= i < |a| ==> Proper(a[i])) && (forall i :: 0 <= i < |b| ==> Proper(b[i]))
    ensures SortAll(a) == SortAll(b) <==> MeansAll(a) == MeansAll(b)
    decreases a, 0
  {
    if a != [] && b != [] {
      var ia, ib := a[..|a| - 1], b[..|b| - 1];
      CanonicalItems(ia, ib);
      CanonicalMeans(a[|a| - 1], b[|b| - 1]);
      assert SortAll(a)[..|a| - 1] == SortAll(ia) && SortAll(b)[..|b| - 1] == SortAll(ib);
      assert MeansAll(a)[..|a| - 1] == MeansAll(ia) && MeansAll(b)[..|b| - 1] == MeansAll(ib);
      assert SortAll(a)[|a| - 1] == SortKeys(a[|a| - 1]) && SortAll(b)[|b| - 1] == SortKeys(b[|b| - 1]);
      assert MeansAll(a)[|a| - 1] == Means(a[|a| - 1]) && MeansAll(b)[|b| - 1] == Means(b[|b| - 1]);
    }
  }

  lemma {:induction false} CanonicalEntries(a: seq<Entry>, b: seq<Entry>)
    requires DistinctKeys(a) && DistinctKeys(b)
    requires (forall i :: 0 <= i < |a| ==> Proper(a[i].value)) && (forall i :: 0 <= i < |b| ==> Proper(b[i].value))
    ensures Sorted(a) == Sorted(b) <==> Fields(a) == Fields(b)
    decreases a, 0
  {
    forall key
      ensures Find(Sorted(a), key) == Find(Sorted(b), key) <==>
        ((key in Fields(a) <==> key in Fields(b)) && (key in Fields(a) && key in Fields(b) ==> Fields(a)[key] == Fields(b)[key]))
    {
      SortedFacts(a, key);
      SortedFacts(b, key);
      FieldsAreFound(a, key);
      FieldsAreFound(b, key);
      if Find(a, key).Some? && Find(b, key).Some? {
        FoundIsListed(a, key);
        FoundIsListed(b, key);
        var i :| 0 <= i < |a| && a[i] == Entry(key, Find(a, key).value);
        CanonicalMeans(a[i].value, Find(b, key).value);
      }
    }
    SortedFacts(a, "");
    SortedFacts(b, "");
    if Fields(a) == Fields(b) { AscendingIsUnique(Sorted(a), Sorted(b)); }
  }
}
