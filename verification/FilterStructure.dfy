// The structure a filter is written against, and the path table built from it
// (packages/filter-engine/src/structure.ts, filter-engine.ts).
module FilterStructure {
  import opened Json

  const FILTER_MAX_STRING_LENGTH := 128

  datatype ScalarSchema =
    | Text
    | Enum(options: set<Json>)
    | Boolean
    | Number(integer: bool, nonnegative: bool)

  /** Whether a query value is acceptable for a field: null is never a query value. */
  predicate Accepts(schema: ScalarSchema, value: Json) {
    match schema
    case Text => value.JString? && |value.text| <= FILTER_MAX_STRING_LENGTH
    case Enum(options) => Primitive(value) && !value.JNull? && value in options
    case Boolean => value.JBool?
    case Number(integer, nonnegative) =>
      && value.JNumber?
      && (integer ==> value.amount.Floor as real == value.amount)
      && (nonnegative ==> value.amount >= 0.0)
  }

  datatype Fact =
    | Scalar(schema: ScalarSchema)
    | ScalarArray(itemSchema: ScalarSchema)
    | Object(fields: seq<Field>)
    | Collection(itemFields: seq<Field>)

  datatype Field = Field(name: string, fact: Fact)

  type Shape = seq<Field>

  /** Field names are distinct at every level, as the keys of a record are. */
  predicate DistinctNames(shape: Shape)
    decreases shape
  {
    && (forall i, j :: 0 <= i < j < |shape| ==> shape[i].name != shape[j].name)
    && (forall i :: 0 <= i < |shape| && shape[i].fact.Object? ==> DistinctNames(shape[i].fact.fields))
    && (forall i :: 0 <= i < |shape| && shape[i].fact.Collection? ==> DistinctNames(shape[i].fact.itemFields))
  }

  /** No field name holds a dot, at any level. */
  predicate DotlessNames(shape: Shape)
    decreases shape
  {
    && (forall i :: 0 <= i < |shape| ==> Dotless(shape[i].name))
    && (forall i :: 0 <= i < |shape| && shape[i].fact.Object? ==> DotlessNames(shape[i].fact.fields))
    && (forall i :: 0 <= i < |shape| && shape[i].fact.Collection? ==> DotlessNames(shape[i].fact.itemFields))
  }

  predicate WellFormed(shape: Shape) { DistinctNames(shape) && DotlessNames(shape) }

  function FindField(shape: Shape, name: string): Option<Fact> {
    if shape == [] then None
    else if shape[|shape| - 1].name == name then Some(shape[|shape| - 1].fact)
    else FindField(shape[..|shape| - 1], name)
  }

  /** The fact a field path leads to, walking through object facts only. */
  function FindFact(shape: Shape, segments: seq<string>): Option<Fact>
    requires segments != []
    decreases |segments|
  {
    match FindField(shape, segments[0])
    case None => None
    case Some(fact) =>
      if |segments| == 1 then Some(fact)
      else if fact.Object? then FindFact(fact.fields, segments[1..])
      else None
  }

  // ---- The path table ----

  datatype ComparablePath = ComparablePath(segments: seq<string>, fact: Fact)
  datatype CollectionPath = CollectionPath(segments: seq<string>, scope: Scope)
  datatype Scope = Scope(comparable: map<string, ComparablePath>, collections: map<string, CollectionPath>)

  const EMPTY_SCOPE := Scope(map[], map[])

  function Merge(a: Scope, b: Scope): Scope {
    Scope(a.comparable + b.comparable, a.collections + b.collections)
  }

  /** The entries that one field contributes below `prefix`. */
  function FieldScope(field: Field, prefix: seq<string>): Scope
    decreases field, 0
  {
    var segments := prefix + [field.name];
    match field.fact
    case Scalar(_) => Scope(map[Join(segments) := ComparablePath(segments, field.fact)], map[])
    case ScalarArray(_) => Scope(map[Join(segments) := ComparablePath(segments, field.fact)], map[])
    case Object(fields) => ScopeAt(fields, segments)
    case Collection(fields) => Scope(map[], map[Join(segments) := CollectionPath(segments, ScopeAt(fields, []))])
  }

  function ScopeAt(shape: Shape, prefix: seq<string>): Scope
    decreases shape, 1
  {
    if shape == [] then EMPTY_SCOPE
    else Merge(ScopeAt(shape[..|shape| - 1], prefix), FieldScope(shape[|shape| - 1], prefix))
  }

  function ScopeOf(shape: Shape): Scope { ScopeAt(shape, []) }

  /** The two maps that the closure `visit` fills. */
  class ScopeBuilder {
    var comparableByPath: map<string, ComparablePath>
    var collectionByPath: map<string, CollectionPath>

    function Contents(): Scope
      reads this
    {
      Scope(comparableByPath, collectionByPath)
    }

    constructor ()
      ensures Contents() == EMPTY_SCOPE
    {
      comparableByPath, collectionByPath := map[], map[];
    }

    method Visit(shape: Shape, prefix: seq<string>)
      modifies this
      ensures Contents() == Merge(old(Contents()), ScopeAt(shape, prefix))
      decreases shape, 1
    {
      ghost var before := Contents();
      for i := 0 to |shape|
        invariant Contents() == Merge(before, ScopeAt(shape[..i], prefix))
      {
        ExtendScope(shape, prefix, i);
        MergeAssociative(before, ScopeAt(shape[..i], prefix), FieldScope(shape[i], prefix));
        VisitField(shape[i], prefix);
      }
      assert shape[..|shape|] == shape;
    }

    method VisitField(field: Field, prefix: seq<string>)
      modifies this
      ensures Contents() == Merge(old(Contents()), FieldScope(field, prefix))
      decreases field, 0
    {
      var segments := prefix + [field.name];
      match field.fact {
        case Object(fields) =>
          Visit(fields, segments);
        case Collection(itemFields) =>
          var nested := BuildSearchScope(itemFields);
          collectionByPath := collectionByPath[Join(segments) := CollectionPath(segments, nested)];
        case _ =>
          comparableByPath := comparableByPath[Join(segments) := ComparablePath(segments, field.fact)];
      }
    }
  }

  lemma MergeAssociative(a: Scope, b: Scope, c: Scope)
    ensures Merge(Merge(a, b), c) == Merge(a, Merge(b, c))
  {
    assert (a.comparable + b.comparable) + c.comparable == a.comparable + (b.comparable + c.comparable);
    assert (a.collections + b.collections) + c.collections == a.collections + (b.collections + c.collections);
  }

  lemma ExtendScope(shape: Shape, prefix: seq<string>, i: nat)
    requires i < |shape|
    ensures ScopeAt(shape[..i + 1], prefix) == Merge(ScopeAt(shape[..i], prefix), FieldScope(shape[i], prefix))
  {
    var longer := shape[..i + 1];
    assert longer[..|longer| - 1] == shape[..i] && longer[|longer| - 1] == shape[i];
  }

  method BuildSearchScope(fields: Shape) returns (scope: Scope)
    ensures scope == ScopeOf(fields)
    decreases fields, 2
  {
    var builder := new ScopeBuilder();
    builder.Visit(fields, []);
    scope := builder.Contents();
  }

  // ---- Which fields a dotted path can mean ----

  ghost predicate IsComparable(fact: Option<Fact>) { fact.Some? && (fact.value.Scalar? || fact.value.ScalarArray?) }

  ghost predicate IsCollection(fact: Option<Fact>) { fact.Some? && fact.value.Collection? }

  /** Walking the structure along `segments` ends at a comparable field. */
  ghost predicate FieldAt(shape: Shape, segments: seq<string>) {
    segments != [] && IsComparable(FindFact(shape, segments))
  }

  ghost predicate CollectionAt(shape: Shape, segments: seq<string>) {
    segments != [] && IsCollection(FindFact(shape, segments))
  }

  /** No two comparable fields of one level have the same dotted path, nor two collections. */
  ghost predicate Unambiguous(shape: Shape) {
    && (forall p, q :: FieldAt(shape, p) && FieldAt(shape, q) && Join(p) == Join(q) ==> p == q)
    && (forall p, q :: CollectionAt(shape, p) && CollectionAt(shape, q) && Join(p) == Join(q) ==> p == q)
  }

  /** So it is at the top level, and among the items of every collection. */
  ghost predicate Clear(shape: Shape)
    decreases shape, 1
  {
    Unambiguous(shape) && ItemsClear(shape)
  }

  ghost predicate ItemsClear(shape: Shape)
    decreases shape, 0
  {
    && (forall i :: 0 <= i < |shape| && shape[i].fact.Object? ==> ItemsClear(shape[i].fact.fields))
    && (forall i :: 0 <= i < |shape| && shape[i].fact.Collection? ==> Clear(shape[i].fact.itemFields))
  }

  // ---- The table against walking the structure ----

  /** What a walk that starts below `prefix` finds for a whole path. */
  ghost function FactBelow(shape: Shape, prefix: seq<string>, segments: seq<string>): Option<Fact> {
    if |segments| > |prefix| && segments[..|prefix|] == prefix then FindFact(shape, segments[|prefix|..]) else None
  }

  /** Every entry belongs to a field that the walk finds, and is filed under its dotted path. */
  ghost predicate Owned(scope: Scope, shape: Shape, prefix: seq<string>, path: string) {
    && (path in scope.comparable ==>
          var entry := scope.comparable[path];
          && entry.segments != [] && Join(entry.segments) == path
          && FactBelow(shape, prefix, entry.segments) == Some(entry.fact) && IsComparable(Some(entry.fact)))
    && (path in scope.collections ==>
          var entry := scope.collections[path];
          var fact := FactBelow(shape, prefix, entry.segments);
          && entry.segments != [] && Join(entry.segments) == path
          && IsCollection(fact) && entry.scope == ScopeOf(fact.value.itemFields))
  }

  /** Every field that the walk finds has an entry under its dotted path. */
  ghost predicate Listed(scope: Scope, shape: Shape, prefix: seq<string>, segments: seq<string>) {
    segments != [] ==>
      && (IsComparable(FactBelow(shape, prefix, segments)) ==> Join(segments) in scope.comparable)
      && (IsCollection(FactBelow(shape, prefix, segments)) ==> Join(segments) in scope.collections)
  }

  lemma NotFound(shape: Shape, name: string)
    requires forall i :: 0 <= i < |shape| ==> shape[i].name != name
    ensures FindField(shape, name) == None
  {}

  lemma SingleField(field: Field, name: string)
    ensures FindField([field], name) == if field.name == name then Some(field.fact) else None
  {
    assert [field][..0] == [];
  }

  /** Below one field: the field itself, or whatever its object holds. */
  lemma FactBelowField(field: Field, prefix: seq<string>, segments: seq<string>)
    ensures
      var own := prefix + [field.name];
      FactBelow([field], prefix, segments) ==
        if segments == own then Some(field.fact)
        else if field.fact.Object? then FactBelow(field.fact.fields, own, segments)
        else None
  {
    var own := prefix + [field.name];
    if |segments| > |prefix| && segments[..|prefix|] == prefix {
      var below := segments[|prefix|..];
      assert segments == prefix + below;
      SingleField(field, below[0]);
      assert below[0] == segments[|prefix|];
      if below[0] == field.name {
        if |below| == 1 {
          assert segments == own;
        } else {
          assert segments[..|own|] == own;
          assert segments[|own|..] == below[1..];
        }
      } else {
        assert own[|prefix|] == field.name;
        if |segments| > |own| { assert segments[..|own|][|prefix|] == below[0]; }
      }
    } else {
      assert own[..|prefix|] == prefix;
      assert |segments| > |own| ==> segments[..|own|][..|prefix|] == segments[..|prefix|];
    }
  }

  /** Adding a field with a new name finds what either part finds. */
  lemma FactBelowLast(shape: Shape, prefix: seq<string>, segments: seq<string>)
    requires shape != [] && forall i :: 0 <= i < |shape| - 1 ==> shape[i].name != shape[|shape| - 1].name
    ensures
      var init, last := shape[..|shape| - 1], shape[|shape| - 1];
      var (before, own) := (FactBelow(init, prefix, segments), FactBelow([last], prefix, segments));
      && (before.None? || own.None?)
      && FactBelow(shape, prefix, segments) == if own.Some? then own else before
  {
    var init, last := shape[..|shape| - 1], shape[|shape| - 1];
    NotFound(init, last.name);
    if |segments| > |prefix| && segments[..|prefix|] == prefix {
      var below := segments[|prefix|..];
      SingleField(last, below[0]);
      if below[0] == last.name {
        assert FindFact(init, below) == None;
        assert FindFact([last], below) == FindFact(shape, below);
      } else {
        assert FindFact([last], below) == None;
        assert FindFact(init, below) == FindFact(shape, below);
      }
    }
  }

  lemma {:induction false} EntriesOwned(shape: Shape, prefix: seq<string>, path: string)
    requires DistinctNames(shape)
    ensures Owned(ScopeAt(shape, prefix), shape, prefix, path)
    decreases shape, 1
  {
    if shape != [] {
      var init, last := shape[..|shape| - 1], shape[|shape| - 1];
      EntriesOwned(init, prefix, path);
      FieldOwned(last, prefix, path);
      var scope := ScopeAt(shape, prefix);
      if path in scope.comparable { FactBelowLast(shape, prefix, scope.comparable[path].segments); }
      if path in scope.collections { FactBelowLast(shape, prefix, scope.collections[path].segments); }
    }
  }

  lemma {:induction false} FieldOwned(field: Field, prefix: seq<string>, path: string)
    requires field.fact.Object? ==> DistinctNames(field.fact.fields)
    ensures Owned(FieldScope(field, prefix), [field], prefix, path)
    decreases field, 0
  {
    var own := prefix + [field.name];
    var scope := FieldScope(field, prefix);
    if field.fact.Object? { EntriesOwned(field.fact.fields, own, path); }
    if path in scope.comparable { FactBelowField(field, prefix, scope.comparable[path].segments); }
    if path in scope.collections { FactBelowField(field, prefix, scope.collections[path].segments); }
  }

  lemma {:induction false} FieldsListed(shape: Shape, prefix: seq<string>, segments: seq<string>)
    requires DistinctNames(shape)
    ensures Listed(ScopeAt(shape, prefix), shape, prefix, segments)
    decreases shape, 1
  {
    if shape != [] {
      FactBelowLast(shape, prefix, segments);
      FieldsListed(shape[..|shape| - 1], prefix, segments);
      FieldListed(shape[|shape| - 1], prefix, segments);
    }
  }

  lemma {:induction false} FieldListed(field: Field, prefix: seq<string>, segments: seq<string>)
    requires field.fact.Object? ==> DistinctNames(field.fact.fields)
    ensures Listed(FieldScope(field, prefix), [field], prefix, segments)
    decreases field, 0
  {
    FactBelowField(field, prefix, segments);
    if field.fact.Object? { FieldsListed(field.fact.fields, prefix + [field.name], segments); }
  }

  lemma BelowNothing(shape: Shape, segments: seq<string>)
    requires segments != []
    ensures FactBelow(shape, [], segments) == FindFact(shape, segments)
  {
    assert segments[..0] == [] && segments[0..] == segments;
  }

  /** A dotted path has an entry exactly when some field has that path, and the entry is one
      such field's. */
  lemma TableEntries(shape: Shape, path: string)
    requires DistinctNames(shape)
    ensures path in ScopeOf(shape).comparable <==> exists p :: FieldAt(shape, p) && Join(p) == path
    ensures path in ScopeOf(shape).collections <==> exists p :: CollectionAt(shape, p) && Join(p) == path
    ensures path in ScopeOf(shape).comparable ==>
      var entry := ScopeOf(shape).comparable[path];
      FieldAt(shape, entry.segments) && Join(entry.segments) == path && FindFact(shape, entry.segments) == Some(entry.fact)
    ensures path in ScopeOf(shape).collections ==>
      var entry := ScopeOf(shape).collections[path];
      && CollectionAt(shape, entry.segments) && Join(entry.segments) == path
      && entry.scope == ScopeOf(FindFact(shape, entry.segments).value.itemFields)
  {
    var scope := ScopeOf(shape);
    EntriesOwned(shape, [], path);
    if path in scope.comparable { BelowNothing(shape, scope.comparable[path].segments); }
    if path in scope.collections { BelowNothing(shape, scope.collections[path].segments); }
    if p :| FieldAt(shape, p) && Join(p) == path {
      BelowNothing(shape, p);
      FieldsListed(shape, [], p);
    }
    if p :| CollectionAt(shape, p) && Join(p) == path {
      BelowNothing(shape, p);
      FieldsListed(shape, [], p);
    }
  }

  /** Every field and every collection of this level can be looked up: the table holds its
      own segments and fact under its dotted path. */
  ghost predicate KeepsEveryField(shape: Shape) {
    && (forall p :: FieldAt(shape, p) ==>
         && Join(p) in ScopeOf(shape).comparable
         && ScopeOf(shape).comparable[Join(p)] == ComparablePath(p, FindFact(shape, p).value))
    && (forall p :: CollectionAt(shape, p) ==>
         && Join(p) in ScopeOf(shape).collections
         && ScopeOf(shape).collections[Join(p)] == CollectionPath(p, ScopeOf(FindFact(shape, p).value.itemFields)))
  }

  /** buildSearchScope keeps every field exactly when no two of them share a dotted path. */
  lemma KeepsEveryFieldExactlyWhenUnambiguous(shape: Shape)
    requires DistinctNames(shape)
    ensures KeepsEveryField(shape) <==> Unambiguous(shape)
  {
    if Unambiguous(shape) {
      forall p | FieldAt(shape, p)
        ensures Join(p) in ScopeOf(shape).comparable
        ensures ScopeOf(shape).comparable[Join(p)] == ComparablePath(p, FindFact(shape, p).value)
      {
        TableEntries(shape, Join(p));
      }
      forall p | CollectionAt(shape, p)
        ensures Join(p) in ScopeOf(shape).collections
        ensures ScopeOf(shape).collections[Join(p)] == CollectionPath(p, ScopeOf(FindFact(shape, p).value.itemFields))
      {
        TableEntries(shape, Join(p));
      }
    }
  }

  // ---- Structures without dots in their names ----

  /** The table `scope` holds, for one path, exactly what the walk finds. */
  ghost predicate Agrees(scope: Scope, path: string, fact: Option<Fact>) {
    var segments := Split(path);
    && (path in scope.comparable <==> IsComparable(fact))
    && (path in scope.comparable ==> scope.comparable[path] == ComparablePath(segments, fact.value))
    && (path in scope.collections <==> IsCollection(fact))
    && (path in scope.collections ==>
          scope.collections[path] == CollectionPath(segments, ScopeOf(fact.value.itemFields)))
  }

  lemma {:induction false} FoundDotless(shape: Shape, segments: seq<string>)
    requires DotlessNames(shape) && segments != [] && FindFact(shape, segments).Some?
    ensures AllDotless(segments)
    decreases |segments|
  {
    FoundField(shape, segments[0]);
    if |segments| > 1 { FoundDotless(FindField(shape, segments[0]).value.fields, segments[1..]); }
  }

  lemma FoundField(shape: Shape, name: string)
    ensures FindField(shape, name).Some? ==>
      exists i :: 0 <= i < |shape| && shape[i] == Field(name, FindField(shape, name).value)
  {
    if shape != [] && shape[|shape| - 1].name != name {
      FoundField(shape[..|shape| - 1], name);
    }
  }

  /** buildSearchScope: for a structure whose field names hold no dot, the table maps a
      dotted path to a comparable field or a collection exactly when walking the
      structure field by field leads to one, with the same segments and fact. */
  lemma ScopeIsNavigation(shape: Shape, path: string)
    requires WellFormed(shape)
    ensures Agrees(ScopeOf(shape), path, FindFact(shape, Split(path)))
  {
    var scope := ScopeOf(shape);
    TableEntries(shape, path);
    JoinSplit(path);
    if path in scope.comparable {
      FoundDotless(shape, scope.comparable[path].segments);
      SplitJoin(scope.comparable[path].segments);
    }
    if path in scope.collections {
      FoundDotless(shape, scope.collections[path].segments);
      SplitJoin(scope.collections[path].segments);
    }
    assert FieldAt(shape, Split(path)) <==> IsComparable(FindFact(shape, Split(path)));
    assert CollectionAt(shape, Split(path)) <==> IsCollection(FindFact(shape, Split(path)));
  }

  /** Such a structure is unambiguous at every level. */
  lemma DotlessIsUnambiguous(shape: Shape)
    requires DotlessNames(shape)
    ensures Unambiguous(shape)
  {
    forall p: seq<string>, q: seq<string> |
      p != [] && q != [] && FindFact(shape, p).Some? && FindFact(shape, q).Some? && Join(p) == Join(q)
      ensures p == q
    {
      FoundDotless(shape, p);
      FoundDotless(shape, q);
      SplitJoin(p);
      SplitJoin(q);
    }
  }

  lemma {:induction false} DotlessIsClear(shape: Shape)
    requires DotlessNames(shape)
    ensures Clear(shape)
    decreases shape
  {
    DotlessIsUnambiguous(shape);
    forall i | 0 <= i < |shape| && shape[i].fact.Object? ensures ItemsClear(shape[i].fact.fields) {
      DotlessIsClear(shape[i].fact.fields);
    }
    forall i | 0 <= i < |shape| && shape[i].fact.Collection? ensures Clear(shape[i].fact.itemFields) {
      DotlessIsClear(shape[i].fact.itemFields);
    }
  }

  // ---- Dots in names ----

  const INNER := Field("b", Scalar(Boolean))

  const OUTER := Field("a", Object([INNER]))

  const DOTTED := Field("a.b", Scalar(Text))

  lemma OuterTable()
    ensures ScopeAt([OUTER], []) == Scope(map["a.b" := ComparablePath(["a", "b"], Scalar(Boolean))], map[])
  {
    assert [OUTER][..0] == [] && [INNER][..0] == [];
    assert [] + ["a"] == ["a"] && ["a"] + ["b"] == ["a", "b"] && ["a", "b"][..1] == ["a"];
    assert Join(["a", "b"]) == "a.b";
    assert ScopeAt([INNER], ["a"]) == Scope(map["a.b" := ComparablePath(["a", "b"], Scalar(Boolean))], map[]);
  }

  lemma BothFound()
    ensures FindFact([OUTER, DOTTED], ["a", "b"]) == Some(Scalar(Boolean)) && FindFact([OUTER, DOTTED], ["a.b"]) == Some(Scalar(Text))
  {
    assert [OUTER, DOTTED][..1] == [OUTER] && [OUTER][..0] == [] && [INNER][..0] == [];
    assert |"a"| != |"a.b"|;
    assert FindField([OUTER, DOTTED], "a") == FindField([OUTER], "a") == Some(OUTER.fact);
    assert ["a", "b"][1..] == ["b"] && FindField([INNER], "b") == Some(INNER.fact);
  }

  /** Two fields of this structure have the same dotted path, and the later one takes the
      entry of both. */
  lemma DottedNameCollides()
    ensures
      var shape := [OUTER, DOTTED];
      && DistinctNames(shape) && !Unambiguous(shape)
      && FindFact(shape, ["a", "b"]) == Some(Scalar(Boolean))
      && FindFact(shape, ["a.b"]) == Some(Scalar(Text))
      && Join(["a", "b"]) == Join(["a.b"])
      && ScopeOf(shape).comparable == map["a.b" := ComparablePath(["a.b"], Scalar(Text))]
  {
    var shape := [OUTER, DOTTED];
    BothFound();
    OuterTable();
    assert shape[..1] == [OUTER] && ["a", "b"][..1] == ["a"] && [] + ["a.b"] == ["a.b"];
    assert FieldScope(DOTTED, []) == Scope(map["a.b" := ComparablePath(["a.b"], Scalar(Text))], map[]);
    assert ScopeOf(shape) == Merge(ScopeAt([OUTER], []), FieldScope(DOTTED, []));
    assert Join(["a", "b"]) == "a.b" == Join(["a.b"]);
    assert |["a", "b"]| != |["a.b"]|;
    assert FieldAt(shape, ["a", "b"]) && FieldAt(shape, ["a.b"]);
  }
}
