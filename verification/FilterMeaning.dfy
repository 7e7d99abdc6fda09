// What a filter means, what the generated SQL evaluates to, and why the two agree
// (packages/filter-engine/src/filter-engine.ts).
module FilterMeaning {
  import opened Json
  import opened FilterStructure
  import opened FilterCompiler

  // ---- Documents that follow a structure ----

  /** A document may lack fields and may carry extra ones; what it does carry has the
      kind the structure says. Scalars may be null. */
  predicate Conforms(doc: Json, shape: Shape)
    decreases shape, 1
  {
    && doc.JObject?
    && forall i :: 0 <= i < |shape| && shape[i].name in doc.fields ==>
         FactConforms(doc.fields[shape[i].name], shape[i].fact)
  }

  predicate FactConforms(value: Json, fact: Fact)
    decreases fact, 0
  {
    match fact
    case Scalar(_) => Primitive(value)
    case ScalarArray(_) => value.JArray? && forall i :: 0 <= i < |value.items| ==> Primitive(value.items[i])
    case Object(fields) => Conforms(value, fields)
    case Collection(itemFields) =>
      value.JArray? && forall i :: 0 <= i < |value.items| ==> Conforms(value.items[i], itemFields)
  }

  // ---- The direct, two-valued meaning ----

  predicate Holds(op: Operator, values: seq<Json>, found: Option<Json>) {
    match op
    case ContainsAny => found.Some? && found.value.JArray? && exists v :: v in values && v in found.value.items
    case ContainsAll => found.Some? && found.value.JArray? && forall v :: v in values ==> v in found.value.items
    case _ => found.Some? && found.value in values
  }

  /** A filter names a field by its dotted path in the structure. A condition reads the
      field so named; a scan reads the elements of the collection so named, and its inner
      filter speaks of the structure of these elements. */
  ghost predicate Meaning(f: Filter, shape: Shape, doc: Json)
    decreases f
  {
    match f
    case Condition(field, op, values) =>
      exists p :: FieldAt(shape, p) && Join(p) == field && Holds(op, values, Lookup(doc, p))
    case And(children) => forall i :: 0 <= i < |children| ==> Meaning(children[i], shape, doc)
    case Or(children) => exists i :: 0 <= i < |children| && Meaning(children[i], shape, doc)
    case Not(child) => !Meaning(child, shape, doc)
    case Exists(path, where) =>
      exists p, i :: CollectionAt(shape, p) && Join(p) == path
                  && 0 <= i < |ItemsOf(Lookup(doc, p))|
                  && Meaning(where, ItemShape(shape, p), ItemsOf(Lookup(doc, p))[i])
  }

  function ItemsOf(found: Option<Json>): seq<Json> {
    if found.Some? && found.value.JArray? then found.value.items else []
  }

  ghost function ItemShape(shape: Shape, p: seq<string>): Shape
    requires CollectionAt(shape, p)
  {
    FindFact(shape, p).value.itemFields
  }

  /** The same reading of an expression as the caller wrote it, before value lists are
      normalized. */
  ghost predicate RawMeaning(raw: RawFilter, shape: Shape, doc: Json)
    decreases raw
  {
    match raw
    case RawCondition(field, op, value) =>
      exists p :: FieldAt(shape, p) && Join(p) == field && RawHolds(op, value, Lookup(doc, p))
    case RawAnd(children) => forall i :: 0 <= i < |children| ==> RawMeaning(children[i], shape, doc)
    case RawOr(children) => exists i :: 0 <= i < |children| && RawMeaning(children[i], shape, doc)
    case RawNot(child) => !RawMeaning(child, shape, doc)
    case RawExists(path, where) =>
      exists p, i :: CollectionAt(shape, p) && Join(p) == path
                  && 0 <= i < |ItemsOf(Lookup(doc, p))|
                  && RawMeaning(where, ItemShape(shape, p), ItemsOf(Lookup(doc, p))[i])
  }

  predicate RawHolds(op: string, value: Json, found: Option<Json>) {
    if op == "eq" then found == Some(value)
    else if op == "in" then value.JArray? && Holds(In, value.items, found)
    else if op == "containsAny" then value.JArray? && Holds(ContainsAny, value.items, found)
    else value.JArray? && Holds(ContainsAll, value.items, found)
  }

  // ---- SQL evaluation ----

  /** A condition is true, false or unknown; `Fault` is a statement that raises an error. */
  datatype Truth = True | False | Unknown | Fault

  datatype SqlJson = SqlNull | SqlValue(json: Json) | SqlFault

  function FromBool(b: bool): Truth { if b then True else False }

  /** jsonb_extract_path. Addressing an array element by a text index never arises for a
      conforming document and counts as a fault here. */
  function Extract(j: Json, segments: seq<string>): SqlJson
    decreases |segments|
  {
    if segments == [] then SqlValue(j)
    else if j.JArray? then SqlFault
    else if j.JObject? && segments[0] in j.fields then Extract(j.fields[segments[0]], segments[1..])
    else SqlNull
  }

  function EvalJson(e: JsonExpr, base: SqlJson, rows: map<nat, Json>): SqlJson {
    match e
    case Base => base
    case Row(alias) => if alias in rows then SqlValue(rows[alias]) else SqlFault
    case ExtractPath(document, segments) =>
      var j := EvalJson(document, base, rows);
      if j.SqlValue? then Extract(j.json, segments) else j
  }

  /** jsonb `@>` with an array of scalars on the right. */
  predicate ContainsLiterals(j: Json, literals: seq<Json>) {
    j.JArray? && forall v :: v in literals ==> v in j.items
  }

  function Conjoin(a: Truth, b: Truth): Truth {
    if a.Fault? || b.Fault? then Fault
    else if a.False? || b.False? then False
    else if a.Unknown? || b.Unknown? then Unknown
    else True
  }

  function Disjoin(a: Truth, b: Truth): Truth {
    if a.Fault? || b.Fault? then Fault
    else if a.True? || b.True? then True
    else if a.Unknown? || b.Unknown? then Unknown
    else False
  }

  function Negate(a: Truth): Truth {
    match a case True => False case False => True case t => t
  }

  function Eval(s: SqlBool, base: SqlJson, rows: map<nat, Json>): Truth
    decreases s, 1
  {
    match s
    case Conjunction(operands) => EvalAnd(operands, base, rows)
    case Disjunction(operands) => EvalOr(operands, base, rows)
    case Negation(operand) => Negate(Eval(operand, base, rows))
    case CoalesceFalse(operand) => var t := Eval(operand, base, rows); if t.Unknown? then False else t
    case JsonEquals(expr, literal) =>
      (match EvalJson(expr, base, rows)
       case SqlNull => Unknown case SqlFault => Fault case SqlValue(j) => FromBool(j == literal))
    case JsonContains(expr, literals) =>
      (match EvalJson(expr, base, rows)
       case SqlNull => Unknown case SqlFault => Fault case SqlValue(j) => FromBool(ContainsLiterals(j, literals)))
    case ExistsElement(collection, alias, where) =>
      // The scanned expression cannot see the alias that the scan introduces.
      match EvalJson(collection, base, rows - {alias})
      case SqlNull => False
      case SqlFault => Fault
      case SqlValue(j) =>
        if !j.JArray? then Fault
        else if exists i :: 0 <= i < |j.items| && Eval(where, base, rows[alias := j.items[i]]).Fault? then Fault
        else FromBool(exists i :: 0 <= i < |j.items| && Eval(where, base, rows[alias := j.items[i]]).True?)
  }

  function EvalAnd(ss: seq<SqlBool>, base: SqlJson, rows: map<nat, Json>): Truth
    decreases ss, 0
  {
    if ss == [] then True else Conjoin(EvalAnd(ss[..|ss| - 1], base, rows), Eval(ss[|ss| - 1], base, rows))
  }

  function EvalOr(ss: seq<SqlBool>, base: SqlJson, rows: map<nat, Json>): Truth
    decreases ss, 0
  {
    if ss == [] then False else Disjoin(EvalOr(ss[..|ss| - 1], base, rows), Eval(ss[|ss| - 1], base, rows))
  }

  // ---- Lookup on a conforming document ----

  function Nullable(found: Option<Json>): SqlJson {
    if found.Some? then SqlValue(found.value) else SqlNull
  }

  lemma {:induction false} ExtractConforming(doc: Json, shape: Shape, segments: seq<string>)
    requires Conforms(doc, shape) && segments != [] && FindFact(shape, segments).Some?
    ensures Extract(doc, segments) == Nullable(Lookup(doc, segments))
    ensures Lookup(doc, segments).Some? ==>
      FactConforms(Lookup(doc, segments).value, FindFact(shape, segments).value)
    decreases |segments|
  {
    FoundField(shape, segments[0]);
    if segments[0] in doc.fields {
      var child := doc.fields[segments[0]];
      var fact := FindField(shape, segments[0]).value;
      assert FactConforms(child, fact);
      if |segments| > 1 {
        ExtractConforming(child, fact.fields, segments[1..]);
      }
    }
  }

  lemma {:induction false} FoundClear(shape: Shape, segments: seq<string>)
    requires DistinctNames(shape) && ItemsClear(shape) && segments != []
    ensures IsCollection(FindFact(shape, segments)) ==>
      && DistinctNames(FindFact(shape, segments).value.itemFields)
      && Clear(FindFact(shape, segments).value.itemFields)
    decreases |segments|
  {
    FoundField(shape, segments[0]);
    var fact := FindField(shape, segments[0]);
    if fact.Some? && |segments| > 1 && fact.value.Object? { FoundClear(fact.value.fields, segments[1..]); }
  }

  // ---- Conditions ----

  lemma {:induction false} OrOfBools(ss: seq<SqlBool>, base: SqlJson, rows: map<nat, Json>, bits: seq<bool>)
    requires |bits| == |ss|
    requires forall i :: 0 <= i < |ss| ==> Eval(ss[i], base, rows) == FromBool(bits[i])
    ensures EvalOr(ss, base, rows) == FromBool(exists i :: 0 <= i < |bits| && bits[i])
  {
    if ss != [] { OrOfBools(ss[..|ss| - 1], base, rows, bits[..|bits| - 1]); }
  }

  lemma {:induction false} AndOfBools(ss: seq<SqlBool>, base: SqlJson, rows: map<nat, Json>, bits: seq<bool>)
    requires |bits| == |ss|
    requires forall i :: 0 <= i < |ss| ==> Eval(ss[i], base, rows) == FromBool(bits[i])
    ensures EvalAnd(ss, base, rows) == FromBool(forall i :: 0 <= i < |bits| ==> bits[i])
  {
    if ss != [] { AndOfBools(ss[..|ss| - 1], base, rows, bits[..|bits| - 1]); }
  }

  lemma SomeValue(values: seq<Json>, bits: seq<bool>, wanted: Json -> bool)
    requires |bits| == |values| && forall i :: 0 <= i < |values| ==> bits[i] == wanted(values[i])
    ensures (exists i :: 0 <= i < |bits| && bits[i]) <==> (exists v :: v in values && wanted(v))
  {
    if v :| v in values && wanted(v) {
      var i :| 0 <= i < |values| && values[i] == v;
      assert bits[i];
    }
  }

  lemma EqualityMeaning(values: seq<Json>, expr: JsonExpr, found: Option<Json>, base: SqlJson, rows: map<nat, Json>)
    requires EvalJson(expr, base, rows) == Nullable(found)
    ensures Eval(CompileCondition(In, values, expr), base, rows) == FromBool(found.Some? && found.value in values)
  {
    var matches := v => found.Some? && found.value == v;
    var sqls := Mapped(values, v => CoalesceFalse(JsonEquals(expr, v)));
    var bits := seq(|values|, i requires 0 <= i < |values| => matches(values[i]));
    forall i | 0 <= i < |sqls| ensures Eval(sqls[i], base, rows) == FromBool(bits[i]) {
      assert sqls[i] == CoalesceFalse(JsonEquals(expr, values[i]));
    }
    OrOfBools(sqls, base, rows, bits);
    SomeValue(values, bits, matches);
  }

  lemma OneContained(v: Json, expr: JsonExpr, found: Option<Json>, base: SqlJson, rows: map<nat, Json>)
    requires EvalJson(expr, base, rows) == Nullable(found)
    ensures Eval(CoalesceFalse(JsonContains(expr, [v])), base, rows)
         == FromBool(found.Some? && found.value.JArray? && v in found.value.items)
  {}

  lemma AnyMeaning(values: seq<Json>, expr: JsonExpr, found: Option<Json>, base: SqlJson, rows: map<nat, Json>)
    requires EvalJson(expr, base, rows) == Nullable(found)
    ensures Eval(CompileCondition(ContainsAny, values, expr), base, rows) == FromBool(Holds(ContainsAny, values, found))
  {
    var matches := v => found.Some? && found.value.JArray? && v in found.value.items;
    var sqls := Mapped(values, v => CoalesceFalse(JsonContains(expr, [v])));
    var bits := seq(|values|, i requires 0 <= i < |values| => matches(values[i]));
    forall i | 0 <= i < |sqls| ensures Eval(sqls[i], base, rows) == FromBool(bits[i]) {
      OneContained(values[i], expr, found, base, rows);
    }
    OrOfBools(sqls, base, rows, bits);
    SomeValue(values, bits, matches);
  }

  lemma ConditionMeaning(op: Operator, values: seq<Json>, expr: JsonExpr, found: Option<Json>,
                         base: SqlJson, rows: map<nat, Json>)
    requires EvalJson(expr, base, rows) == Nullable(found)
    ensures Eval(CompileCondition(op, values, expr), base, rows) == FromBool(Holds(op, values, found))
  {
    match op {
      case ContainsAll =>
      case ContainsAny => AnyMeaning(values, expr, found, base, rows);
      case _ =>
        EqualityMeaning(values, expr, found, base, rows);
        assert CompileCondition(op, values, expr) == CompileCondition(In, values, expr);
    }
  }

  // ---- The compiler preserves meaning ----

  /** No row alias at or above `next` occurs in an expression. */
  predicate AliasesBelow(e: JsonExpr, next: nat) {
    match e
    case Base => true
    case Row(alias) => alias < next
    case ExtractPath(document, _) => AliasesBelow(document, next)
  }

  lemma UnusedAlias(e: JsonExpr, base: SqlJson, rows: map<nat, Json>, alias: nat)
    requires AliasesBelow(e, alias)
    ensures EvalJson(e, base, rows - {alias}) == EvalJson(e, base, rows)
  {}

  lemma {:induction false} NextGrows(f: Filter, scope: Scope, document: JsonExpr, next: nat)
    requires WellScoped(f, scope)
    ensures Compile(f, scope, document, next).next >= next
    decreases f, 1
  {
    match f {
      case Condition(_, _, _) =>
      case And(children) => NextGrowsAll(children, scope, document, next);
      case Or(children) => NextGrowsAll(children, scope, document, next);
      case Not(child) => NextGrows(child, scope, document, next);
      case Exists(path, where) => NextGrows(where, scope.collections[path].scope, Row(next), next + 1);
    }
  }

  lemma {:induction false} NextGrowsAll(fs: seq<Filter>, scope: Scope, document: JsonExpr, next: nat)
    requires forall i :: 0 <= i < |fs| ==> WellScoped(fs[i], scope)
    ensures CompileAll(fs, scope, document, next).next >= next
    decreases fs, 0
  {
    if fs != [] {
      NextGrowsAll(fs[..|fs| - 1], scope, document, next);
      NextGrows(fs[|fs| - 1], scope, document, CompileAll(fs[..|fs| - 1], scope, document, next).next);
    }
  }

  lemma AliasesBelowLater(e: JsonExpr, next: nat, later: nat)
    requires AliasesBelow(e, next) && next <= later
    ensures AliasesBelow(e, later)
  {}

  /** compileFilterInScope: on every document that follows the structure the generated
      condition is never unknown and never raises an error, and it is true exactly when
      the filter holds of the document, through any nesting of `not` and `exists`. */
  lemma {:induction false} CompilePreservesMeaning(f: Filter, shape: Shape, document: JsonExpr, next: nat,
                                                   base: SqlJson, rows: map<nat, Json>, doc: Json)
    requires DistinctNames(shape) && Clear(shape) && WellScoped(f, ScopeOf(shape)) && Conforms(doc, shape)
    requires EvalJson(document, base, rows) == SqlValue(doc) && AliasesBelow(document, next)
    ensures Eval(Compile(f, ScopeOf(shape), document, next).sql, base, rows) == FromBool(Meaning(f, shape, doc))
    decreases f, 1
  {
    var scope := ScopeOf(shape);
    match f {
      case Condition(field, op, values) =>
        TableEntries(shape, field);
        var own := scope.comparable[field].segments;
        ExtractConforming(doc, shape, own);
        ConditionMeaning(op, values, ExtractPath(document, own), Lookup(doc, own), base, rows);
      case And(children) =>
        forall i | 0 <= i < |children|
          ensures Eval(CompileAll(children, scope, document, next).sqls[i], base, rows)
               == FromBool(Meaning(children[i], shape, doc))
        {
          CompileAllPreservesMeaning(children, i, shape, document, next, base, rows, doc);
        }
        AndMeaning(CompileAll(children, scope, document, next).sqls, children, shape, base, rows, doc);
      case Or(children) =>
        forall i | 0 <= i < |children|
          ensures Eval(CompileAll(children, scope, document, next).sqls[i], base, rows)
               == FromBool(Meaning(children[i], shape, doc))
        {
          CompileAllPreservesMeaning(children, i, shape, document, next, base, rows, doc);
        }
        OrMeaning(CompileAll(children, scope, document, next).sqls, children, shape, base, rows, doc);
      case Not(child) =>
        CompilePreservesMeaning(child, shape, document, next, base, rows, doc);
      case Exists(path, where) =>
        ExistsPreservesMeaning(path, where, shape, document, next, base, rows, doc);
    }
  }

  /** Only one collection has the path, so a scan speaks of its elements. */
  lemma ExistsReadsOwn(path: string, where: Filter, shape: Shape, own: seq<string>, doc: Json)
    requires Unambiguous(shape) && CollectionAt(shape, own) && Join(own) == path
    ensures
      var items := ItemsOf(Lookup(doc, own));
      Meaning(Exists(path, where), shape, doc) <==>
      exists i :: 0 <= i < |items| && Meaning(where, ItemShape(shape, own), items[i])
  {}

  lemma {:induction false} ExistsPreservesMeaning(path: string, where: Filter, shape: Shape, document: JsonExpr,
                                                  next: nat, base: SqlJson, rows: map<nat, Json>, doc: Json)
    requires DistinctNames(shape) && Clear(shape) && WellScoped(Exists(path, where), ScopeOf(shape)) && Conforms(doc, shape)
    requires EvalJson(document, base, rows) == SqlValue(doc) && AliasesBelow(document, next)
    ensures Eval(Compile(Exists(path, where), ScopeOf(shape), document, next).sql, base, rows)
         == FromBool(Meaning(Exists(path, where), shape, doc))
    decreases where, 2
  {
    TableEntries(shape, path);
    var own := ScopeOf(shape).collections[path].segments;
    ExtractConforming(doc, shape, own);
    FoundClear(shape, own);
    var items := ItemsOf(Lookup(doc, own));
    var condition := Compile(where, ScopeOf(ItemShape(shape, own)), Row(next), next + 1).sql;
    if Lookup(doc, own).Some? {
      forall i | 0 <= i < |items|
        ensures Eval(condition, base, rows[next := items[i]]) == FromBool(Meaning(where, ItemShape(shape, own), items[i]))
      {
        CompilePreservesMeaning(where, ItemShape(shape, own), Row(next), next + 1, base, rows[next := items[i]], items[i]);
      }
    }
    ScanMeaning(where, ItemShape(shape, own), condition, document, own, next, base, rows, doc);
    ExistsReadsOwn(path, where, shape, own, doc);
  }

  /** A scan under a new alias: null scans nothing, an array scans its elements. */
  lemma ScanMeaning(where: Filter, itemShape: Shape, condition: SqlBool, document: JsonExpr, segments: seq<string>,
                    alias: nat, base: SqlJson, rows: map<nat, Json>, doc: Json)
    requires EvalJson(document, base, rows) == SqlValue(doc) && AliasesBelow(document, alias)
    requires Extract(doc, segments) == Nullable(Lookup(doc, segments))
    requires Lookup(doc, segments).Some? ==>
      && Lookup(doc, segments).value.JArray?
      && var items := Lookup(doc, segments).value.items;
         forall i :: 0 <= i < |items| ==>
           Eval(condition, base, rows[alias := items[i]]) == FromBool(Meaning(where, itemShape, items[i]))
    ensures
      var items := ItemsOf(Lookup(doc, segments));
      Eval(ExistsElement(ExtractPath(document, segments), alias, condition), base, rows)
        == FromBool(exists i :: 0 <= i < |items| && Meaning(where, itemShape, items[i]))
  {
    UnusedAlias(document, base, rows, alias);
  }

  lemma AndMeaning(sqls: seq<SqlBool>, fs: seq<Filter>, shape: Shape, base: SqlJson, rows: map<nat, Json>, doc: Json)
    requires |sqls| == |fs|
    requires forall i :: 0 <= i < |fs| ==> Eval(sqls[i], base, rows) == FromBool(Meaning(fs[i], shape, doc))
    ensures Eval(Conjunction(sqls), base, rows) == FromBool(Meaning(And(fs), shape, doc))
  {
    AndOfBools(sqls, base, rows, Meanings(fs, shape, doc));
  }

  lemma OrMeaning(sqls: seq<SqlBool>, fs: seq<Filter>, shape: Shape, base: SqlJson, rows: map<nat, Json>, doc: Json)
    requires |sqls| == |fs|
    requires forall i :: 0 <= i < |fs| ==> Eval(sqls[i], base, rows) == FromBool(Meaning(fs[i], shape, doc))
    ensures Eval(Disjunction(sqls), base, rows) == FromBool(Meaning(Or(fs), shape, doc))
  {
    OrOfBools(sqls, base, rows, Meanings(fs, shape, doc));
  }

  ghost function Meanings(fs: seq<Filter>, shape: Shape, doc: Json): (bits: seq<bool>)
    ensures |bits| == |fs|
    ensures forall i :: 0 <= i < |fs| ==> bits[i] == Meaning(fs[i], shape, doc)
  {
    seq(|fs|, i requires 0 <= i < |fs| => Meaning(fs[i], shape, doc))
  }

  /** The SQL of one operand in the SQL of a list. */
  lemma {:induction false} CompileAllPreservesMeaning(fs: seq<Filter>, i: nat, shape: Shape, document: JsonExpr, next: nat,
                                                      base: SqlJson, rows: map<nat, Json>, doc: Json)
    requires DistinctNames(shape) && Clear(shape) && Conforms(doc, shape) && i < |fs|
    requires forall k :: 0 <= k < |fs| ==> WellScoped(fs[k], ScopeOf(shape))
    requires EvalJson(document, base, rows) == SqlValue(doc) && AliasesBelow(document, next)
    ensures
      Eval(CompileAll(fs, ScopeOf(shape), document, next).sqls[i], base, rows) == FromBool(Meaning(fs[i], shape, doc))
    decreases fs, 0
  {
    var front := fs[..|fs| - 1];
    if i < |front| {
      CompileAllPreservesMeaning(front, i, shape, document, next, base, rows, doc);
    } else {
      var middle := CompileAll(front, ScopeOf(shape), document, next).next;
      NextGrowsAll(front, ScopeOf(shape), document, next);
      AliasesBelowLater(document, next, middle);
      CompilePreservesMeaning(fs[i], shape, document, middle, base, rows, doc);
    }
  }

  // ---- Aliases ----

  /** The aliases a condition introduces, outermost first, left to right. */
  function BoundAliases(s: SqlBool): seq<nat>
    decreases s, 1
  {
    match s
    case Conjunction(operands) => BoundAliasesAll(operands)
    case Disjunction(operands) => BoundAliasesAll(operands)
    case Negation(operand) => BoundAliases(operand)
    case CoalesceFalse(operand) => BoundAliases(operand)
    case JsonEquals(_, _) => []
    case JsonContains(_, _) => []
    case ExistsElement(_, alias, where) => [alias] + BoundAliases(where)
  }

  function BoundAliasesAll(ss: seq<SqlBool>): seq<nat>
    decreases ss, 0
  {
    if ss == [] then [] else BoundAliasesAll(ss[..|ss| - 1]) + BoundAliases(ss[|ss| - 1])
  }

  function Range(low: nat, high: nat): (r: seq<nat>)
    requires low <= high
  {
    seq(high - low, i requires 0 <= i => low + i)
  }

  lemma {:induction false} NoAliases(ss: seq<SqlBool>)
    requires forall i :: 0 <= i < |ss| ==> BoundAliases(ss[i]) == []
    ensures BoundAliasesAll(ss) == []
  {
    if ss != [] { NoAliases(ss[..|ss| - 1]); }
  }

  lemma AppendAliases(front: seq<SqlBool>, last: SqlBool)
    ensures BoundAliasesAll(front + [last]) == BoundAliasesAll(front) + BoundAliases(last)
  {
    assert (front + [last])[..|front|] == front;
  }

  lemma SplitRange(low: nat, middle: nat, high: nat)
    requires low <= middle <= high
    ensures Range(low, high) == Range(low, middle) + Range(middle, high)
  {}

  lemma ConditionBindsNothing(op: Operator, values: seq<Json>, fieldValue: JsonExpr)
    ensures BoundAliases(CompileCondition(op, values, fieldValue)) == []
  {
    var sql := CompileCondition(op, values, fieldValue);
    if sql.Disjunction? { NoAliases(sql.operands); }
  }

  /** Every scan of one compiled filter gets an alias of its own: they are the counter
      values used up, each exactly once, in order. */
  lemma {:induction false} AliasesAreConsecutive(f: Filter, scope: Scope, document: JsonExpr, next: nat)
    requires WellScoped(f, scope)
    ensures Compile(f, scope, document, next).next >= next
    ensures BoundAliases(Compile(f, scope, document, next).sql) == Range(next, Compile(f, scope, document, next).next)
    decreases f, 1
  {
    NextGrows(f, scope, document, next);
    match f {
      case Condition(field, op, values) =>
        ConditionBindsNothing(op, values, ExtractPath(document, scope.comparable[field].segments));
      case And(children) => AliasesAreConsecutiveAll(children, scope, document, next);
      case Or(children) => AliasesAreConsecutiveAll(children, scope, document, next);
      case Not(child) => AliasesAreConsecutive(child, scope, document, next);
      case Exists(path, where) =>
        AliasesAreConsecutive(where, scope.collections[path].scope, Row(next), next + 1);
        SplitRange(next, next + 1, Compile(f, scope, document, next).next);
        assert Range(next, next + 1) == [next];
    }
  }

  lemma {:induction false} AliasesAreConsecutiveAll(fs: seq<Filter>, scope: Scope, document: JsonExpr, next: nat)
    requires forall i :: 0 <= i < |fs| ==> WellScoped(fs[i], scope)
    ensures CompileAll(fs, scope, document, next).next >= next
    ensures BoundAliasesAll(CompileAll(fs, scope, document, next).sqls)
         == Range(next, CompileAll(fs, scope, document, next).next)
    decreases fs, 0
  {
    NextGrowsAll(fs, scope, document, next);
    if fs == [] {
      assert Range(next, next) == [];
    } else {
      var front := CompileAll(fs[..|fs| - 1], scope, document, next);
      var last := Compile(fs[|fs| - 1], scope, document, front.next);
      AliasesAreConsecutiveAll(fs[..|fs| - 1], scope, document, next);
      AliasesAreConsecutive(fs[|fs| - 1], scope, document, front.next);
      AppendAliases(front.sqls, last.sql);
      SplitRange(next, front.next, last.next);
    }
  }

  // ---- Parsing preserves meaning ----

  lemma NormalizedFits(input: Json, schema: ScalarSchema)
    requires NormalizedMembership(input, schema).Some?
    ensures
      var values := NormalizedMembership(input, schema).value;
      && values != []
      && (forall v :: v in values <==> v in input.items)
      && forall i :: 0 <= i < |values| ==> Primitive(values[i])
  {
    DistinctElements(input.items);
    assert input.items[0] in Distinct(input.items);
    forall i | 0 <= i < |Distinct(input.items)| ensures Primitive(Distinct(input.items)[i]) {
      assert Distinct(input.items)[i] in input.items;
    }
  }

  lemma ParsedConditionFits(field: string, op: string, value: Json, scope: Scope)
    requires ParseCondition(field, op, value, scope).Some?
    ensures WellScoped(ParseCondition(field, op, value, scope).value, scope)
  {
    var fact := scope.comparable[field].fact;
    var schema := if fact.Scalar? then fact.schema else fact.itemSchema;
    if NormalizedMembership(value, schema).Some? { NormalizedFits(value, schema); }
  }

  lemma ParsedConditionMeaning(field: string, op: string, value: Json, shape: Shape, doc: Json)
    requires ParseCondition(field, op, value, ScopeOf(shape)).Some?
    ensures
      Meaning(ParseCondition(field, op, value, ScopeOf(shape)).value, shape, doc) ==
      RawMeaning(RawCondition(field, op, value), shape, doc)
  {
    var parsed := ParseCondition(field, op, value, ScopeOf(shape)).value;
    var fact := ScopeOf(shape).comparable[field].fact;
    var schema := if fact.Scalar? then fact.schema else fact.itemSchema;
    if NormalizedMembership(value, schema).Some? { NormalizedFits(value, schema); }
    forall p | FieldAt(shape, p) && Join(p) == field
      ensures Holds(parsed.op, parsed.values, Lookup(doc, p)) == RawHolds(op, value, Lookup(doc, p))
    {}
  }

  lemma {:induction false} ParsedIsWellScoped(raw: RawFilter, shape: Shape)
    requires DistinctNames(shape) && Clear(shape) && Parse(raw, ScopeOf(shape)).Some?
    ensures WellScoped(Parse(raw, ScopeOf(shape)).value, ScopeOf(shape))
    decreases raw, 1
  {
    var scope := ScopeOf(shape);
    match raw {
      case RawCondition(field, op, value) => ParsedConditionFits(field, op, value, scope);
      case RawAnd(children) => ParsedAllWellScoped(children, shape);
      case RawOr(children) => ParsedAllWellScoped(children, shape);
      case RawNot(child) => ParsedIsWellScoped(child, shape);
      case RawExists(path, where) =>
        TableEntries(shape, path);
        var own := scope.collections[path].segments;
        FoundClear(shape, own);
        ParsedIsWellScoped(where, ItemShape(shape, own));
    }
  }

  lemma {:induction false} ParsedAllWellScoped(raws: seq<RawFilter>, shape: Shape)
    requires DistinctNames(shape) && Clear(shape) && ParseAll(raws, ScopeOf(shape)).Some?
    ensures forall i :: 0 <= i < |raws| ==>
      Parse(raws[i], ScopeOf(shape)) == Some(ParseAll(raws, ScopeOf(shape)).value[i])
    ensures forall i :: 0 <= i < |raws| ==> WellScoped(ParseAll(raws, ScopeOf(shape)).value[i], ScopeOf(shape))
    decreases raws, 0
  {
    if raws != [] {
      ParsedAllWellScoped(raws[..|raws| - 1], shape);
      ParsedIsWellScoped(raws[|raws| - 1], shape);
    }
  }

  lemma {:induction false} ParsePreservesMeaning(raw: RawFilter, shape: Shape, doc: Json)
    requires DistinctNames(shape) && Clear(shape) && Parse(raw, ScopeOf(shape)).Some?
    ensures Meaning(Parse(raw, ScopeOf(shape)).value, shape, doc) == RawMeaning(raw, shape, doc)
    decreases raw, 1
  {
    match raw {
      case RawCondition(field, op, value) => ParsedConditionMeaning(field, op, value, shape, doc);
      case RawAnd(children) => ParseAllPreservesMeaning(children, shape, doc);
      case RawOr(children) => ParseAllPreservesMeaning(children, shape, doc);
      case RawNot(child) => ParsePreservesMeaning(child, shape, doc);
      case RawExists(path, where) => ParsePreservesScan(path, where, shape, doc);
    }
  }

  lemma {:induction false} ParseAllPreservesMeaning(raws: seq<RawFilter>, shape: Shape, doc: Json)
    requires DistinctNames(shape) && Clear(shape) && ParseAll(raws, ScopeOf(shape)).Some?
    ensures forall i :: 0 <= i < |raws| ==>
      Meaning(ParseAll(raws, ScopeOf(shape)).value[i], shape, doc) == RawMeaning(raws[i], shape, doc)
    decreases raws, 0
  {
    if raws != [] {
      var front := raws[..|raws| - 1];
      ParseAllPreservesMeaning(front, shape, doc);
      ParsePreservesMeaning(raws[|raws| - 1], shape, doc);
      forall i | 0 <= i < |raws|
        ensures Meaning(ParseAll(raws, ScopeOf(shape)).value[i], shape, doc) == RawMeaning(raws[i], shape, doc)
      {
        if i < |front| { assert front[i] == raws[i]; }
      }
    }
  }

  lemma {:induction false} ParsePreservesScan(path: string, where: RawFilter, shape: Shape, doc: Json)
    requires DistinctNames(shape) && Clear(shape) && Parse(RawExists(path, where), ScopeOf(shape)).Some?
    ensures
      Meaning(Parse(RawExists(path, where), ScopeOf(shape)).value, shape, doc) ==
      RawMeaning(RawExists(path, where), shape, doc)
    decreases where, 2
  {
    TableEntries(shape, path);
    var own := ScopeOf(shape).collections[path].segments;
    FoundClear(shape, own);
    var items := ItemsOf(Lookup(doc, own));
    var parsed := Parse(where, ScopeOf(ItemShape(shape, own))).value;
    forall i | 0 <= i < |items|
      ensures Meaning(parsed, ItemShape(shape, own), items[i]) == RawMeaning(where, ItemShape(shape, own), items[i])
    {
      ParsePreservesMeaning(where, ItemShape(shape, own), items[i]);
    }
  }

  /** The engine as a whole: an accepted expression selects exactly the conforming
      documents it describes, with its value lists as the caller wrote them. */
  lemma AcceptedFilterSelectsItsMeaning(raw: RawFilter, shape: Shape, doc: Json)
    requires DistinctNames(shape) && Clear(shape) && Conforms(doc, shape) && Parse(raw, ScopeOf(shape)).Some?
    ensures WellScoped(Parse(raw, ScopeOf(shape)).value, ScopeOf(shape))
    ensures
      var sql := Compile(Parse(raw, ScopeOf(shape)).value, ScopeOf(shape), Base, 1).sql;
      Eval(sql, SqlValue(doc), map[]) == FromBool(RawMeaning(raw, shape, doc))
  {
    ParsedIsWellScoped(raw, shape);
    ParsePreservesMeaning(raw, shape, doc);
    CompilePreservesMeaning(Parse(raw, ScopeOf(shape)).value, shape, Base, 1, SqlValue(doc), map[], doc);
  }
}
