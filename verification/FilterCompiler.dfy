// Parsing of untrusted filters and their compilation to SQL conditions over a JSON
// document (packages/filter-engine/src/filter-engine.ts).
module FilterCompiler {
  import opened Json
  import opened FilterStructure

  const FILTER_MAX_IN_VALUES := 50
  const FILTER_MAX_CHILDREN := 16

  // ---- Filters, before and after parsing ----

  /** A syntactically strict expression whose paths, operators and values are unchecked. */
  datatype RawFilter =
    | RawCondition(field: string, op: string, value: Json)
    | RawAnd(children: seq<RawFilter>)
    | RawOr(children: seq<RawFilter>)
    | RawNot(child: RawFilter)
    | RawExists(path: string, where: RawFilter)

  datatype Operator = Eq | In | ContainsAny | ContainsAll

  /** A parsed filter. `Eq` carries its one value as a list of one. */
  datatype Filter =
    | Condition(field: string, op: Operator, values: seq<Json>)
    | And(children: seq<Filter>)
    | Or(children: seq<Filter>)
    | Not(child: Filter)
    | Exists(path: string, where: Filter)

  predicate FitsFact(op: Operator, values: seq<Json>, fact: Fact) {
    && values != []
    && (forall i :: 0 <= i < |values| ==> Primitive(values[i]))
    && (op == Eq ==> |values| == 1)
    && (if op == Eq || op == In then fact.Scalar? else fact.ScalarArray?)
  }

  /** What parsing against a scope guarantees, and what compilation relies on. */
  predicate WellScoped(f: Filter, scope: Scope)
    decreases f
  {
    match f
    case Condition(field, op, values) =>
      field in scope.comparable && FitsFact(op, values, scope.comparable[field].fact)
    case And(children) => children != [] && forall i :: 0 <= i < |children| ==> WellScoped(children[i], scope)
    case Or(children) => children != [] && forall i :: 0 <= i < |children| ==> WellScoped(children[i], scope)
    case Not(child) => WellScoped(child, scope)
    case Exists(path, where) => path in scope.collections && WellScoped(where, scope.collections[path].scope)
  }

  // ---- Membership lists ----

  /** The values in order of first occurrence. */
  function Distinct(values: seq<Json>): seq<Json> {
    if values == [] then [] else
      var init := Distinct(values[..|values| - 1]);
      var last := values[|values| - 1];
      if last in values[..|values| - 1] then init else init + [last]
  }

  lemma {:induction false} DistinctElements(values: seq<Json>)
    ensures forall v :: v in Distinct(values) <==> v in values
  {
    if values != [] {
      var init := values[..|values| - 1];
      DistinctElements(init);
      assert values == init + [values[|values| - 1]];
    }
  }

  lemma {:induction false} DistinctGrows(values: seq<Json>, n: nat)
    requires n <= |values|
    ensures |Distinct(values[..n])| <= |Distinct(values)|
    decreases |values| - n
  {
    if n < |values| {
      assert values[..n + 1][..n] == values[..n];
      DistinctGrows(values, n + 1);
    } else {
      assert values[..n] == values;
    }
  }

  predicate AllAccepted(schema: ScalarSchema, values: seq<Json>) {
    forall i :: 0 <= i < |values| ==> Accepts(schema, values[i])
  }

  ghost function Elements(values: seq<Json>): set<Json> { set v | v in values }

  /** What the first `i` items have left in the result and in the set of seen values. */
  ghost predicate Normalizing(items: seq<Json>, i: nat, result: seq<Json>, distinct: set<Json>)
    requires i <= |items|
  {
    && result == Distinct(items[..i])
    && distinct == Elements(items[..i])
    && |distinct| == |result|
  }

  lemma NormalizingStep(items: seq<Json>, i: nat, result: seq<Json>, distinct: set<Json>)
    requires i < |items| && Normalizing(items, i, result, distinct)
    ensures items[i] in distinct ==> Normalizing(items, i + 1, result, distinct)
    ensures items[i] !in distinct ==> Normalizing(items, i + 1, result + [items[i]], distinct + {items[i]})
  {
    assert items[..i + 1] == items[..i] + [items[i]];
    assert items[..i + 1][..i] == items[..i];
    assert Elements(items[..i + 1]) == distinct + {items[i]};
  }

  /** normalizeMembershipValues: a non-empty list of acceptable values with at most
      FILTER_MAX_IN_VALUES different ones becomes its distinct values in order of first
      occurrence; every other input is refused. */
  method NormalizeMembershipValues(input: Json, schema: ScalarSchema) returns (normalized: Option<seq<Json>>)
    ensures normalized == NormalizedMembership(input, schema)
  {
    if !input.JArray? || |input.items| == 0 { return None; }
    normalized := DistinctAccepted(input.items, schema);
  }

  method DistinctAccepted(items: seq<Json>, schema: ScalarSchema) returns (normalized: Option<seq<Json>>)
    ensures normalized.Some? <==> AllAccepted(schema, items) && |Distinct(items)| <= FILTER_MAX_IN_VALUES
    ensures normalized.Some? ==> normalized.value == Distinct(items)
  {
    var result: seq<Json> := [];
    var distinct: set<Json> := {};
    for i := 0 to |items|
      invariant Normalizing(items, i, result, distinct)
      invariant |distinct| <= FILTER_MAX_IN_VALUES
      invariant AllAccepted(schema, items[..i])
    {
      var value := items[i];
      if !Accepts(schema, value) { return None; }
      NormalizingStep(items, i, result, distinct);
      if value !in distinct {
        distinct := distinct + {value};
        result := result + [value];
        if |distinct| > FILTER_MAX_IN_VALUES {
          DistinctGrows(items, i + 1);
          return None;
        }
      }
    }
    assert items[..|items|] == items;
    normalized := Some(result);
  }

  function NormalizedMembership(input: Json, schema: ScalarSchema): Option<seq<Json>> {
    if input.JArray? && input.items != []
       && AllAccepted(schema, input.items)
       && |Distinct(input.items)| <= FILTER_MAX_IN_VALUES
    then Some(Distinct(input.items))
    else None
  }

  // ---- Parsing ----

  function Membership(field: string, op: Operator, values: Option<seq<Json>>): Option<Filter> {
    if values.Some? then Some(Condition(field, op, values.value)) else None
  }

  function ParseCondition(field: string, op: string, value: Json, scope: Scope): Option<Filter> {
    if field !in scope.comparable then None else
      match scope.comparable[field].fact
      case Scalar(schema) =>
        if op == "eq" then
          if Accepts(schema, value) then Some(Condition(field, Eq, [value])) else None
        else if op == "in" then Membership(field, In, NormalizedMembership(value, schema))
        else None
      case ScalarArray(schema) =>
        if op == "containsAny" then Membership(field, ContainsAny, NormalizedMembership(value, schema))
        else if op == "containsAll" then Membership(field, ContainsAll, NormalizedMembership(value, schema))
        else None
      case _ => None
  }

  function Parse(raw: RawFilter, scope: Scope): Option<Filter>
    decreases raw, 1
  {
    match raw
    case RawCondition(field, op, value) => ParseCondition(field, op, value, scope)
    case RawAnd(children) =>
      if 1 <= |children| <= FILTER_MAX_CHILDREN then
        match ParseAll(children, scope) case None => None case Some(parsed) => Some(And(parsed))
      else None
    case RawOr(children) =>
      if 1 <= |children| <= FILTER_MAX_CHILDREN then
        match ParseAll(children, scope) case None => None case Some(parsed) => Some(Or(parsed))
      else None
    case RawNot(child) => (match Parse(child, scope) case None => None case Some(parsed) => Some(Not(parsed)))
    case RawExists(path, where) =>
      if path !in scope.collections then None else
        match Parse(where, scope.collections[path].scope)
        case None => None
        case Some(parsed) => Some(Exists(path, parsed))
  }

  function ParseAll(raws: seq<RawFilter>, scope: Scope): (r: Option<seq<Filter>>)
    ensures r.Some? ==> |r.value| == |raws|
    decreases raws, 0
  {
    if raws == [] then Some([]) else
      match (ParseAll(raws[..|raws| - 1], scope), Parse(raws[|raws| - 1], scope))
      case (Some(front), Some(last)) => Some(front + [last])
      case _ => None
  }

  // ---- Generated SQL ----

  /** An expression of type jsonb: the searched document, the row of an element scan, or
      a path below one of them. Aliases are the numbers of `filter_scope_<n>`. */
  datatype JsonExpr =
    | Base
    | Row(alias: nat)
    | ExtractPath(document: JsonExpr, segments: seq<string>)

  datatype SqlBool =
    | Conjunction(operands: seq<SqlBool>)
    | Disjunction(operands: seq<SqlBool>)
    | Negation(operand: SqlBool)
    | CoalesceFalse(operand: SqlBool)
    | JsonEquals(expr: JsonExpr, literal: Json)
    | JsonContains(expr: JsonExpr, literals: seq<Json>)
    | ExistsElement(collection: JsonExpr, alias: nat, where: SqlBool)

  datatype Compiled = Compiled(sql: SqlBool, next: nat)
  datatype CompiledList = CompiledList(sqls: seq<SqlBool>, next: nat)

  function Mapped(values: seq<Json>, f: Json -> SqlBool): (r: seq<SqlBool>)
    ensures |r| == |values|
    ensures forall i :: 0 <= i < |values| ==> r[i] == f(values[i])
  {
    seq(|values|, i requires 0 <= i < |values| => f(values[i]))
  }

  function CompileCondition(op: Operator, values: seq<Json>, fieldValue: JsonExpr): SqlBool {
    match op
    case ContainsAll => CoalesceFalse(JsonContains(fieldValue, values))
    case ContainsAny => Disjunction(Mapped(values, v => CoalesceFalse(JsonContains(fieldValue, [v]))))
    case _ => Disjunction(Mapped(values, v => CoalesceFalse(JsonEquals(fieldValue, v))))
  }

  /** The SQL of a filter and the alias counter after it. */
  function Compile(f: Filter, scope: Scope, document: JsonExpr, next: nat): Compiled
    requires WellScoped(f, scope)
    decreases f, 1
  {
    match f
    case Condition(field, op, values) =>
      Compiled(CompileCondition(op, values, ExtractPath(document, scope.comparable[field].segments)), next)
    case And(children) =>
      var c := CompileAll(children, scope, document, next); Compiled(Conjunction(c.sqls), c.next)
    case Or(children) =>
      var c := CompileAll(children, scope, document, next); Compiled(Disjunction(c.sqls), c.next)
    case Not(child) =>
      var c := Compile(child, scope, document, next); Compiled(Negation(c.sql), c.next)
    case Exists(path, where) =>
      var collection := scope.collections[path];
      var c := Compile(where, collection.scope, Row(next), next + 1);
      Compiled(ExistsElement(ExtractPath(document, collection.segments), next, c.sql), c.next)
  }

  function CompileAll(fs: seq<Filter>, scope: Scope, document: JsonExpr, next: nat): (c: CompiledList)
    requires forall i :: 0 <= i < |fs| ==> WellScoped(fs[i], scope)
    ensures |c.sqls| == |fs|
    decreases fs, 0
  {
    if fs == [] then CompiledList([], next) else
      var front := CompileAll(fs[..|fs| - 1], scope, document, next);
      var last := Compile(fs[|fs| - 1], scope, document, front.next);
      CompiledList(front.sqls + [last.sql], last.next)
  }

  /** The counter object shared by one compilation. */
  class Aliases {
    var nextAlias: nat

    constructor (first: nat)
      ensures nextAlias == first
    {
      nextAlias := first;
    }
  }

  method CompileFilterInScope(f: Filter, scope: Scope, document: JsonExpr, aliases: Aliases) returns (sql: SqlBool)
    requires WellScoped(f, scope)
    modifies aliases
    ensures Compiled(sql, aliases.nextAlias) == Compile(f, scope, document, old(aliases.nextAlias))
    decreases f, 1
  {
    match f {
      case Condition(field, op, values) =>
        sql := CompileCondition(op, values, ExtractPath(document, scope.comparable[field].segments));
      case And(children) =>
        var operands := CompileChildren(children, scope, document, aliases);
        sql := Conjunction(operands);
      case Or(children) =>
        var operands := CompileChildren(children, scope, document, aliases);
        sql := Disjunction(operands);
      case Not(child) =>
        var operand := CompileFilterInScope(child, scope, document, aliases);
        sql := Negation(operand);
      case Exists(path, where) =>
        var collection := scope.collections[path];
        var alias := aliases.nextAlias;
        aliases.nextAlias := alias + 1;
        var condition := CompileFilterInScope(where, collection.scope, Row(alias), aliases);
        sql := ExistsElement(ExtractPath(document, collection.segments), alias, condition);
    }
  }

  method CompileChildren(children: seq<Filter>, scope: Scope, document: JsonExpr, aliases: Aliases)
    returns (operands: seq<SqlBool>)
    requires forall i :: 0 <= i < |children| ==> WellScoped(children[i], scope)
    modifies aliases
    ensures CompiledList(operands, aliases.nextAlias) == CompileAll(children, scope, document, old(aliases.nextAlias))
    decreases children, 0
  {
    operands := [];
    for i := 0 to |children|
      invariant CompiledList(operands, aliases.nextAlias)
             == CompileAll(children[..i], scope, document, old(aliases.nextAlias))
    {
      assert children[..i + 1][..i] == children[..i];
      var operand := CompileFilterInScope(children[i], scope, document, aliases);
      operands := operands + [operand];
    }
    assert children[..|children|] == children;
  }
}
