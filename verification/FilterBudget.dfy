// The resource budget that an untrusted filter must meet before it is parsed
// (packages/filter-engine/src/filter-engine.ts). The program walks the raw value
// with an explicit stack; the promise is a bound on the whole recursive tree.
module FilterBudget {
  import opened Json

  const FILTER_MAX_DEPTH := 8
  const FILTER_MAX_NODES := 64
  const FILTER_MAX_CHILDREN := 16
  const FILTER_MAX_RAW_VALUES := 500

  /** An unvalidated JSON value as the budget sees it. `Leaf` is anything that is not
      a record. A record may carry any mixture of operators at once. A member that is
      missing or of the wrong kind is not followed: it reads as an empty list, as
      `None`, or as zero raw values. */
  datatype Raw =
    | Leaf
    | Record(
        valueCount: nat,
        conjuncts: seq<Raw>,
        disjuncts: seq<Raw>,
        negated: Option<Raw>,
        existsWhere: Option<Raw>)

  datatype Violation = DepthExceeded | NodesExceeded | RawValuesExceeded | ChildrenExceeded

  datatype Pending = Pending(value: Raw, depth: nat)

  // ---- The recursive reading of the budget ----

  function OneOf(child: Option<Raw>): seq<Raw> {
    if child.Some? then [child.value] else []
  }

  /** Number of expressions in the whole tree. */
  function Size(r: Raw): (n: nat)
    ensures n >= 1
    decreases r, 1
  {
    match r
    case Leaf => 1
    case Record(_, conjuncts, disjuncts, negated, existsWhere) =>
      1 + ForestSize(conjuncts) + ForestSize(disjuncts)
      + (if negated.Some? then Size(negated.value) else 0)
      + (if existsWhere.Some? then Size(existsWhere.value) else 0)
  }

  function ForestSize(rs: seq<Raw>): nat
    decreases rs, 0
  {
    if rs == [] then 0 else ForestSize(rs[..|rs| - 1]) + Size(rs[|rs| - 1])
  }

  /** What a record may hold by itself. */
  predicate NodeFits(r: Raw) {
    r.Record? ==>
      && r.valueCount <= FILTER_MAX_RAW_VALUES
      && |r.conjuncts| <= FILTER_MAX_CHILDREN
      && |r.disjuncts| <= FILTER_MAX_CHILDREN
  }

  /** Every node at or below `r`, when `r` sits at `depth`, is shallow and narrow enough. */
  predicate TreeFits(r: Raw, depth: nat)
    decreases r
  {
    && depth <= FILTER_MAX_DEPTH
    && NodeFits(r)
    && (r.Record? ==>
      && (forall i :: 0 <= i < |r.conjuncts| ==> TreeFits(r.conjuncts[i], depth + 1))
      && (forall i :: 0 <= i < |r.disjuncts| ==> TreeFits(r.disjuncts[i], depth + 1))
      && (r.negated.Some? ==> TreeFits(r.negated.value, depth + 1))
      && (r.existsWhere.Some? ==> TreeFits(r.existsWhere.value, depth + 1)))
  }

  predicate WithinBudget(r: Raw) {
    TreeFits(r, 1) && Size(r) <= FILTER_MAX_NODES
  }

  // ---- The stack of the walk, read as a forest ----

  function PendingSize(stack: seq<Pending>): (n: nat)
    ensures n >= |stack|
  {
    if stack == [] then 0 else PendingSize(stack[..|stack| - 1]) + Size(stack[|stack| - 1].value)
  }

  ghost predicate PendingFits(stack: seq<Pending>) {
    forall i :: 0 <= i < |stack| ==> TreeFits(stack[i].value, stack[i].depth)
  }

  ghost predicate ForestFits(rs: seq<Raw>, depth: nat) {
    forall i :: 0 <= i < |rs| ==> TreeFits(rs[i], depth)
  }

  function AtDepth(rs: seq<Raw>, depth: nat): (ps: seq<Pending>)
    ensures |ps| == |rs|
    ensures forall i :: 0 <= i < |rs| ==> ps[i] == Pending(rs[i], depth)
  {
    seq(|rs|, i requires 0 <= i < |rs| => Pending(rs[i], depth))
  }

  lemma {:induction false} PushList(stack: seq<Pending>, rs: seq<Raw>, depth: nat)
    ensures PendingSize(stack + AtDepth(rs, depth)) == PendingSize(stack) + ForestSize(rs)
    ensures PendingFits(stack + AtDepth(rs, depth)) <==> PendingFits(stack) && ForestFits(rs, depth)
    decreases |rs|
  {
    var pushed := stack + AtDepth(rs, depth);
    if rs == [] {
      assert pushed == stack;
    } else {
      var init, last := rs[..|rs| - 1], rs[|rs| - 1];
      assert pushed == (stack + AtDepth(init, depth)) + [Pending(last, depth)];
      PushList(stack, init, depth);
      PushOne(stack + AtDepth(init, depth), Pending(last, depth));
      assert rs == init + [last];
    }
  }

  lemma PushOne(stack: seq<Pending>, p: Pending)
    ensures PendingSize(stack + [p]) == PendingSize(stack) + Size(p.value)
    ensures PendingFits(stack + [p]) <==> PendingFits(stack) && TreeFits(p.value, p.depth)
  {
    var pushed := stack + [p];
    assert pushed[..|pushed| - 1] == stack;
    assert pushed[|stack|] == p;
    assert forall i :: 0 <= i < |stack| ==> pushed[i] == stack[i];
  }

  lemma OneOfForest(child: Option<Raw>, depth: nat)
    ensures ForestSize(OneOf(child)) == if child.Some? then Size(child.value) else 0
    ensures ForestFits(OneOf(child), depth) <==> (child.Some? ==> TreeFits(child.value, depth))
  {
    if child.Some? { assert OneOf(child)[0] == child.value; }
  }

  /** The stack after a record has been popped off `rest` and all its nested
      expressions have been pushed. */
  function Expanded(rest: seq<Pending>, record: Raw, depth: nat): seq<Pending>
    requires record.Record?
  {
    rest
    + AtDepth(record.conjuncts, depth + 1)
    + AtDepth(record.disjuncts, depth + 1)
    + AtDepth(OneOf(record.negated), depth + 1)
    + AtDepth(OneOf(record.existsWhere), depth + 1)
  }

  /** Replacing a record by its children moves exactly one unit of size off the stack
      and keeps the fitness of the forest. */
  lemma ExpandRecord(rest: seq<Pending>, record: Raw, depth: nat)
    requires record.Record? && depth <= FILTER_MAX_DEPTH && NodeFits(record)
    ensures
      var next := Expanded(rest, record, depth);
      && PendingSize(rest) + Size(record) == PendingSize(next) + 1
      && (PendingFits(next) <==> PendingFits(rest) && TreeFits(record, depth))
  {
    var s1 := rest + AtDepth(record.conjuncts, depth + 1);
    var s2 := s1 + AtDepth(record.disjuncts, depth + 1);
    var s3 := s2 + AtDepth(OneOf(record.negated), depth + 1);
    PushList(rest, record.conjuncts, depth + 1);
    PushList(s1, record.disjuncts, depth + 1);
    PushList(s2, OneOf(record.negated), depth + 1);
    OneOfForest(record.negated, depth + 1);
    PushList(s3, OneOf(record.existsWhere), depth + 1);
    OneOfForest(record.existsWhere, depth + 1);
  }

  /** findFilterBudgetViolation: reports nothing exactly when the whole tree is within
      budget, whatever the stack order, and pops at most one node more than the node
      limit on any input. */
  method FindFilterBudgetViolation(input: Raw) returns (violation: Option<Violation>, popped: nat)
    ensures violation.None? <==> WithinBudget(input)
    ensures popped <= FILTER_MAX_NODES + 1
    ensures violation == Some(NodesExceeded) ==> Size(input) > FILTER_MAX_NODES
    ensures violation.Some? && violation.value != NodesExceeded ==> !TreeFits(input, 1)
  {
    var pending: seq<Pending> := [Pending(input, 1)];
    violation, popped := None, 0;
    PushOne([], Pending(input, 1));
    assert [] + [Pending(input, 1)] == pending;
    while |pending| > 0
      invariant popped <= FILTER_MAX_NODES
      invariant violation.None?
      invariant popped + PendingSize(pending) == Size(input)
      invariant PendingFits(pending) <==> TreeFits(input, 1)
      decreases FILTER_MAX_NODES - popped
    {
      var current := pending[|pending| - 1];
      var rest := pending[..|pending| - 1];
      assert pending == rest + [current];
      PushOne(rest, current);
      popped := popped + 1;
      if current.depth > FILTER_MAX_DEPTH { return Some(DepthExceeded), popped; }
      if popped > FILTER_MAX_NODES { return Some(NodesExceeded), popped; }
      pending := rest;
      if current.value.Leaf? { continue; }
      var record := current.value;
      if record.valueCount > FILTER_MAX_RAW_VALUES { return Some(RawValuesExceeded), popped; }
      if |record.conjuncts| > FILTER_MAX_CHILDREN { return Some(ChildrenExceeded), popped; }
      pending := pending + AtDepth(record.conjuncts, current.depth + 1);
      if |record.disjuncts| > FILTER_MAX_CHILDREN { return Some(ChildrenExceeded), popped; }
      pending := pending + AtDepth(record.disjuncts, current.depth + 1);
      pending := pending + AtDepth(OneOf(record.negated), current.depth + 1);
      pending := pending + AtDepth(OneOf(record.existsWhere), current.depth + 1);
      assert pending == Expanded(rest, record, current.depth);
      ExpandRecord(rest, record, current.depth);
    }
  }
}
