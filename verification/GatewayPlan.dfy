// Reconciling one scope's manifest with the gateway (apps/gateway/src/planner.ts,
// normalize.ts, ownership-policy.ts, resources.ts, manifest.ts): what is planned, that
// applying the plan leaves nothing to plan, and that scopes leave each other alone.
module GatewayPlan {
  import opened Json
  import opened CanonicalJson

  datatype Kind = Upstreams | PluginMetadata | PluginConfigs | Services | Consumers | Ssls | Routes

  const RESOURCE_KINDS := [Upstreams, PluginMetadata, PluginConfigs, Services, Consumers, Ssls, Routes]

  const MANAGED_BY := "shgas-iam"
  const REPO_SOURCE := "repo-manifest"
  const DYNAMIC_SOURCE := "dynamic-registry"

  datatype Scope = Scope(env: string, app: string)

  type Resource = seq<Entry>

  // ---- Comparing ----

  predicate IgnoredField(key: string) { key in ["create_time", "update_time", "modifiedIndex"] }

  function DefaultValue(kind: Kind, key: string): Option<Value> {
    match kind
    case Upstreams => if key == "hash_on" then Some(Text("vars")) else None
    case Routes => if key == "priority" then Some(Number("0")) else if key == "status" then Some(Number("1")) else None
    case _ => None
  }

  predicate Skipped(kind: Kind, e: Entry) { IgnoredField(e.key) || DefaultValue(kind, e.key) == Some(e.value) }

  function Normalized(kind: Kind, r: Resource): Resource {
    if r == [] then [] else
      Normalized(kind, r[..|r| - 1]) + if Skipped(kind, r[|r| - 1]) then [] else [r[|r| - 1]]
  }

  method NormalizeForCompare(kind: Kind, r: Resource) returns (normalized: Resource)
    ensures normalized == Normalized(kind, r)
  {
    normalized := [];
    for i := 0 to |r|
      invariant normalized == Normalized(kind, r[..i])
    {
      assert r[..i + 1][..i] == r[..i];
      if !Skipped(kind, r[i]) { normalized := normalized + [r[i]]; }
    }
    assert r[..|r|] == r;
  }

  ghost predicate ProperResource(r: Resource) { Proper(Record(r)) }

  /** The comparison of the planner: equal canonical texts. */
  predicate Same(kind: Kind, a: Resource, b: Resource) {
    SortKeys(Record(Normalized(kind, a))) == SortKeys(Record(Normalized(kind, b)))
  }

  /** What a field contributes to the comparison. */
  function Relevant(kind: Kind, r: Resource, key: string): Option<Meaning> {
    match Find(r, key)
    case None => None
    case Some(v) => if Skipped(kind, Entry(key, v)) then None else Some(Means(v))
  }

  lemma {:induction false} NormalizedListed(kind: Kind, r: Resource, e: Entry)
    ensures e in Normalized(kind, r) <==> e in r && !Skipped(kind, e)
  {
    if r != [] {
      NormalizedListed(kind, r[..|r| - 1], e);
      assert r == r[..|r| - 1] + [r[|r| - 1]];
    }
  }

  lemma {:induction false} NormalizedProper(kind: Kind, r: Resource)
    requires ProperResource(r)
    ensures ProperResource(Normalized(kind, r))
  {
    if r != [] {
      var init, last := r[..|r| - 1], r[|r| - 1];
      NormalizedProper(kind, init);
      forall i | 0 <= i < |Normalized(kind, init)| ensures Normalized(kind, init)[i].key != last.key {
        NormalizedListed(kind, init, Normalized(kind, init)[i]);
      }
    }
  }

  lemma {:induction false} NormalizedFind(kind: Kind, r: Resource, key: string)
    requires DistinctKeys(r)
    ensures Find(Normalized(kind, r), key) ==
      match Find(r, key) case None => None case Some(v) => if Skipped(kind, Entry(key, v)) then None else Some(v)
  {
    if r != [] {
      var init, last := r[..|r| - 1], r[|r| - 1];
      NormalizedFind(kind, init, key);
      if last.key == key { FindAbsent(init, key); }
      var n := Normalized(kind, r);
      if Skipped(kind, last) {
        assert n == Normalized(kind, init) && last == Entry(last.key, last.value);
      } else {
        assert n[..|n| - 1] == Normalized(kind, init);
      }
    }
  }

  /** The planner sees two resources as the same exactly when every field that is neither
      generated by the server nor at its default means the same in both. */
  lemma ComparesRelevantFields(kind: Kind, a: Resource, b: Resource)
    requires ProperResource(a) && ProperResource(b)
    ensures Same(kind, a, b) <==> forall key :: Relevant(kind, a, key) == Relevant(kind, b, key)
  {
    var na, nb := Normalized(kind, a), Normalized(kind, b);
    NormalizedProper(kind, a);
    NormalizedProper(kind, b);
    CanonicalMeans(Record(na), Record(nb));
    forall key
      ensures Relevant(kind, a, key) == if key in Fields(na) then Some(Fields(na)[key]) else None
      ensures Relevant(kind, b, key) == if key in Fields(nb) then Some(Fields(nb)[key]) else None
    {
      NormalizedFind(kind, a, key);
      NormalizedFind(kind, b, key);
      FieldsAreFound(na, key);
      FieldsAreFound(nb, key);
    }
    if forall key :: Relevant(kind, a, key) == Relevant(kind, b, key) {
      forall key ensures (key in Fields(na) <==> key in Fields(nb)) && (key in Fields(na) ==> Fields(na)[key] == Fields(nb)[key]) {
        assert Relevant(kind, a, key) == Relevant(kind, b, key);
      }
      assert Fields(na) == Fields(nb);
    }
  }

  // ---- Identity and ownership ----

  function AsId(v: Option<Value>): Option<string> {
    match v case Some(Text(s)) => Some(s) case Some(Number(d)) => Some(d) case _ => None
  }

  function ResourceId(kind: Kind, r: Resource): Option<string> {
    var username := AsId(Find(r, "username"));
    if kind.Consumers? && username.Some? then username else AsId(Find(r, "id"))
  }

  function LabelOf(r: Resource, name: string): Option<string> {
    match Find(r, "labels")
    case Some(Record(labels)) => (match Find(labels, name) case Some(Text(s)) => Some(s) case _ => None)
    case _ => None
  }

  predicate RepoManaged(r: Resource) {
    LabelOf(r, "managed_by") == Some(MANAGED_BY) && LabelOf(r, "source") == Some(REPO_SOURCE)
  }

  predicate DynamicManaged(r: Resource) {
    LabelOf(r, "managed_by") == Some(MANAGED_BY) && LabelOf(r, "source") == Some(DYNAMIC_SOURCE)
  }

  predicate InScope(r: Resource, scope: Scope) {
    LabelOf(r, "env") == Some(scope.env) && LabelOf(r, "app") == Some(scope.app)
  }

  // ---- Planning ----

  datatype Reason = Dynamic | OutOfScope | Unmanaged

  datatype Write = Write(kind: Kind, id: string, desired: Resource)

  datatype Removal = Removal(kind: Kind, id: string)

  datatype Ignored = Ignored(kind: Kind, id: string, reason: Reason)

  datatype Plan = Plan(creates: seq<Write>, updates: seq<Write>, deletes: seq<Removal>, ignored: seq<Ignored>)

  type Inventory = map<Kind, seq<Resource>>

  function Listed(inventory: Inventory, kind: Kind): seq<Resource> {
    if kind in inventory then inventory[kind] else []
  }

  /** Of several resources with one identifier the last counts. */
  function ById(kind: Kind, resources: seq<Resource>): map<string, Resource> {
    if resources == [] then map[]
    else
      var before := ById(kind, resources[..|resources| - 1]);
      var last := resources[|resources| - 1];
      match ResourceId(kind, last)
      case None => before
      case Some(id) => if id == "" then before else before[id := last]
  }

  method IndexById(kind: Kind, resources: seq<Resource>) returns (index: map<string, Resource>)
    ensures index == ById(kind, resources)
  {
    index := map[];
    for i := 0 to |resources|
      invariant index == ById(kind, resources[..i])
    {
      assert resources[..i + 1][..i] == resources[..i];
      var id := ResourceId(kind, resources[i]);
      if id.Some? && id.value != "" { index := index[id.value := resources[i]]; }
    }
    assert resources[..|resources|] == resources;
  }

  /** What becomes of one identifier of one kind. */
  datatype Fate = Create | Update | Keep | Delete | Ignore(reason: Reason) | Absent

  function FateOf(kind: Kind, desired: map<string, Resource>, remote: map<string, Resource>, scope: Scope, id: string): Fate {
    if id in desired then
      if id !in remote then Create
      else if Same(kind, desired[id], remote[id]) then Keep else Update
    else if id !in remote then Absent
    else if DynamicManaged(remote[id]) then Ignore(Dynamic)
    else if !RepoManaged(remote[id]) then Ignore(Unmanaged)
    else if InScope(remote[id], scope) then Delete else Ignore(OutOfScope)
  }

  /** The planner takes the resource for the scope's own. */
  predicate OwnedBy(r: Resource, scope: Scope) { RepoManaged(r) && InScope(r, scope) && !DynamicManaged(r) }

  lemma FateOfDesired(kind: Kind, desired: map<string, Resource>, remote: map<string, Resource>, scope: Scope, id: string)
    requires id in desired
    ensures FateOf(kind, desired, remote, scope, id) ==
      if id !in remote then Create else if Same(kind, desired[id], remote[id]) then Keep else Update
  {}

  lemma FateOfOther(kind: Kind, desired: map<string, Resource>, remote: map<string, Resource>, scope: Scope, id: string)
    requires id !in desired
    ensures
      var fate := FateOf(kind, desired, remote, scope, id);
      && (fate.Absent? || fate.Delete? || fate.Ignore?)
      && (fate.Absent? <==> id !in remote)
      && (fate.Delete? <==> id in remote && OwnedBy(remote[id], scope))
  {}

  function Fates(manifest: Inventory, remote: Inventory, scope: Scope, kind: Kind, id: string): Fate {
    FateOf(kind, ById(kind, Listed(manifest, kind)), ById(kind, Listed(remote, kind)), scope, id)
  }

  ghost predicate Once<T>(list: seq<T>) {
    forall i, j :: 0 <= i < j < |list| ==> list[i] != list[j]
  }

  /** What one planning run works on, and how far it has come. */
  datatype Task = Task(manifest: Inventory, remote: Inventory, scope: Scope, kinds: seq<Kind>, todo: set<string>)

  function FateIn(t: Task, kind: Kind, id: string): Fate { Fates(t.manifest, t.remote, t.scope, kind, id) }

  predicate Wanted(t: Task, w: Write)
    requires FateIn(t, w.kind, w.id).Create? || FateIn(t, w.kind, w.id).Update?
  {
    w.desired == ById(w.kind, Listed(t.manifest, w.kind))[w.id]
  }

  ghost predicate CreatesFaithful(t: Task, list: seq<Write>) {
    Once(list) && forall w :: w in list <==> Planned(t.kinds, t.todo, w.kind, w.id) && FateIn(t, w.kind, w.id).Create? && Wanted(t, w)
  }

  ghost predicate UpdatesFaithful(t: Task, list: seq<Write>) {
    Once(list) && forall w :: w in list <==> Planned(t.kinds, t.todo, w.kind, w.id) && FateIn(t, w.kind, w.id).Update? && Wanted(t, w)
  }

  ghost predicate DeletesFaithful(t: Task, list: seq<Removal>) {
    Once(list) && forall r :: r in list <==> Planned(t.kinds, t.todo, r.kind, r.id) && FateIn(t, r.kind, r.id).Delete?
  }

  ghost predicate IgnoredFaithful(t: Task, list: seq<Ignored>) {
    Once(list) && forall i :: i in list <==> Planned(t.kinds, t.todo, i.kind, i.id) && FateIn(t, i.kind, i.id) == Ignore(i.reason)
  }

  /** The plan lists exactly what the fates of the identifiers seen so far call for, each once. */
  ghost predicate Faithful(plan: Plan, t: Task) {
    && CreatesFaithful(t, plan.creates) && UpdatesFaithful(t, plan.updates)
    && DeletesFaithful(t, plan.deletes) && IgnoredFaithful(t, plan.ignored)
  }

  /** All identifiers of the kinds before the last one, and of the last one those not still to do. */
  predicate Planned(kinds: seq<Kind>, todo: set<string>, kind: Kind, id: string) {
    kinds != [] && (kind in kinds[..|kinds| - 1] || (kind == kinds[|kinds| - 1] && id !in todo))
  }

  /** The kind being planned comes after all others. */
  ghost predicate Current(t: Task, kind: Kind) {
    t.kinds != [] && t.kinds[|t.kinds| - 1] == kind && kind !in t.kinds[..|t.kinds| - 1]
  }

  function Without(t: Task, id: string): Task { t.(todo := t.todo - {id}) }

  lemma PlannedWithout(t: Task, kind: Kind, id: string, k: Kind, i: string)
    requires Current(t, kind) && id in t.todo
    ensures Planned(t.kinds, t.todo - {id}, k, i) <==> Planned(t.kinds, t.todo, k, i) || (k == kind && i == id)
    ensures !Planned(t.kinds, t.todo, kind, id)
  {}

  lemma CreatesNext(t: Task, kind: Kind, id: string, list: seq<Write>)
    requires Current(t, kind) && id in t.todo && CreatesFaithful(t, list)
    ensures
      if FateIn(t, kind, id).Create?
      then CreatesFaithful(Without(t, id), list + [Write(kind, id, ById(kind, Listed(t.manifest, kind))[id])])
      else CreatesFaithful(Without(t, id), list)
  {
    forall w: Write ensures Planned(t.kinds, t.todo - {id}, w.kind, w.id) <==> Planned(t.kinds, t.todo, w.kind, w.id) || (w.kind == kind && w.id == id) {
      PlannedWithout(t, kind, id, w.kind, w.id);
    }
    PlannedWithout(t, kind, id, kind, id);
  }

  lemma UpdatesNext(t: Task, kind: Kind, id: string, list: seq<Write>)
    requires Current(t, kind) && id in t.todo && UpdatesFaithful(t, list)
    ensures
      if FateIn(t, kind, id).Update?
      then UpdatesFaithful(Without(t, id), list + [Write(kind, id, ById(kind, Listed(t.manifest, kind))[id])])
      else UpdatesFaithful(Without(t, id), list)
  {
    forall w: Write ensures Planned(t.kinds, t.todo - {id}, w.kind, w.id) <==> Planned(t.kinds, t.todo, w.kind, w.id) || (w.kind == kind && w.id == id) {
      PlannedWithout(t, kind, id, w.kind, w.id);
    }
    PlannedWithout(t, kind, id, kind, id);
  }

  lemma DeletesNext(t: Task, kind: Kind, id: string, list: seq<Removal>)
    requires Current(t, kind) && id in t.todo && DeletesFaithful(t, list)
    ensures
      if FateIn(t, kind, id).Delete? then DeletesFaithful(Without(t, id), list + [Removal(kind, id)])
      else DeletesFaithful(Without(t, id), list)
  {
    forall r: Removal ensures Planned(t.kinds, t.todo - {id}, r.kind, r.id) <==> Planned(t.kinds, t.todo, r.kind, r.id) || (r.kind == kind && r.id == id) {
      PlannedWithout(t, kind, id, r.kind, r.id);
    }
    PlannedWithout(t, kind, id, kind, id);
  }

  lemma IgnoredNext(t: Task, kind: Kind, id: string, list: seq<Ignored>)
    requires Current(t, kind) && id in t.todo && IgnoredFaithful(t, list)
    ensures
      var fate := FateIn(t, kind, id);
      if fate.Ignore? then IgnoredFaithful(Without(t, id), list + [Ignored(kind, id, fate.reason)])
      else IgnoredFaithful(Without(t, id), list)
  {
    forall x: Ignored ensures Planned(t.kinds, t.todo - {id}, x.kind, x.id) <==> Planned(t.kinds, t.todo, x.kind, x.id) || (x.kind == kind && x.id == id) {
      PlannedWithout(t, kind, id, x.kind, x.id);
    }
    PlannedWithout(t, kind, id, kind, id);
  }

  function Placed(plan: Plan, t: Task, kind: Kind, id: string): Plan {
    match FateIn(t, kind, id)
    case Create => plan.(creates := plan.creates + [Write(kind, id, ById(kind, Listed(t.manifest, kind))[id])])
    case Update => plan.(updates := plan.updates + [Write(kind, id, ById(kind, Listed(t.manifest, kind))[id])])
    case Delete => plan.(deletes := plan.deletes + [Removal(kind, id)])
    case Ignore(reason) => plan.(ignored := plan.ignored + [Ignored(kind, id, reason)])
    case _ => plan
  }

  lemma PlacedIsFaithful(plan: Plan, t: Task, kind: Kind, id: string)
    requires Current(t, kind) && id in t.todo && Faithful(plan, t)
    ensures Faithful(Placed(plan, t, kind, id), Without(t, id))
  {
    CreatesNext(t, kind, id, plan.creates);
    UpdatesNext(t, kind, id, plan.updates);
    DeletesNext(t, kind, id, plan.deletes);
    IgnoredNext(t, kind, id, plan.ignored);
  }

  /** Moving on to the next kind. */
  lemma NextKind(plan: Plan, t: Task, kind: Kind, todo: set<string>)
    requires Faithful(plan, t) && t.todo == {} && kind !in t.kinds
    requires forall id :: id in ById(kind, Listed(t.manifest, kind)) || id in ById(kind, Listed(t.remote, kind)) ==> id in todo
    ensures Faithful(plan, t.(kinds := t.kinds + [kind], todo := todo)) && Current(t.(kinds := t.kinds + [kind], todo := todo), kind)
  {
    var n := t.(kinds := t.kinds + [kind], todo := todo);
    assert n.kinds[..|t.kinds|] == t.kinds;
    forall w: Write ensures w in plan.creates <==> Planned(n.kinds, todo, w.kind, w.id) && FateIn(n, w.kind, w.id).Create? && Wanted(n, w) {
      PlannedNext(t, kind, todo, w.kind, w.id);
    }
    forall w: Write ensures w in plan.updates <==> Planned(n.kinds, todo, w.kind, w.id) && FateIn(n, w.kind, w.id).Update? && Wanted(n, w) {
      PlannedNext(t, kind, todo, w.kind, w.id);
    }
    forall r: Removal ensures r in plan.deletes <==> Planned(n.kinds, todo, r.kind, r.id) && FateIn(n, r.kind, r.id).Delete? {
      PlannedNext(t, kind, todo, r.kind, r.id);
    }
    forall i: Ignored ensures i in plan.ignored <==> Planned(n.kinds, todo, i.kind, i.id) && FateIn(n, i.kind, i.id) == Ignore(i.reason) {
      PlannedNext(t, kind, todo, i.kind, i.id);
    }
  }

  lemma PlannedNext(t: Task, kind: Kind, todo: set<string>, k: Kind, id: string)
    requires t.todo == {} && kind !in t.kinds
    requires id in ById(kind, Listed(t.manifest, kind)) || id in ById(kind, Listed(t.remote, kind)) ==> id in todo
    ensures Planned(t.kinds, {}, k, id) <==> Planned(t.kinds + [kind], todo, k, id) && k != kind
    ensures Planned(t.kinds + [kind], todo, kind, id) ==> FateIn(t, kind, id) == Absent
  {
    assert (t.kinds + [kind])[..|t.kinds|] == t.kinds;
    assert t.kinds != [] ==> t.kinds == t.kinds[..|t.kinds| - 1] + [t.kinds[|t.kinds| - 1]];
  }

  /** The loop over the desired resources of one kind. */
  method PlanDesired(plan: Plan, kind: Kind, desired: map<string, Resource>, remoteById: map<string, Resource>, ghost t: Task)
    returns (next: Plan)
    requires Faithful(plan, t) && Current(t, kind) && desired.Keys <= t.todo
    requires desired == ById(kind, Listed(t.manifest, kind)) && remoteById == ById(kind, Listed(t.remote, kind))
    ensures Faithful(next, t.(todo := t.todo - desired.Keys))
  {
    next := plan;
    var rest := desired.Keys;
    ghost var now := t;
    while rest != {}
      invariant rest <= desired.Keys && now == t.(todo := t.todo - (desired.Keys - rest)) && Faithful(next, now)
    {
      var id :| id in rest;
      PlacedIsFaithful(next, now, kind, id);
      if id !in remoteById {
        next := next.(creates := next.creates + [Write(kind, id, desired[id])]);
      } else if !Same(kind, desired[id], remoteById[id]) {
        next := next.(updates := next.updates + [Write(kind, id, desired[id])]);
      }
      now := Without(now, id);
      rest := rest - {id};
      assert now.todo == t.todo - (desired.Keys - rest);
    }
    assert desired.Keys - {} == desired.Keys;
  }

  /** A remote resource nobody desires is deleted only when it is managed by the
      repository in this scope. */
  method PlaceOther(plan: Plan, kind: Kind, id: string, desired: map<string, Resource>, remoteById: map<string, Resource>,
                    scope: Scope, ghost t: Task)
    returns (next: Plan)
    requires id in remoteById && id !in desired && scope == t.scope
    requires desired == ById(kind, Listed(t.manifest, kind)) && remoteById == ById(kind, Listed(t.remote, kind))
    ensures next == Placed(plan, t, kind, id)
  {
    var r := remoteById[id];
    if DynamicManaged(r) {
      next := plan.(ignored := plan.ignored + [Ignored(kind, id, Dynamic)]);
    } else if RepoManaged(r) {
      if InScope(r, scope) {
        next := plan.(deletes := plan.deletes + [Removal(kind, id)]);
      } else {
        next := plan.(ignored := plan.ignored + [Ignored(kind, id, OutOfScope)]);
      }
    } else {
      next := plan.(ignored := plan.ignored + [Ignored(kind, id, Unmanaged)]);
    }
  }

  /** The loop over remote resources that are not desired. */
  method PlanOthers(plan: Plan, kind: Kind, desired: map<string, Resource>, remoteById: map<string, Resource>, scope: Scope, ghost t: Task)
    returns (next: Plan)
    requires Faithful(plan, t) && Current(t, kind) && t.todo == remoteById.Keys - desired.Keys && scope == t.scope
    requires desired == ById(kind, Listed(t.manifest, kind)) && remoteById == ById(kind, Listed(t.remote, kind))
    ensures Faithful(next, t.(todo := {}))
  {
    next := plan;
    var rest := remoteById.Keys - desired.Keys;
    while rest != {}
      invariant rest <= remoteById.Keys - desired.Keys && Faithful(next, t.(todo := rest))
    {
      var id :| id in rest;
      PlacedIsFaithful(next, t.(todo := rest), kind, id);
      next := PlaceOther(next, kind, id, desired, remoteById, scope, t);
      rest := rest - {id};
    }
  }

  method PlanKind(plan: Plan, manifest: Inventory, remote: Inventory, scope: Scope, kind: Kind, ghost kinds: seq<Kind>)
    returns (next: Plan)
    requires Faithful(plan, Task(manifest, remote, scope, kinds, {})) && kind !in kinds
    ensures Faithful(next, Task(manifest, remote, scope, kinds + [kind], {}))
  {
    var desired := IndexById(kind, Listed(manifest, kind));
    var remoteById := IndexById(kind, Listed(remote, kind));
    ghost var all := desired.Keys + remoteById.Keys;
    ghost var t := Task(manifest, remote, scope, kinds + [kind], all);
    NextKind(plan, Task(manifest, remote, scope, kinds, {}), kind, all);
    next := PlanDesired(plan, kind, desired, remoteById, t);
    assert all - desired.Keys == remoteById.Keys - desired.Keys;
    next := PlanOthers(next, kind, desired, remoteById, scope, t.(todo := remoteById.Keys - desired.Keys));
  }

  /** Every identifier of every kind is planned for exactly once, whatever order the maps
      are walked in. */
  method PlanChanges(manifest: Inventory, remote: Inventory, scope: Scope) returns (plan: Plan)
    ensures Faithful(plan, Task(manifest, remote, scope, RESOURCE_KINDS, {}))
  {
    plan := Plan([], [], [], []);
    for k := 0 to |RESOURCE_KINDS|
      invariant Faithful(plan, Task(manifest, remote, scope, RESOURCE_KINDS[..k], {}))
    {
      assert RESOURCE_KINDS[..k + 1] == RESOURCE_KINDS[..k] + [RESOURCE_KINDS[k]];
      plan := PlanKind(plan, manifest, remote, scope, RESOURCE_KINDS[k], RESOURCE_KINDS[..k]);
    }
    assert RESOURCE_KINDS[..|RESOURCE_KINDS|] == RESOURCE_KINDS;
  }

  lemma EveryKindIsPlanned(kind: Kind, id: string)
    ensures Planned(RESOURCE_KINDS, {}, kind, id)
  {
    var init := RESOURCE_KINDS[..6];
    assert init == [Upstreams, PluginMetadata, PluginConfigs, Services, Consumers, Ssls];
    assert kind in init || kind == RESOURCE_KINDS[6];
  }

  // ---- Applying a plan ----

  /** The gateway's own state, by kind and identifier. */
  type Gateway = map<(Kind, string), Resource>

  /** What the server keeps of a resource it is given: it may add generated fields and
      fields at their default, and must keep the rest. */
  ghost predicate StoresFaithfully(server: (Kind, Resource) -> Resource) {
    forall kind: Kind, d: Resource :: ProperResource(d) ==>
      && ProperResource(server(kind, d))
      && (forall key: string :: Relevant(kind, server(kind, d), key) == Relevant(kind, d, key))
      && ResourceId(kind, server(kind, d)) == ResourceId(kind, d)
  }

  function Writes(g: Gateway, server: (Kind, Resource) -> Resource, writes: seq<Write>): Gateway {
    if writes == [] then g
    else
      var last := writes[|writes| - 1];
      Writes(g, server, writes[..|writes| - 1])[(last.kind, last.id) := server(last.kind, last.desired)]
  }

  function Removals(g: Gateway, removals: seq<Removal>): Gateway {
    if removals == [] then g
    else Removals(g, removals[..|removals| - 1]) - {(removals[|removals| - 1].kind, removals[|removals| - 1].id)}
  }

  function Applied(g: Gateway, server: (Kind, Resource) -> Resource, writes: seq<Write>, removals: seq<Removal>): Gateway {
    Removals(Writes(g, server, writes), removals)
  }

  lemma {:induction false} WritesAt(g: Gateway, server: (Kind, Resource) -> Resource, writes: seq<Write>, kind: Kind, id: string)
    requires forall i, j :: 0 <= i < |writes| && 0 <= j < |writes| && writes[i].kind == writes[j].kind && writes[i].id == writes[j].id ==>
      writes[i] == writes[j]
    ensures
      var after := Writes(g, server, writes);
      && (forall w :: w in writes && w.kind == kind && w.id == id ==>
            (kind, id) in after && after[(kind, id)] == server(kind, w.desired))
      && ((forall w :: w in writes ==> !(w.kind == kind && w.id == id)) ==>
            ((kind, id) in after <==> (kind, id) in g) && ((kind, id) in g ==> after[(kind, id)] == g[(kind, id)]))
  {
    if writes != [] {
      var init, last := writes[..|writes| - 1], writes[|writes| - 1];
      WritesAt(g, server, init, kind, id);
      assert writes == init + [last];
    }
  }

  lemma {:induction false} RemovalsAt(g: Gateway, removals: seq<Removal>, kind: Kind, id: string)
    ensures (kind, id) in Removals(g, removals) <==> (kind, id) in g && Removal(kind, id) !in removals
    ensures (kind, id) in Removals(g, removals) ==> Removals(g, removals)[(kind, id)] == g[(kind, id)]
  {
    if removals != [] {
      RemovalsAt(g, removals[..|removals| - 1], kind, id);
      assert removals == removals[..|removals| - 1] + [removals[|removals| - 1]];
    }
  }

  /** A remote inventory is what the gateway reports: every resource once, under its own
      identifier. */
  ghost predicate Reports(remote: Inventory, g: Gateway) {
    forall kind: Kind, id: string ::
      && (id in ById(kind, Listed(remote, kind)) <==> (kind, id) in g)
      && (id in ById(kind, Listed(remote, kind)) ==> ById(kind, Listed(remote, kind))[id] == g[(kind, id)])
  }

  /** The writes are the plan's creates and updates and the removals its deletes, in any
      order and without repetition mattering. */
  ghost predicate Executes(plan: Plan, writes: seq<Write>, removals: seq<Removal>) {
    && (forall w :: w in writes <==> w in plan.creates || w in plan.updates)
    && (forall r :: r in removals <==> r in plan.deletes)
  }

  /** One identifier after the plan has been carried out. */
  lemma OutcomeAt(manifest: Inventory, remote: Inventory, scope: Scope, plan: Plan, g: Gateway,
                  server: (Kind, Resource) -> Resource, writes: seq<Write>, removals: seq<Removal>, kind: Kind, id: string)
    requires Faithful(plan, Task(manifest, remote, scope, RESOURCE_KINDS, {}))
    requires Reports(remote, g) && Executes(plan, writes, removals)
    ensures
      var after := Applied(g, server, writes, removals);
      match Fates(manifest, remote, scope, kind, id)
      case Create => (kind, id) in after && after[(kind, id)] == server(kind, ById(kind, Listed(manifest, kind))[id])
      case Update => (kind, id) in after && after[(kind, id)] == server(kind, ById(kind, Listed(manifest, kind))[id])
      case Delete => (kind, id) !in after
      case Absent => (kind, id) !in after
      case _ => (kind, id) in g && (kind, id) in after && after[(kind, id)] == g[(kind, id)]
  {
    var t := Task(manifest, remote, scope, RESOURCE_KINDS, {});
    WritesCarryDesired(t, plan, writes, removals);
    WritesAt(g, server, writes, kind, id);
    RemovalsAt(Writes(g, server, writes), removals, kind, id);
    PlannedAt(t, plan, writes, removals, kind, id);
  }

  /** Writes to one identifier all carry its desired resource. */
  lemma WritesCarryDesired(t: Task, plan: Plan, writes: seq<Write>, removals: seq<Removal>)
    requires Faithful(plan, t) && Executes(plan, writes, removals)
    ensures forall w :: w in writes ==> (FateIn(t, w.kind, w.id).Create? || FateIn(t, w.kind, w.id).Update?) && Wanted(t, w)
  {}

  lemma PlannedAt(t: Task, plan: Plan, writes: seq<Write>, removals: seq<Removal>, kind: Kind, id: string)
    requires Faithful(plan, t) && Executes(plan, writes, removals) && t.kinds == RESOURCE_KINDS && t.todo == {}
    ensures
      var fate := FateIn(t, kind, id);
      && (fate.Create? || fate.Update? ==> Write(kind, id, ById(kind, Listed(t.manifest, kind))[id]) in writes)
      && (Removal(kind, id) in removals <==> fate.Delete?)
  {
    EveryKindIsPlanned(kind, id);
    var fate := FateIn(t, kind, id);
    if fate.Create? || fate.Update? {
      var w := Write(kind, id, ById(kind, Listed(t.manifest, kind))[id]);
      assert Wanted(t, w) && Planned(t.kinds, t.todo, w.kind, w.id);
      assert fate.Create? ==> w in plan.creates;
      assert fate.Update? ==> w in plan.updates;
    }
    var r := Removal(kind, id);
    assert r in plan.deletes <==> Planned(t.kinds, t.todo, r.kind, r.id) && FateIn(t, r.kind, r.id).Delete?;
  }

  lemma NoMembers<T>(list: seq<T>)
    ensures list == [] <==> forall x :: x !in list
  {
    if list != [] { assert list[0] in list; }
  }

  /** Planning converges: after a plan is carried out, planning again writes and deletes
      nothing, and ignores what it ignored before. */
  lemma PlanningConverges(manifest: Inventory, remote: Inventory, later: Inventory, scope: Scope, plan: Plan, again: Plan,
                          g: Gateway, server: (Kind, Resource) -> Resource, writes: seq<Write>, removals: seq<Removal>)
    requires Faithful(plan, Task(manifest, remote, scope, RESOURCE_KINDS, {}))
    requires Reports(remote, g) && Executes(plan, writes, removals) && StoresFaithfully(server)
    requires Reports(later, Applied(g, server, writes, removals))
    requires forall kind: Kind, id: string :: id in ById(kind, Listed(manifest, kind)) ==> ProperResource(ById(kind, Listed(manifest, kind))[id])
    requires Faithful(again, Task(manifest, later, scope, RESOURCE_KINDS, {}))
    ensures again.creates == [] && again.updates == [] && again.deletes == []
    ensures forall i :: i in again.ignored <==> i in plan.ignored
  {
    forall kind, id
      ensures
        var fate := Fates(manifest, later, scope, kind, id);
        fate.Keep? || fate.Ignore? || fate.Absent?
      ensures forall reason :: Fates(manifest, later, scope, kind, id) == Ignore(reason) <==> Fates(manifest, remote, scope, kind, id) == Ignore(reason)
    {
      FateAgain(manifest, remote, later, scope, plan, g, server, writes, removals, kind, id);
    }
    NoMembers(again.creates);
    NoMembers(again.updates);
    NoMembers(again.deletes);
    forall i ensures i in again.ignored <==> i in plan.ignored { EveryKindIsPlanned(i.kind, i.id); }
  }

  lemma StoredIsSame(kind: Kind, desired: Resource, server: (Kind, Resource) -> Resource)
    requires StoresFaithfully(server) && ProperResource(desired)
    ensures ProperResource(server(kind, desired)) && Same(kind, desired, server(kind, desired))
  {
    ComparesRelevantFields(kind, desired, server(kind, desired));
  }

  /** A desired resource is kept the second time. */
  lemma DesiredAgain(manifest: Inventory, remote: Inventory, later: Inventory, scope: Scope, plan: Plan,
                     g: Gateway, server: (Kind, Resource) -> Resource, writes: seq<Write>, removals: seq<Removal>, kind: Kind, id: string)
    requires Faithful(plan, Task(manifest, remote, scope, RESOURCE_KINDS, {}))
    requires Reports(remote, g) && Executes(plan, writes, removals) && StoresFaithfully(server)
    requires Reports(later, Applied(g, server, writes, removals))
    requires id in ById(kind, Listed(manifest, kind)) && ProperResource(ById(kind, Listed(manifest, kind))[id])
    ensures Fates(manifest, later, scope, kind, id) == Keep
  {
    var desired := ById(kind, Listed(manifest, kind));
    FateOfDesired(kind, desired, ById(kind, Listed(remote, kind)), scope, id);
    OutcomeAt(manifest, remote, scope, plan, g, server, writes, removals, kind, id);
    StoredIsSame(kind, desired[id], server);
    FateOfDesired(kind, desired, ById(kind, Listed(later, kind)), scope, id);
  }

  /** Any other is gone or ignored for the same reason. */
  lemma OtherAgain(manifest: Inventory, remote: Inventory, later: Inventory, scope: Scope, plan: Plan,
                   g: Gateway, server: (Kind, Resource) -> Resource, writes: seq<Write>, removals: seq<Removal>, kind: Kind, id: string)
    requires Faithful(plan, Task(manifest, remote, scope, RESOURCE_KINDS, {}))
    requires Reports(remote, g) && Executes(plan, writes, removals)
    requires Reports(later, Applied(g, server, writes, removals))
    requires id !in ById(kind, Listed(manifest, kind))
    ensures
      var fate := Fates(manifest, remote, scope, kind, id);
      Fates(manifest, later, scope, kind, id) == if fate.Delete? then Absent else fate
  {
    OutcomeAt(manifest, remote, scope, plan, g, server, writes, removals, kind, id);
  }

  lemma FateAgain(manifest: Inventory, remote: Inventory, later: Inventory, scope: Scope, plan: Plan,
                  g: Gateway, server: (Kind, Resource) -> Resource, writes: seq<Write>, removals: seq<Removal>, kind: Kind, id: string)
    requires Faithful(plan, Task(manifest, remote, scope, RESOURCE_KINDS, {}))
    requires Reports(remote, g) && Executes(plan, writes, removals) && StoresFaithfully(server)
    requires Reports(later, Applied(g, server, writes, removals))
    requires id in ById(kind, Listed(manifest, kind)) ==> ProperResource(ById(kind, Listed(manifest, kind))[id])
    ensures
      match Fates(manifest, remote, scope, kind, id)
      case Create => Fates(manifest, later, scope, kind, id) == Keep
      case Update => Fates(manifest, later, scope, kind, id) == Keep
      case Delete => Fates(manifest, later, scope, kind, id) == Absent
      case same => Fates(manifest, later, scope, kind, id) == same
  {
    if id in ById(kind, Listed(manifest, kind)) {
      FateOfDesired(kind, ById(kind, Listed(manifest, kind)), ById(kind, Listed(remote, kind)), scope, id);
      DesiredAgain(manifest, remote, later, scope, plan, g, server, writes, removals, kind, id);
    } else {
      FateOfOther(kind, ById(kind, Listed(manifest, kind)), ById(kind, Listed(remote, kind)), scope, id);
      OtherAgain(manifest, remote, later, scope, plan, g, server, writes, removals, kind, id);
    }
  }

  /** Every remote resource nobody desires is either deleted or ignored, never both; what
      is desired is neither. */
  lemma UndesiredIsDeletedOrIgnored(manifest: Inventory, remote: Inventory, scope: Scope, plan: Plan, kind: Kind, id: string)
    requires Faithful(plan, Task(manifest, remote, scope, RESOURCE_KINDS, {}))
    requires id in ById(kind, Listed(remote, kind))
    ensures
      var isDeleted := Removal(kind, id) in plan.deletes;
      var isIgnored := exists reason :: Ignored(kind, id, reason) in plan.ignored;
      if id in ById(kind, Listed(manifest, kind)) then !isDeleted && !isIgnored else isDeleted != isIgnored
  {
    EveryKindIsPlanned(kind, id);
    var t := Task(manifest, remote, scope, RESOURCE_KINDS, {});
    assert Removal(kind, id) in plan.deletes <==> FateIn(t, kind, id).Delete?;
    forall reason ensures Ignored(kind, id, reason) in plan.ignored <==> FateIn(t, kind, id) == Ignore(reason) {
      var i := Ignored(kind, id, reason);
      assert i in plan.ignored <==> Planned(t.kinds, t.todo, i.kind, i.id) && FateIn(t, i.kind, i.id) == Ignore(i.reason);
    }
    if FateIn(t, kind, id).Ignore? {
      assert Ignored(kind, id, FateIn(t, kind, id).reason) in plan.ignored;
    }
  }
}
