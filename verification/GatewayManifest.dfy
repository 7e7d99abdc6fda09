// From a caller's manifest to gateway resources that carry their scope in identifier and
// labels (apps/gateway/src/manifest.ts), and why two scopes never touch each other.
module GatewayManifest {
  import opened Json
  import opened CanonicalJson
  import opened GatewayPlan

  // ---- Scopes ----

  predicate SegmentChar(c: char) { 'a' <= c <= 'z' || '0' <= c <= '9' || c == '-' }

  predicate ValidSegment(s: string) {
    s != "" && s[0] != '-' && forall i :: 0 <= i < |s| ==> SegmentChar(s[i])
  }

  predicate ValidScope(scope: Scope) { ValidSegment(scope.env) && ValidSegment(scope.app) }

  /** Exactly two parts, both valid segments. */
  function ParseManifestScope(env: string): Option<Scope> {
    var parts := Cut(env, ':');
    if |parts| == 2 && ValidSegment(parts[0]) && ValidSegment(parts[1]) then Some(Scope(parts[0], parts[1])) else None
  }

  function FormatScope(scope: Scope): string { scope.env + ":" + scope.app }

  function Cut(s: string, separator: char): (parts: seq<string>)
    ensures parts != []
  {
    if s == "" then [""]
    else
      var rest := Cut(s[..|s| - 1], separator);
      if s[|s| - 1] == separator then rest + [""]
      else rest[..|rest| - 1] + [rest[|rest| - 1] + [s[|s| - 1]]]
  }

  lemma {:induction false} SplitWithout(s: string, separator: char)
    requires separator !in s
    ensures Cut(s, separator) == [s]
  {
    if s != "" {
      SplitWithout(s[..|s| - 1], separator);
      assert s == s[..|s| - 1] + [s[|s| - 1]];
    }
  }

  lemma {:induction false} SplitTwo(a: string, b: string, separator: char)
    requires separator !in a && separator !in b
    ensures Cut(a + [separator] + b, separator) == [a, b]
  {
    var whole := a + [separator] + b;
    if b == "" {
      SplitWithout(a, separator);
      assert whole[..|whole| - 1] == a;
    } else {
      SplitTwo(a, b[..|b| - 1], separator);
      assert whole[..|whole| - 1] == a + [separator] + b[..|b| - 1];
      assert b == b[..|b| - 1] + [b[|b| - 1]];
    }
  }

  function JoinTwo(parts: seq<string>, separator: char): string
    requires |parts| == 2
  {
    parts[0] + [separator] + parts[1]
  }

  lemma {:induction false} SplitJoins(s: string, separator: char)
    ensures |Cut(s, separator)| == 1 ==> Cut(s, separator)[0] == s
    ensures |Cut(s, separator)| == 2 ==> JoinTwo(Cut(s, separator), separator) == s
  {
    if s != "" {
      var init := s[..|s| - 1];
      SplitJoins(init, separator);
      assert s == init + [s[|s| - 1]];
    }
  }

  /** A scope text parses exactly when it is the text of a valid scope, which it then yields. */
  lemma ScopeRoundTrip(text: string, scope: Scope)
    ensures ParseManifestScope(text) == Some(scope) <==> ValidScope(scope) && text == FormatScope(scope)
  {
    SplitJoins(text, ':');
    if ValidScope(scope) && text == FormatScope(scope) {
      SplitTwo(scope.env, scope.app, ':');
    }
  }

  // ---- Generated identifiers ----

  function GeneratedId(scope: Scope, key: string): string { scope.app + "." + key + "." + scope.env }

  function ServiceId(scope: Scope): string { scope.app + "." + scope.env }

  function ConsumerName(scope: Scope, key: string): string { scope.app + "_" + key + "_" + scope.env }

  lemma CharAt(b: string, y: string, separator: char, i: nat)
    ensures
      var whole := b + [separator] + y;
      && (i < |b| ==> whole[i] == b[i] && b[i] in b) && whole[|b|] == separator
      && (|b| < i < |whole| ==> whole[i] == y[i - |b| - 1] && whole[i] in y)
  {}

  lemma NotShorter(a: string, x: string, b: string, y: string, separator: char)
    requires separator !in b && a + [separator] + x == b + [separator] + y
    ensures |a| >= |b|
  {
    CharAt(b, y, separator, |a|);
    CharAt(a, x, separator, |a|);
  }

  lemma FirstSeparator(a: string, x: string, b: string, y: string, separator: char)
    requires separator !in a && separator !in b && a + [separator] + x == b + [separator] + y
    ensures a == b && x == y
  {
    NotShorter(a, x, b, y, separator);
    NotShorter(b, y, a, x, separator);
    SameLengths(a, x, b, y, separator);
  }

  lemma SameLengths(a: string, x: string, b: string, y: string, separator: char)
    requires |a| == |b| && a + [separator] + x == b + [separator] + y
    ensures a == b && x == y
  {
    assert (a + [separator] + x)[..|a|] == a && (b + [separator] + y)[..|b|] == b;
    assert (a + [separator] + x)[|a| + 1..] == x && (b + [separator] + y)[|b| + 1..] == y;
  }

  lemma NotLonger(a: string, x: string, b: string, y: string, separator: char)
    requires separator !in y && a + [separator] + x == b + [separator] + y
    ensures |a| <= |b|
  {
    CharAt(b, y, separator, |a|);
    CharAt(a, x, separator, |a|);
  }

  lemma LastSeparator(a: string, x: string, b: string, y: string, separator: char)
    requires separator !in x && separator !in y && a + [separator] + x == b + [separator] + y
    ensures a == b && x == y
  {
    NotLonger(a, x, b, y, separator);
    NotLonger(b, y, a, x, separator);
    SameLengths(a, x, b, y, separator);
  }

  lemma SegmentHasNo(s: string, c: char)
    requires ValidSegment(s) && !SegmentChar(c)
    ensures c !in s
  {}

  /** An identifier determines its scope and its key, whatever characters the key holds. */
  lemma IdsAreInjective(a: Scope, b: Scope, k: string, l: string)
    requires ValidScope(a) && ValidScope(b)
    ensures GeneratedId(a, k) == GeneratedId(b, l) ==> a == b && k == l
    ensures ConsumerName(a, k) == ConsumerName(b, l) ==> a == b && k == l
    ensures ServiceId(a) == ServiceId(b) ==> a == b
  {
    forall c | c == '.' || c == '_' ensures c !in a.app && c !in b.app && c !in a.env && c !in b.env {
      SegmentHasNo(a.app, c);
      SegmentHasNo(b.app, c);
      SegmentHasNo(a.env, c);
      SegmentHasNo(b.env, c);
    }
    if GeneratedId(a, k) == GeneratedId(b, l) {
      assert GeneratedId(a, k) == a.app + ['.'] + (k + ['.'] + a.env) && GeneratedId(b, l) == b.app + ['.'] + (l + ['.'] + b.env);
      FirstSeparator(a.app, k + ['.'] + a.env, b.app, l + ['.'] + b.env, '.');
      LastSeparator(k, a.env, l, b.env, '.');
    }
    if ConsumerName(a, k) == ConsumerName(b, l) {
      assert ConsumerName(a, k) == a.app + ['_'] + (k + ['_'] + a.env) && ConsumerName(b, l) == b.app + ['_'] + (l + ['_'] + b.env);
      FirstSeparator(a.app, k + ['_'] + a.env, b.app, l + ['_'] + b.env, '_');
      LastSeparator(k, a.env, l, b.env, '_');
    }
    if ServiceId(a) == ServiceId(b) {
      assert ServiceId(a) == a.app + ['.'] + a.env && ServiceId(b) == b.app + ['.'] + b.env;
      FirstSeparator(a.app, a.env, b.app, b.env, '.');
    }
  }

  // ---- Materializing ----

  function Omit(r: Resource, names: seq<string>): Resource {
    if r == [] then [] else Omit(r[..|r| - 1], names) + if r[|r| - 1].key in names then [] else [r[|r| - 1]]
  }

  /** Assigning a property: in place when it exists, at the end otherwise. */
  function With(r: Resource, key: string, v: Value): Resource {
    if r == [] then [Entry(key, v)]
    else if r[|r| - 1].key == key then r[..|r| - 1] + [Entry(key, v)]
    else if Find(r, key).None? then r + [Entry(key, v)]
    else With(r[..|r| - 1], key, v) + [r[|r| - 1]]
  }

  lemma FindInit(r: Resource, e: Entry, k: string)
    ensures Find(r + [e], k) == if e.key == k then Some(e.value) else Find(r, k)
  {
    assert (r + [e])[..|r|] == r;
  }

  lemma {:induction false} FindWith(r: Resource, key: string, v: Value, k: string)
    ensures Find(With(r, key, v), k) == if k == key then Some(v) else Find(r, k)
  {
    if r == [] {
    } else if r[|r| - 1].key == key {
      FindInit(r[..|r| - 1], Entry(key, v), k);
      FindInit(r[..|r| - 1], r[|r| - 1], k);
      assert r == r[..|r| - 1] + [r[|r| - 1]];
    } else if Find(r, key).None? {
      FindInit(r, Entry(key, v), k);
    } else {
      FindWith(r[..|r| - 1], key, v, k);
      FindInit(With(r[..|r| - 1], key, v), r[|r| - 1], k);
    }
  }

  const GENERATED_FIELDS := ["id", "name", "service_id", "upstream_id", "plugin_config_id"]

  function OmitSourceFields(source: Resource, extra: seq<string>): Resource {
    Omit(source, GENERATED_FIELDS + extra + ["labels"])
  }

  function Labels(source: Resource, scope: Scope): Value {
    var own := match Find(source, "labels") case Some(Record(labels)) => labels case _ => [];
    Record(With(With(With(With(own, "managed_by", Text(MANAGED_BY)), "source", Text(REPO_SOURCE)),
                     "env", Text(scope.env)), "app", Text(scope.app)))
  }

  function Digits(n: nat): string {
    (if n < 10 then "" else Digits(n / 10)) + [('0' as int + n % 10) as char]
  }

  function SourceKey(source: Resource, index: nat): string {
    match Find(source, "key") case Some(Text(key)) => key case _ => "invalid-key-" + Digits(index)
  }

  function Service(source: Resource, scope: Scope): Resource {
    var id := ServiceId(scope);
    With(With(With(OmitSourceFields(source, ["key", "plugin_configs"]), "id", Text(id)), "name", Text(id)),
         "labels", Labels(source, scope))
  }

  function Keyed(kind: Kind, source: Resource, scope: Scope, index: nat): Resource {
    var key := SourceKey(source, index);
    var id := if kind.PluginMetadata? then key else GeneratedId(scope, key);
    var r := OmitSourceFields(source, ["key"]);
    match kind
    case Consumers => With(With(r, "username", Text(ConsumerName(scope, key))), "labels", Labels(source, scope))
    case Ssls =>
      var plain := With(Omit(r, ["private_key"]), "id", Text(id));
      var full := match Find(source, "private_key") case Some(secret) => With(plain, "key", secret) case None => plain;
      With(full, "labels", Labels(source, scope))
    case _ => With(With(With(r, "id", Text(id)), "name", Text(id)), "labels", Labels(source, scope))
  }

  function Reference(r: Resource, field: string, source: Option<Value>, scope: Scope): Resource {
    match source case Some(Text(key)) => With(r, field, Text(GeneratedId(scope, key))) case _ => r
  }

  function Route(source: Resource, scope: Scope, index: nat): Resource {
    var id := GeneratedId(scope, SourceKey(source, index));
    var route := With(With(With(OmitSourceFields(source, ["key", "upstream", "plugin_config", "terminal"]),
                                "id", Text(id)), "name", Text(id)), "labels", Labels(source, scope));
    var served := if Find(source, "terminal") == Some(Flag(true)) then route
                  else Reference(With(route, "service_id", Text(ServiceId(scope))), "upstream_id", Find(source, "upstream"), scope);
    Reference(served, "plugin_config_id", Find(source, "plugin_config"), scope)
  }

  /** A list of objects; an absent list is empty, anything else is refused. */
  function ReadObjectList(v: Option<Value>): Option<seq<Resource>> {
    match v
    case None => Some([])
    case Some(List(items)) => if AllRecords(items) then Some(Objects(items)) else None
    case _ => None
  }

  predicate AllRecords(items: seq<Value>) { forall i :: 0 <= i < |items| ==> items[i].Record? }

  function Objects(items: seq<Value>): (objects: seq<Resource>)
    requires AllRecords(items)
    ensures |objects| == |items|
  {
    if items == [] then [] else Objects(items[..|items| - 1]) + [items[|items| - 1].entries]
  }

  function Materialized(kind: Kind, source: Resource, scope: Scope, index: nat): Resource {
    match kind
    case Services => Service(source, scope)
    case Routes => Route(source, scope, index)
    case _ => Keyed(kind, source, scope, index)
  }

  function MaterializeAll(kind: Kind, sources: seq<Resource>, scope: Scope): (r: seq<Resource>)
    ensures |r| == |sources|
  {
    if sources == [] then []
    else MaterializeAll(kind, sources[..|sources| - 1], scope) + [Materialized(kind, sources[|sources| - 1], scope, |sources| - 1)]
  }

  /** Where the manifest lists the sources of a kind. */
  function SourcesOf(kind: Kind, source: Resource): Option<seq<Resource>> {
    var service := match Find(source, "service") case Some(Record(entries)) => Some(entries) case _ => None;
    match kind
    case Services => Some(match service case Some(entries) => [entries] case None => [])
    case PluginConfigs => (match service case Some(entries) => ReadObjectList(Find(entries, "plugin_configs")) case None => Some([]))
    case Upstreams => ReadObjectList(Find(source, "upstreams"))
    case PluginMetadata => ReadObjectList(Find(source, "plugin_metadata"))
    case Routes => ReadObjectList(Find(source, "routes"))
    case Consumers => ReadObjectList(Find(source, "consumers"))
    case Ssls => ReadObjectList(Find(source, "ssls"))
  }

  function MaterializeManifest(source: Resource, scope: Scope): Option<Inventory> {
    if exists kind: Kind :: SourcesOf(kind, source).None? then None
    else Some(map kind: Kind | true :: MaterializeAll(kind, SourcesOf(kind, source).value, scope))
  }

  // ---- Every materialized resource belongs to its scope ----

  /** The identifiers a scope generates. */
  ghost predicate GeneratedFor(kind: Kind, scope: Scope, id: string) {
    match kind
    case PluginMetadata => true
    case Services => id == ServiceId(scope)
    case Consumers => exists key: string :: id == ConsumerName(scope, key)
    case _ => exists key: string :: id == GeneratedId(scope, key)
  }

  lemma LabelsCarryScope(r: Resource, source: Resource, scope: Scope)
    requires Find(r, "labels") == Some(Labels(source, scope))
    ensures RepoManaged(r) && InScope(r, scope) && !DynamicManaged(r)
  {
    var own := match Find(source, "labels") case Some(Record(labels)) => labels case _ => [];
    var one := With(own, "managed_by", Text(MANAGED_BY));
    var two := With(one, "source", Text(REPO_SOURCE));
    var three := With(two, "env", Text(scope.env));
    FindWith(own, "managed_by", Text(MANAGED_BY), "managed_by");
    FindWith(one, "source", Text(REPO_SOURCE), "managed_by");
    FindWith(one, "source", Text(REPO_SOURCE), "source");
    FindWith(two, "env", Text(scope.env), "managed_by");
    FindWith(two, "env", Text(scope.env), "source");
    FindWith(two, "env", Text(scope.env), "env");
    FindWith(three, "app", Text(scope.app), "managed_by");
    FindWith(three, "app", Text(scope.app), "source");
    FindWith(three, "app", Text(scope.app), "env");
    FindWith(three, "app", Text(scope.app), "app");
  }

  /** The last assignments decide what is found. */
  lemma FindLast(r: Resource, key: string, v: Value, tags: Value)
    requires key != "labels"
    ensures
      var w := With(With(r, key, v), "labels", tags);
      Find(w, key) == Some(v) && Find(w, "labels") == Some(tags)
  {
    FindWith(r, key, v, key);
    FindWith(With(r, key, v), "labels", tags, key);
    FindWith(With(r, key, v), "labels", tags, "labels");
  }

  lemma FindKept(r: Resource, key: string, v: Value, other: string)
    requires key != other
    ensures Find(With(r, key, v), other) == Find(r, other)
  {
    FindWith(r, key, v, other);
  }

  lemma {:induction false} OmittedIsGone(r: Resource, names: seq<string>, key: string)
    ensures Find(Omit(r, names), key) == if key in names then None else Find(r, key)
  {
    if r != [] {
      var init, last := r[..|r| - 1], r[|r| - 1];
      OmittedIsGone(init, names, key);
      if last.key !in names {
        assert Omit(r, names)[..|Omit(r, names)| - 1] == Omit(init, names);
      } else {
        assert Omit(r, names) == Omit(init, names);
      }
    }
  }

  lemma ReferenceKeeps(r: Resource, field: string, source: Option<Value>, scope: Scope, other: string)
    requires field != other
    ensures Find(Reference(r, field, source, scope), other) == Find(r, other)
  {
    match source {
      case Some(Text(key)) => FindKept(r, field, Text(GeneratedId(scope, key)), other);
      case _ =>
    }
  }

  lemma NamedIdentity(r: Resource, id: string, tags: Value)
    ensures
      var w := With(With(With(r, "id", Text(id)), "name", Text(id)), "labels", tags);
      Find(w, "id") == Some(Text(id)) && Find(w, "labels") == Some(tags)
  {
    FindWith(r, "id", Text(id), "id");
    FindKept(With(r, "id", Text(id)), "name", Text(id), "id");
    FindKept(With(With(r, "id", Text(id)), "name", Text(id)), "labels", tags, "id");
    FindWith(With(With(r, "id", Text(id)), "name", Text(id)), "labels", tags, "labels");
  }

  lemma RouteIdentity(source: Resource, scope: Scope, index: nat)
    ensures
      var w := Route(source, scope, index);
      Find(w, "id") == Some(Text(GeneratedId(scope, SourceKey(source, index)))) && Find(w, "labels") == Some(Labels(source, scope))
  {
    var id := GeneratedId(scope, SourceKey(source, index));
    var base := OmitSourceFields(source, ["key", "upstream", "plugin_config", "terminal"]);
    NamedIdentity(base, id, Labels(source, scope));
    RouteKeeps(source, scope, index, "id");
    RouteKeeps(source, scope, index, "labels");
  }

  /** The references a route gets do not touch its identity. */
  lemma RouteKeeps(source: Resource, scope: Scope, index: nat, other: string)
    requires other == "id" || other == "labels"
    ensures
      var id := GeneratedId(scope, SourceKey(source, index));
      var route := With(With(With(OmitSourceFields(source, ["key", "upstream", "plugin_config", "terminal"]),
                                  "id", Text(id)), "name", Text(id)), "labels", Labels(source, scope));
      Find(Route(source, scope, index), other) == Find(route, other)
  {
    var id := GeneratedId(scope, SourceKey(source, index));
    var route := With(With(With(OmitSourceFields(source, ["key", "upstream", "plugin_config", "terminal"]),
                                "id", Text(id)), "name", Text(id)), "labels", Labels(source, scope));
    var serviced := With(route, "service_id", Text(ServiceId(scope)));
    FindKept(route, "service_id", Text(ServiceId(scope)), other);
    ReferenceKeeps(serviced, "upstream_id", Find(source, "upstream"), scope, other);
    var served := if Find(source, "terminal") == Some(Flag(true)) then route
                  else Reference(serviced, "upstream_id", Find(source, "upstream"), scope);
    ReferenceKeeps(served, "plugin_config_id", Find(source, "plugin_config"), scope, other);
  }

  lemma SslIdentity(source: Resource, scope: Scope, index: nat)
    ensures
      var w := Keyed(Ssls, source, scope, index);
      Find(w, "id") == Some(Text(GeneratedId(scope, SourceKey(source, index)))) && Find(w, "labels") == Some(Labels(source, scope))
  {
    var id := GeneratedId(scope, SourceKey(source, index));
    var r := Omit(OmitSourceFields(source, ["key"]), ["private_key"]);
    var plain := With(r, "id", Text(id));
    FindWith(r, "id", Text(id), "id");
    var full := match Find(source, "private_key") case Some(secret) => With(plain, "key", secret) case None => plain;
    if Find(source, "private_key").Some? { FindKept(plain, "key", Find(source, "private_key").value, "id"); }
    FindKept(full, "labels", Labels(source, scope), "id");
    FindWith(full, "labels", Labels(source, scope), "labels");
  }

  function OwnId(kind: Kind, source: Resource, scope: Scope, index: nat): string {
    match kind
    case Services => ServiceId(scope)
    case Consumers => ConsumerName(scope, SourceKey(source, index))
    case PluginMetadata => SourceKey(source, index)
    case _ => GeneratedId(scope, SourceKey(source, index))
  }

  lemma OwnIdIsGenerated(kind: Kind, source: Resource, scope: Scope, index: nat)
    ensures GeneratedFor(kind, scope, OwnId(kind, source, scope, index))
  {}

  lemma ConsumerIdentity(source: Resource, scope: Scope, index: nat)
    ensures
      var r := Keyed(Consumers, source, scope, index);
      ResourceId(Consumers, r) == Some(ConsumerName(scope, SourceKey(source, index))) && Find(r, "labels") == Some(Labels(source, scope))
  {
    FindLast(OmitSourceFields(source, ["key"]), "username", Text(ConsumerName(scope, SourceKey(source, index))), Labels(source, scope));
  }

  lemma KeyedIdentity(kind: Kind, source: Resource, scope: Scope, index: nat)
    requires kind.Upstreams? || kind.PluginConfigs? || kind.PluginMetadata?
    ensures
      var r := Keyed(kind, source, scope, index);
      Find(r, "id") == Some(Text(OwnId(kind, source, scope, index))) && Find(r, "labels") == Some(Labels(source, scope))
  {
    NamedIdentity(OmitSourceFields(source, ["key"]), OwnId(kind, source, scope, index), Labels(source, scope));
  }

  lemma MaterializedIdentity(kind: Kind, source: Resource, scope: Scope, index: nat)
    ensures
      var r := Materialized(kind, source, scope, index);
      ResourceId(kind, r) == Some(OwnId(kind, source, scope, index)) && Find(r, "labels") == Some(Labels(source, scope))
  {
    match kind {
      case Services => NamedIdentity(OmitSourceFields(source, ["key", "plugin_configs"]), ServiceId(scope), Labels(source, scope));
      case Routes => RouteIdentity(source, scope, index);
      case Consumers => ConsumerIdentity(source, scope, index);
      case Ssls => SslIdentity(source, scope, index);
      case _ => KeyedIdentity(kind, source, scope, index);
    }
  }

  /** Whatever the source says, a materialized resource has an identifier its scope
      generates, and labels that make it managed by the repository in that scope. */
  lemma MaterializedBelongs(kind: Kind, source: Resource, scope: Scope, index: nat)
    ensures
      var r := Materialized(kind, source, scope, index);
      && RepoManaged(r) && InScope(r, scope) && !DynamicManaged(r)
      && ResourceId(kind, r).Some? && GeneratedFor(kind, scope, ResourceId(kind, r).value)
  {
    MaterializedIdentity(kind, source, scope, index);
    OwnIdIsGenerated(kind, source, scope, index);
    LabelsCarryScope(Materialized(kind, source, scope, index), source, scope);
  }

  lemma {:induction false} DesiredBelongs(kind: Kind, sources: seq<Resource>, scope: Scope, id: string)
    requires id in ById(kind, MaterializeAll(kind, sources, scope))
    ensures GeneratedFor(kind, scope, id)
  {
    var all := MaterializeAll(kind, sources, scope);
    var init := sources[..|sources| - 1];
    assert all[..|all| - 1] == MaterializeAll(kind, init, scope);
    MaterializedBelongs(kind, sources[|sources| - 1], scope, |sources| - 1);
    if ResourceId(kind, all[|all| - 1]) != Some(id) { DesiredBelongs(kind, init, scope, id); }
  }

  // ---- Scopes leave each other alone ----

  lemma GeneratedForOne(kind: Kind, a: Scope, b: Scope, id: string)
    requires ValidScope(a) && ValidScope(b) && a != b && !kind.PluginMetadata?
    requires GeneratedFor(kind, b, id)
    ensures !GeneratedFor(kind, a, id)
  {
    match kind {
      case Services => IdsAreInjective(a, b, "", "");
      case Consumers =>
        var l :| id == ConsumerName(b, l);
        forall k ensures id != ConsumerName(a, k) { IdsAreInjective(a, b, k, l); }
      case PluginMetadata =>
      case Upstreams | PluginConfigs | Ssls | Routes =>
        var l :| id == GeneratedId(b, l);
        forall k ensures id != GeneratedId(a, k) { IdsAreInjective(a, b, k, l); }
    }
  }

  // ---- Resources stay JSON objects: every key once ----

  lemma AppendProper(r: Resource, e: Entry)
    requires ProperResource(r) && Proper(e.value) && Find(r, e.key).None?
    ensures ProperResource(r + [e])
  {
    FindAbsent(r, e.key);
  }

  lemma InitProper(r: Resource)
    requires ProperResource(r) && r != []
    ensures ProperResource(r[..|r| - 1]) && Proper(r[|r| - 1].value) && Find(r[..|r| - 1], r[|r| - 1].key).None?
  {
    FindAbsent(r[..|r| - 1], r[|r| - 1].key);
  }

  lemma {:induction false} WithProper(r: Resource, key: string, v: Value)
    requires ProperResource(r) && Proper(v)
    ensures ProperResource(With(r, key, v))
  {
    if r != [] {
      var init, last := r[..|r| - 1], r[|r| - 1];
      InitProper(r);
      if last.key == key {
        AppendProper(init, Entry(key, v));
      } else if Find(r, key).None? {
        AppendProper(r, Entry(key, v));
      } else {
        WithProper(init, key, v);
        FindWith(init, key, v, last.key);
        AppendProper(With(init, key, v), last);
      }
    }
  }

  lemma {:induction false} OmitProper(r: Resource, names: seq<string>)
    requires ProperResource(r)
    ensures ProperResource(Omit(r, names))
  {
    if r != [] {
      var init, last := r[..|r| - 1], r[|r| - 1];
      InitProper(r);
      OmitProper(init, names);
      if last.key !in names {
        OmittedIsGone(init, names, last.key);
        AppendProper(Omit(init, names), last);
      }
    }
  }

  lemma {:induction false} FoundProper(r: Resource, key: string)
    requires ProperResource(r)
    ensures Find(r, key).Some? ==> Proper(Find(r, key).value)
  {
    if r != [] {
      InitProper(r);
      FoundProper(r[..|r| - 1], key);
    }
  }

  lemma LabelsProper(source: Resource, scope: Scope)
    requires ProperResource(source)
    ensures Proper(Labels(source, scope))
  {
    FoundProper(source, "labels");
    var own := match Find(source, "labels") case Some(Record(labels)) => labels case _ => [];
    var one := With(own, "managed_by", Text(MANAGED_BY));
    var two := With(one, "source", Text(REPO_SOURCE));
    var three := With(two, "env", Text(scope.env));
    WithProper(own, "managed_by", Text(MANAGED_BY));
    WithProper(one, "source", Text(REPO_SOURCE));
    WithProper(two, "env", Text(scope.env));
    WithProper(three, "app", Text(scope.app));
  }

  lemma NamedProper(r: Resource, id: string, source: Resource, scope: Scope)
    requires ProperResource(r) && ProperResource(source)
    ensures ProperResource(With(With(With(r, "id", Text(id)), "name", Text(id)), "labels", Labels(source, scope)))
  {
    LabelsProper(source, scope);
    WithProper(r, "id", Text(id));
    WithProper(With(r, "id", Text(id)), "name", Text(id));
    WithProper(With(With(r, "id", Text(id)), "name", Text(id)), "labels", Labels(source, scope));
  }

  lemma ReferenceProper(r: Resource, field: string, source: Option<Value>, scope: Scope)
    requires ProperResource(r)
    ensures ProperResource(Reference(r, field, source, scope))
  {
    match source {
      case Some(Text(key)) => WithProper(r, field, Text(GeneratedId(scope, key)));
      case _ =>
    }
  }

  lemma RouteProper(source: Resource, scope: Scope, index: nat)
    requires ProperResource(source)
    ensures ProperResource(Route(source, scope, index))
  {
    var id := GeneratedId(scope, SourceKey(source, index));
    var base := OmitSourceFields(source, ["key", "upstream", "plugin_config", "terminal"]);
    OmitProper(source, GENERATED_FIELDS + ["key", "upstream", "plugin_config", "terminal"] + ["labels"]);
    NamedProper(base, id, source, scope);
    var route := With(With(With(base, "id", Text(id)), "name", Text(id)), "labels", Labels(source, scope));
    var serviced := With(route, "service_id", Text(ServiceId(scope)));
    WithProper(route, "service_id", Text(ServiceId(scope)));
    ReferenceProper(serviced, "upstream_id", Find(source, "upstream"), scope);
    var served := if Find(source, "terminal") == Some(Flag(true)) then route
                  else Reference(serviced, "upstream_id", Find(source, "upstream"), scope);
    ReferenceProper(served, "plugin_config_id", Find(source, "plugin_config"), scope);
  }

  lemma SslProper(source: Resource, scope: Scope, index: nat)
    requires ProperResource(source)
    ensures ProperResource(Keyed(Ssls, source, scope, index))
  {
    var id := GeneratedId(scope, SourceKey(source, index));
    OmitProper(source, GENERATED_FIELDS + ["key"] + ["labels"]);
    var r := OmitSourceFields(source, ["key"]);
    OmitProper(r, ["private_key"]);
    var plain := With(Omit(r, ["private_key"]), "id", Text(id));
    WithProper(Omit(r, ["private_key"]), "id", Text(id));
    FoundProper(source, "private_key");
    if Find(source, "private_key").Some? { WithProper(plain, "key", Find(source, "private_key").value); }
    var full := match Find(source, "private_key") case Some(secret) => With(plain, "key", secret) case None => plain;
    LabelsProper(source, scope);
    WithProper(full, "labels", Labels(source, scope));
  }

  lemma MaterializedProper(kind: Kind, source: Resource, scope: Scope, index: nat)
    requires ProperResource(source)
    ensures ProperResource(Materialized(kind, source, scope, index))
  {
    var key := SourceKey(source, index);
    OmitProper(source, GENERATED_FIELDS + ["key"] + ["labels"]);
    OmitProper(source, GENERATED_FIELDS + ["key", "plugin_configs"] + ["labels"]);
    var r := OmitSourceFields(source, ["key"]);
    match kind {
      case Services => NamedProper(OmitSourceFields(source, ["key", "plugin_configs"]), ServiceId(scope), source, scope);
      case Routes => RouteProper(source, scope, index);
      case Ssls => SslProper(source, scope, index);
      case Consumers =>
        LabelsProper(source, scope);
        WithProper(r, "username", Text(ConsumerName(scope, key)));
        WithProper(With(r, "username", Text(ConsumerName(scope, key))), "labels", Labels(source, scope));
      case PluginMetadata => NamedProper(r, key, source, scope);
      case _ => NamedProper(r, GeneratedId(scope, key), source, scope);
    }
  }

  lemma {:induction false} ObjectsProper(items: seq<Value>, i: nat)
    requires AllRecords(items) && i < |items| && forall k :: 0 <= k < |items| ==> Proper(items[k])
    ensures ProperResource(Objects(items)[i])
  {
    if i < |items| - 1 { ObjectsProper(items[..|items| - 1], i); }
  }

  lemma ReadProper(v: Option<Value>, i: nat)
    requires v.Some? ==> Proper(v.value)
    requires ReadObjectList(v).Some? && i < |ReadObjectList(v).value|
    ensures ProperResource(ReadObjectList(v).value[i])
  {
    if v.Some? { ObjectsProper(v.value.items, i); }
  }

  lemma SourcesProper(kind: Kind, source: Resource, i: nat)
    requires ProperResource(source) && SourcesOf(kind, source).Some? && i < |SourcesOf(kind, source).value|
    ensures ProperResource(SourcesOf(kind, source).value[i])
  {
    forall key ensures Find(source, key).Some? ==> Proper(Find(source, key).value) { FoundProper(source, key); }
    match kind {
      case Services =>
      case PluginConfigs =>
        var entries := Find(source, "service").value.entries;
        FoundProper(entries, "plugin_configs");
        ReadProper(Find(entries, "plugin_configs"), i);
      case Upstreams => ReadProper(Find(source, "upstreams"), i);
      case PluginMetadata => ReadProper(Find(source, "plugin_metadata"), i);
      case Routes => ReadProper(Find(source, "routes"), i);
      case Consumers => ReadProper(Find(source, "consumers"), i);
      case Ssls => ReadProper(Find(source, "ssls"), i);
    }
  }

  lemma {:induction false} IndexedElement(kind: Kind, resources: seq<Resource>, id: string) returns (i: nat)
    requires id in ById(kind, resources)
    ensures i < |resources| && ById(kind, resources)[id] == resources[i]
  {
    i := |resources| - 1;
    if id == "" || ResourceId(kind, resources[i]) != Some(id) { i := IndexedElement(kind, resources[..i], id); }
  }

  lemma {:induction false} MaterializedAt(kind: Kind, sources: seq<Resource>, scope: Scope, i: nat)
    requires i < |sources|
    ensures MaterializeAll(kind, sources, scope)[i] == Materialized(kind, sources[i], scope, i)
  {
    if i < |sources| - 1 { MaterializedAt(kind, sources[..|sources| - 1], scope, i); }
  }

  ghost predicate Scoped(r: Resource, scope: Scope) { ProperResource(r) && InScope(r, scope) }

  lemma MaterializedScoped(kind: Kind, source: Resource, scope: Scope, index: nat)
    requires ProperResource(source)
    ensures Scoped(Materialized(kind, source, scope, index), scope)
  {
    MaterializedBelongs(kind, source, scope, index);
    MaterializedProper(kind, source, scope, index);
  }

  /** What a manifest desires under an identifier belongs to its scope. */
  lemma DesiredIsScoped(kind: Kind, sources: seq<Resource>, scope: Scope, id: string)
    requires id in ById(kind, MaterializeAll(kind, sources, scope))
    requires forall i :: 0 <= i < |sources| ==> ProperResource(sources[i])
    ensures Scoped(ById(kind, MaterializeAll(kind, sources, scope))[id], scope)
  {
    var i := IndexedElement(kind, MaterializeAll(kind, sources, scope), id);
    MaterializedAt(kind, sources, scope, i);
    MaterializedScoped(kind, sources[i], scope, i);
  }

  /** Resources that the planner cannot tell apart carry the same labels. */
  lemma RelevantLabels(kind: Kind, r: Resource, s: Resource, name: string)
    requires Relevant(kind, r, "labels") == Relevant(kind, s, "labels")
    ensures LabelOf(r, name) == LabelOf(s, name)
  {
    assert forall v :: !Skipped(kind, Entry("labels", v));
    match (Find(r, "labels"), Find(s, "labels")) {
      case (Some(Record(own)), Some(Record(other))) =>
        FieldsAreFound(own, name);
        FieldsAreFound(other, name);
      case _ =>
    }
  }

  /** The planner can tell resources of two scopes apart, by their labels. */
  lemma ScopesDiffer(kind: Kind, r: Resource, s: Resource, a: Scope, b: Scope)
    requires Scoped(r, a) && Scoped(s, b) && a != b
    ensures !Same(kind, r, s)
  {
    ComparesRelevantFields(kind, r, s);
    if Same(kind, r, s) {
      RelevantLabels(kind, r, s, "env");
      RelevantLabels(kind, r, s, "app");
    }
  }

  lemma WrittenIsScoped(server: (Kind, Resource) -> Resource, kind: Kind, desired: Resource, scope: Scope)
    requires StoresFaithfully(server) && Scoped(desired, scope)
    ensures InScope(server(kind, desired), scope)
  {
    assert Relevant(kind, server(kind, desired), "labels") == Relevant(kind, desired, "labels");
    RelevantLabels(kind, server(kind, desired), desired, "env");
    RelevantLabels(kind, server(kind, desired), desired, "app");
  }

  // ---- What a plan of one scope does to another ----

  /** Metadata of a plugin that the manifest names too. */
  predicate Shares(manifest: Inventory, kind: Kind, id: string) {
    kind.PluginMetadata? && id in ById(kind, Listed(manifest, kind))
  }

  /** Planning for one scope ignores every generated resource of another; plugin metadata,
      whose identifiers are the plugins' own names, it overwrites when its own manifest names
      the same plugin. */
  lemma ScopesDoNotInterfere(source: Resource, a: Scope, b: Scope, remote: Inventory, kind: Kind, id: string)
    requires ValidScope(a) && ValidScope(b) && a != b && MaterializeManifest(source, a).Some?
    requires id in ById(kind, Listed(remote, kind)) && GeneratedFor(kind, b, id)
    requires
      var r := ById(kind, Listed(remote, kind))[id];
      RepoManaged(r) && InScope(r, b) && !DynamicManaged(r)
    ensures
      var manifest := MaterializeManifest(source, a).value;
      Fates(manifest, remote, a, kind, id) == Ignore(OutOfScope) <==> !Shares(manifest, kind, id)
    ensures
      var manifest := MaterializeManifest(source, a).value;
      ProperResource(source) && ProperResource(ById(kind, Listed(remote, kind))[id]) ==>
      (Fates(manifest, remote, a, kind, id) == Update <==> Shares(manifest, kind, id))
  {
    var manifest := MaterializeManifest(source, a).value;
    if id in ById(kind, Listed(manifest, kind)) {
      if kind.PluginMetadata? {
        if !ProperResource(source) || !ProperResource(ById(kind, Listed(remote, kind))[id]) { return; }
        DesiredOf(source, a, kind, id);
        ScopesDiffer(kind, ById(kind, Listed(manifest, kind))[id], ById(kind, Listed(remote, kind))[id], a, b);
      } else {
        DesiredBelongs(kind, SourcesOf(kind, source).value, a, id);
        GeneratedForOne(kind, a, b, id);
      }
    }
  }

  lemma DesiredOf(source: Resource, scope: Scope, kind: Kind, id: string)
    requires ProperResource(source) && MaterializeManifest(source, scope).Some?
    requires id in ById(kind, Listed(MaterializeManifest(source, scope).value, kind))
    ensures
      Scoped(ById(kind, Listed(MaterializeManifest(source, scope).value, kind))[id], scope)
  {
    forall i | 0 <= i < |SourcesOf(kind, source).value| ensures ProperResource(SourcesOf(kind, source).value[i]) {
      SourcesProper(kind, source, i);
    }
    DesiredIsScoped(kind, SourcesOf(kind, source).value, scope, id);
  }

  /** Carrying out one scope's plan leaves another scope's resource as it is exactly when it is
      not metadata of a plugin that the manifest names; such metadata passes to the scope that
      wrote last. */
  lemma OtherScopeIsUntouched(source: Resource, a: Scope, b: Scope, remote: Inventory, plan: Plan, g: Gateway,
                              server: (Kind, Resource) -> Resource, writes: seq<Write>, removals: seq<Removal>, kind: Kind, id: string)
    requires ValidScope(a) && ValidScope(b) && a != b && MaterializeManifest(source, a).Some?
    requires Faithful(plan, Task(MaterializeManifest(source, a).value, remote, a, RESOURCE_KINDS, {}))
    requires Reports(remote, g) && Executes(plan, writes, removals)
    requires (kind, id) in g && GeneratedFor(kind, b, id)
    requires RepoManaged(g[(kind, id)]) && InScope(g[(kind, id)], b) && !DynamicManaged(g[(kind, id)])
    ensures
      var after := Applied(g, server, writes, removals);
      && (kind, id) in after
      && (!Shares(MaterializeManifest(source, a).value, kind, id) ==> after[(kind, id)] == g[(kind, id)])
    ensures
      var after := Applied(g, server, writes, removals);
      var shared := Shares(MaterializeManifest(source, a).value, kind, id);
      ProperResource(source) && ProperResource(g[(kind, id)]) && StoresFaithfully(server) ==>
      && (after[(kind, id)] == g[(kind, id)] <==> !shared)
      && (InScope(after[(kind, id)], a) <==> shared)
      && (InScope(after[(kind, id)], b) <==> !shared)
  {
    var manifest := MaterializeManifest(source, a).value;
    ScopesDoNotInterfere(source, a, b, remote, kind, id);
    OutcomeAt(manifest, remote, a, plan, g, server, writes, removals, kind, id);
    if Shares(manifest, kind, id) && ProperResource(source) && ProperResource(g[(kind, id)]) && StoresFaithfully(server) {
      DesiredOf(source, a, kind, id);
      WrittenIsScoped(server, kind, ById(kind, Listed(manifest, kind))[id], a);
    }
  }

  /** A manifest that lists the metadata of one plugin and nothing else. */
  function OnePlugin(plugin: string): Resource {
    [Entry("plugin_metadata", List([Record([Entry("key", Text(plugin))])]))]
  }

  lemma FindSingle(e: Entry, key: string)
    ensures Find([e], key) == if e.key == key then Some(e.value) else None
  {
    assert [e][..0] == [];
  }

  lemma OnePluginSources(plugin: string, kind: Kind)
    ensures SourcesOf(kind, OnePlugin(plugin)) == Some(if kind.PluginMetadata? then [[Entry("key", Text(plugin))]] else [])
  {
    var item := [Entry("key", Text(plugin))];
    forall key ensures Find(OnePlugin(plugin), key) == if key == "plugin_metadata" then Some(List([Record(item)])) else None {
      FindSingle(OnePlugin(plugin)[0], key);
    }
    assert [Record(item)][..0] == [];
    assert Objects([Record(item)]) == [item];
  }

  lemma SingleById(kind: Kind, r: Resource, id: string)
    requires ResourceId(kind, r) == Some(id) && id != ""
    ensures ById(kind, [r]) == map[id := r]
  {
    assert [r][..0] == [];
  }

  lemma OnePluginId(plugin: string, scope: Scope)
    ensures ResourceId(PluginMetadata, Materialized(PluginMetadata, [Entry("key", Text(plugin))], scope, 0)) == Some(plugin)
  {
    var item := [Entry("key", Text(plugin))];
    FindSingle(item[0], "key");
    NamedIdentity(OmitSourceFields(item, ["key"]), plugin, Labels(item, scope));
  }

  lemma OnePluginDesired(plugin: string, scope: Scope)
    requires plugin != ""
    ensures MaterializeManifest(OnePlugin(plugin), scope).Some?
    ensures
      ById(PluginMetadata, Listed(MaterializeManifest(OnePlugin(plugin), scope).value, PluginMetadata)) ==
      map[plugin := Materialized(PluginMetadata, [Entry("key", Text(plugin))], scope, 0)]
  {
    var item := [Entry("key", Text(plugin))];
    var r := Materialized(PluginMetadata, item, scope, 0);
    forall kind ensures SourcesOf(kind, OnePlugin(plugin)).Some? { OnePluginSources(plugin, kind); }
    OnePluginSources(plugin, PluginMetadata);
    assert [item][..0] == [];
    assert MaterializeAll(PluginMetadata, [item], scope) == [r];
    OnePluginId(plugin, scope);
    SingleById(PluginMetadata, r, plugin);
  }

  /** It happens: with the metadata of one plugin in both manifests, whatever the plugin and
      the scopes, planning for the one overwrites what the other has written. */
  lemma SharedPluginIsOverwritten(plugin: string, a: Scope, b: Scope)
    requires ValidScope(a) && ValidScope(b) && a != b && plugin != ""
    ensures MaterializeManifest(OnePlugin(plugin), a).Some? && MaterializeManifest(OnePlugin(plugin), b).Some?
    ensures
      Fates(MaterializeManifest(OnePlugin(plugin), a).value, MaterializeManifest(OnePlugin(plugin), b).value, a,
            PluginMetadata, plugin) == Update
  {
    var item := [Entry("key", Text(plugin))];
    OnePluginDesired(plugin, a);
    OnePluginDesired(plugin, b);
    MaterializedScoped(PluginMetadata, item, a, 0);
    MaterializedScoped(PluginMetadata, item, b, 0);
    DifferentScopesUpdate(PluginMetadata, plugin, Materialized(PluginMetadata, item, a, 0), Materialized(PluginMetadata, item, b, 0), a, b);
  }

  lemma DifferentScopesUpdate(kind: Kind, id: string, r: Resource, s: Resource, a: Scope, b: Scope)
    requires Scoped(r, a) && Scoped(s, b) && a != b
    ensures FateOf(kind, map[id := r], map[id := s], a, id) == Update
  {
    ScopesDiffer(kind, r, s, a, b);
    FateOfDesired(kind, map[id := r], map[id := s], a, id);
  }

  // ---- Two scopes taking turns ----

  /** One planning run and the way it was carried out. */
  datatype Round = Round(remote: Inventory, plan: Plan, writes: seq<Write>, removals: seq<Removal>)

  ghost predicate CarriedOut(manifest: Inventory, scope: Scope, r: Round, g: Gateway, server: (Kind, Resource) -> Resource,
                             after: Gateway)
  {
    && Reports(r.remote, g) && Faithful(r.plan, Task(manifest, r.remote, scope, RESOURCE_KINDS, {}))
    && Executes(r.plan, r.writes, r.removals) && after == Applied(g, server, r.writes, r.removals)
  }

  lemma SameScope(kind: Kind, r: Resource, s: Resource, scope: Scope)
    requires Scoped(r, scope) && ProperResource(s) && Same(kind, r, s)
    ensures Scoped(s, scope)
  {
    ComparesRelevantFields(kind, r, s);
    RelevantLabels(kind, r, s, "env");
    RelevantLabels(kind, r, s, "app");
  }

  lemma ScopesExclude(r: Resource, a: Scope, b: Scope)
    requires Scoped(r, a) && a != b
    ensures !OwnedBy(r, b)
  {}

  /** What one scope's round leaves of a resource it desires. */
  lemma DesiredAfterRound(manifest: Inventory, scope: Scope, r: Round, g: Gateway, server: (Kind, Resource) -> Resource,
                          after: Gateway, kind: Kind, id: string)
    requires CarriedOut(manifest, scope, r, g, server, after) && StoresFaithfully(server)
    requires id in ById(kind, Listed(manifest, kind)) && Scoped(ById(kind, Listed(manifest, kind))[id], scope)
    requires (kind, id) in g ==> ProperResource(g[(kind, id)])
    ensures (kind, id) in after && Scoped(after[(kind, id)], scope)
    ensures Same(kind, ById(kind, Listed(manifest, kind))[id], after[(kind, id)])
  {
    var desired := ById(kind, Listed(manifest, kind));
    FateOfDesired(kind, desired, ById(kind, Listed(r.remote, kind)), scope, id);
    OutcomeAt(manifest, r.remote, scope, r.plan, g, server, r.writes, r.removals, kind, id);
    StoredIsSame(kind, desired[id], server);
    SameScope(kind, desired[id], after[(kind, id)], scope);
  }

  /** And of a resource it does not desire: nothing of its own. */
  lemma OtherAfterRound(manifest: Inventory, scope: Scope, r: Round, g: Gateway, server: (Kind, Resource) -> Resource,
                        after: Gateway, kind: Kind, id: string)
    requires CarriedOut(manifest, scope, r, g, server, after) && id !in ById(kind, Listed(manifest, kind))
    ensures (kind, id) in after <==> (kind, id) in g && !OwnedBy(g[(kind, id)], scope)
    ensures (kind, id) in after ==> after[(kind, id)] == g[(kind, id)]
  {
    FateOfOther(kind, ById(kind, Listed(manifest, kind)), ById(kind, Listed(r.remote, kind)), scope, id);
    OutcomeAt(manifest, r.remote, scope, r.plan, g, server, r.writes, r.removals, kind, id);
  }

  /** Everything a manifest desires is its scope's. */
  ghost predicate Belongs(manifest: Inventory, scope: Scope, kind: Kind, id: string) {
    id in ById(kind, Listed(manifest, kind)) ==> Scoped(ById(kind, Listed(manifest, kind))[id], scope)
  }

  predicate Common(first: Inventory, second: Inventory, kind: Kind, id: string) {
    id in ById(kind, Listed(first, kind)) && id in ById(kind, Listed(second, kind))
  }

  /** The fate of an identifier that scope a desires, when it plans again after both rounds. */
  lemma DesiredAfterBoth(first: Inventory, second: Inventory, a: Scope, b: Scope, one: Round, two: Round,
                         g: Gateway, mid: Gateway, end: Gateway, server: (Kind, Resource) -> Resource, later: Inventory,
                         kind: Kind, id: string)
    requires a != b && StoresFaithfully(server) && Belongs(first, a, kind, id) && Belongs(second, b, kind, id)
    requires CarriedOut(first, a, one, g, server, mid) && CarriedOut(second, b, two, mid, server, end)
    requires Reports(later, end) && ((kind, id) in g ==> ProperResource(g[(kind, id)]))
    requires id in ById(kind, Listed(first, kind))
    ensures Fates(first, later, a, kind, id) == if Common(first, second, kind, id) then Update else Keep
  {
    var desired := ById(kind, Listed(first, kind));
    DesiredAfterRound(first, a, one, g, server, mid, kind, id);
    if Common(first, second, kind, id) {
      DesiredAfterRound(second, b, two, mid, server, end, kind, id);
      ScopesDiffer(kind, desired[id], end[(kind, id)], a, b);
    } else {
      OtherAfterRound(second, b, two, mid, server, end, kind, id);
      ScopesExclude(mid[(kind, id)], a, b);
    }
    FateOfDesired(kind, desired, ById(kind, Listed(later, kind)), a, id);
  }

  /** And of one that it does not desire: nothing is planned. */
  lemma OtherAfterBoth(first: Inventory, second: Inventory, a: Scope, b: Scope, one: Round, two: Round,
                       g: Gateway, mid: Gateway, end: Gateway, server: (Kind, Resource) -> Resource, later: Inventory,
                       kind: Kind, id: string)
    requires a != b && StoresFaithfully(server) && Belongs(second, b, kind, id)
    requires CarriedOut(first, a, one, g, server, mid) && CarriedOut(second, b, two, mid, server, end)
    requires Reports(later, end) && ((kind, id) in g ==> ProperResource(g[(kind, id)]))
    requires id !in ById(kind, Listed(first, kind))
    ensures Fates(first, later, a, kind, id).Ignore? || Fates(first, later, a, kind, id).Absent?
  {
    OtherAfterRound(first, a, one, g, server, mid, kind, id);
    if id in ById(kind, Listed(second, kind)) {
      DesiredAfterRound(second, b, two, mid, server, end, kind, id);
      ScopesExclude(end[(kind, id)], b, a);
    } else {
      OtherAfterRound(second, b, two, mid, server, end, kind, id);
    }
    FateOfOther(kind, ById(kind, Listed(first, kind)), ById(kind, Listed(later, kind)), a, id);
  }

  /** Planning the first scope again after both rounds changes exactly what both desire. */
  lemma AgainPlansCommon(first: Inventory, second: Inventory, a: Scope, b: Scope, one: Round, two: Round,
                         g: Gateway, mid: Gateway, end: Gateway, server: (Kind, Resource) -> Resource,
                         later: Inventory, again: Plan)
    requires a != b && StoresFaithfully(server)
    requires forall kind, id :: Belongs(first, a, kind, id) && Belongs(second, b, kind, id)
    requires CarriedOut(first, a, one, g, server, mid) && CarriedOut(second, b, two, mid, server, end)
    requires Reports(later, end) && forall k :: k in g ==> ProperResource(g[k])
    requires Faithful(again, Task(first, later, a, RESOURCE_KINDS, {}))
    ensures again.creates == [] && again.deletes == []
    ensures again.updates == [] <==> forall kind, id :: !Common(first, second, kind, id)
  {
    var t := Task(first, later, a, RESOURCE_KINDS, {});
    forall kind, id
      ensures FateIn(t, kind, id).Update? <==> Common(first, second, kind, id)
      ensures !FateIn(t, kind, id).Create? && !FateIn(t, kind, id).Delete?
    {
      assert Belongs(first, a, kind, id) && Belongs(second, b, kind, id);
      if id in ById(kind, Listed(first, kind)) {
        DesiredAfterBoth(first, second, a, b, one, two, g, mid, end, server, later, kind, id);
      } else {
        OtherAfterBoth(first, second, a, b, one, two, g, mid, end, server, later, kind, id);
      }
    }
    NoMembers(again.creates);
    NoMembers(again.updates);
    NoMembers(again.deletes);
    if kind, id :| Common(first, second, kind, id) {
      var w := Write(kind, id, ById(kind, Listed(first, kind))[id]);
      EveryKindIsPlanned(kind, id);
      assert FateIn(t, w.kind, w.id).Update? && Wanted(t, w) && w in again.updates;
    }
  }

  /** Only metadata of a common plugin is desired by two scopes. */
  lemma OnlyPluginsAreCommon(first: Resource, second: Resource, a: Scope, b: Scope, kind: Kind, id: string)
    requires ValidScope(a) && ValidScope(b) && a != b
    requires MaterializeManifest(first, a).Some? && MaterializeManifest(second, b).Some?
    requires Common(MaterializeManifest(first, a).value, MaterializeManifest(second, b).value, kind, id)
    ensures kind.PluginMetadata?
  {
    DesiredBelongs(kind, SourcesOf(kind, first).value, a, id);
    DesiredBelongs(kind, SourcesOf(kind, second).value, b, id);
    if !kind.PluginMetadata? { GeneratedForOne(kind, a, b, id); }
  }

  /** Two scopes in turn: after the first and then the second have been carried out, planning the
      first again creates and deletes nothing, and updates nothing exactly when no plugin is in
      both manifests; otherwise they overwrite each other at every turn. */
  lemma TurnsConvergeExactly(first: Resource, second: Resource, a: Scope, b: Scope, one: Round, two: Round,
                             g: Gateway, mid: Gateway, end: Gateway, server: (Kind, Resource) -> Resource,
                             later: Inventory, again: Plan)
    requires ValidScope(a) && ValidScope(b) && a != b && ProperResource(first) && ProperResource(second)
    requires MaterializeManifest(first, a).Some? && MaterializeManifest(second, b).Some? && StoresFaithfully(server)
    requires CarriedOut(MaterializeManifest(first, a).value, a, one, g, server, mid)
    requires CarriedOut(MaterializeManifest(second, b).value, b, two, mid, server, end)
    requires Reports(later, end) && forall k :: k in g ==> ProperResource(g[k])
    requires Faithful(again, Task(MaterializeManifest(first, a).value, later, a, RESOURCE_KINDS, {}))
    ensures again.creates == [] && again.deletes == []
    ensures again.updates == [] <==>
      forall id :: !Common(MaterializeManifest(first, a).value, MaterializeManifest(second, b).value, PluginMetadata, id)
  {
    var mine, theirs := MaterializeManifest(first, a).value, MaterializeManifest(second, b).value;
    forall kind, id ensures Belongs(mine, a, kind, id) && Belongs(theirs, b, kind, id) {
      if id in ById(kind, Listed(mine, kind)) { DesiredOf(first, a, kind, id); }
      if id in ById(kind, Listed(theirs, kind)) { DesiredOf(second, b, kind, id); }
    }
    AgainPlansCommon(mine, theirs, a, b, one, two, g, mid, end, server, later, again);
    forall kind, id | Common(mine, theirs, kind, id) ensures kind.PluginMetadata? {
      OnlyPluginsAreCommon(first, second, a, b, kind, id);
    }
  }
}
