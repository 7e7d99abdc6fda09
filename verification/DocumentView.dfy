// The SQL view that a client's search runs over, and the projection that its responses
// are built from (packages/user-document/src/document-query.ts, document.ts;
// packages/contracts/src/document.ts).
module DocumentView {
  import opened Json
  import opened FilterStructure
  import opened FilterCompiler
  import opened FilterMeaning

  // ---- Stored documents and their projection for one client ----

  datatype Authorization = Authorization(clientCode: string, roleCodes: seq<string>)

  datatype StoredEmployment = StoredEmployment(
    isPrimary: bool, organization: Json, position: Json, responsibilities: Json,
    clientAuthorizations: seq<Authorization>)

  datatype Employment = Employment(
    isPrimary: bool, organization: Json, position: Json, responsibilities: Json, roles: seq<string>)

  datatype Person = Person(
    subjectIdentifier: string, username: string, name: string,
    mobile: Option<string>, wxId: Option<string>, userType: Json, status: Json)

  datatype StoredUser = StoredUser(person: Person, employments: seq<StoredEmployment>)
  datatype UserDocument = UserDocument(person: Person, employments: seq<Employment>)

  /** filter and flatMap over the authorizations of one employment. */
  function ClientRoles(authorizations: seq<Authorization>, clientCode: string): seq<string> {
    if authorizations == [] then [] else
      var last := authorizations[|authorizations| - 1];
      ClientRoles(authorizations[..|authorizations| - 1], clientCode)
      + if last.clientCode == clientCode then last.roleCodes else []
  }

  function ProjectEmployment(e: StoredEmployment, clientCode: string): Employment {
    Employment(e.isPrimary, e.organization, e.position, e.responsibilities,
               ClientRoles(e.clientAuthorizations, clientCode))
  }

  /** What is handed to the response schema. */
  function ProjectUserDocument(u: StoredUser, clientCode: string): UserDocument {
    UserDocument(u.person, seq(|u.employments|, i requires 0 <= i < |u.employments| =>
      ProjectEmployment(u.employments[i], clientCode)))
  }

  // ---- Their JSON ----

  function Strings(texts: seq<string>): Json {
    JArray(seq(|texts|, i requires 0 <= i < |texts| => JString(texts[i])))
  }

  function NullableString(text: Option<string>): Json {
    if text.Some? then JString(text.value) else JNull
  }

  function PersonFields(p: Person, employments: Json): map<string, Json> {
    map["subjectIdentifier" := JString(p.subjectIdentifier), "username" := JString(p.username),
        "name" := JString(p.name), "mobile" := NullableString(p.mobile), "wxId" := NullableString(p.wxId),
        "userType" := p.userType, "status" := p.status, "employments" := employments]
  }

  function EmploymentJson(e: Employment): Json {
    JObject(map["isPrimary" := JBool(e.isPrimary), "organization" := e.organization, "position" := e.position,
                "responsibilities" := e.responsibilities, "roles" := Strings(e.roles)])
  }

  function DocumentJson(d: UserDocument): Json {
    JObject(PersonFields(d.person, JArray(seq(|d.employments|, i requires 0 <= i < |d.employments| =>
      EmploymentJson(d.employments[i])))))
  }

  function AuthorizationJson(a: Authorization): Json {
    JObject(map["clientCode" := JString(a.clientCode),
                "roles" := JArray(seq(|a.roleCodes|, i requires 0 <= i < |a.roleCodes| =>
                  JObject(map["code" := JString(a.roleCodes[i])])))])
  }

  function StoredEmploymentJson(e: StoredEmployment): Json {
    JObject(map["isPrimary" := JBool(e.isPrimary), "organization" := e.organization, "position" := e.position,
                "responsibilities" := e.responsibilities,
                "clientAuthorizations" := JArray(seq(|e.clientAuthorizations|,
                  i requires 0 <= i < |e.clientAuthorizations| => AuthorizationJson(e.clientAuthorizations[i])))])
  }

  function StoredJson(u: StoredUser): Json {
    JObject(PersonFields(u.person, JArray(seq(|u.employments|, i requires 0 <= i < |u.employments| =>
      StoredEmploymentJson(u.employments[i])))))
  }

  // ---- SQL over jsonb: field access, numbered element scans, ordered aggregation ----

  /** `->` */
  function Arrow(j: SqlJson, field: string): SqlJson {
    if j.SqlValue? then
      if j.json.JObject? && field in j.json.fields then SqlValue(j.json.fields[field]) else SqlNull
    else j
  }

  /** A value argument of jsonb_build_object: SQL null becomes JSON null. */
  function Argument(j: SqlJson): Json {
    if j.SqlValue? then j.json else JNull
  }

  /** The rows of jsonb_array_elements, by ordinality; scanning null yields no row. */
  function Elements(j: SqlJson): seq<Json> {
    if j.SqlValue? && j.json.JArray? then j.json.items else []
  }

  predicate Scannable(j: SqlJson) {
    j.SqlNull? || (j.SqlValue? && j.json.JArray?)
  }

  type Position = (nat, nat)

  predicate Before(a: Position, b: Position) { a.0 < b.0 || (a.0 == b.0 && a.1 < b.1) }

  ghost predicate Increasing(s: seq<Position>) { forall i, j :: 0 <= i < j < |s| ==> Before(s[i], s[j]) }

  ghost function Members(s: seq<Position>): set<Position> { set p | p in s }

  /** ORDER BY: rows form an unordered set of positions; the aggregate lists them in
      increasing order, and only one list does. */
  ghost predicate Ordered(rows: set<Position>, s: seq<Position>) { Increasing(s) && Members(s) == rows }

  lemma {:induction false} OrderedIsUnique(rows: set<Position>, s: seq<Position>, t: seq<Position>)
    requires Ordered(rows, s) && Ordered(rows, t)
    ensures s == t
    decreases |s|
  {
    if s == [] {
      if t != [] { HasMember(t); }
    } else {
      var a := s[|s| - 1];
      assert a in Members(s);
      assert t == [] ==> a !in Members(t);
      var b := t[|t| - 1];
      assert b in Members(t);
      var i :| 0 <= i < |t| && t[i] == a;
      var j :| 0 <= j < |s| && s[j] == b;
      assert a == b;
      DropLast(rows, s);
      DropLast(rows, t);
      OrderedIsUnique(rows - {a}, s[..|s| - 1], t[..|t| - 1]);
      assert s == s[..|s| - 1] + [a] && t == t[..|t| - 1] + [a];
    }
  }

  lemma HasMember(s: seq<Position>)
    requires s != []
    ensures Members(s) != {}
  {
    assert s[0] in Members(s);
  }

  lemma DropLast(rows: set<Position>, s: seq<Position>)
    requires Ordered(rows, s) && s != []
    ensures Ordered(rows - {s[|s| - 1]}, s[..|s| - 1])
  {
    var init, last := s[..|s| - 1], s[|s| - 1];
    forall p: Position ensures p in Members(init) <==> p in rows - {last} {
      if p in rows - {last} {
        assert p in Members(s);
        var i :| 0 <= i < |s| && s[i] == p;
        assert init[i] == p;
      }
      if p in Members(init) {
        var i :| 0 <= i < |init| && init[i] == p;
        assert s[i] == p && Before(s[i], last);
        assert p in Members(s);
      }
    }
  }

  // ---- The view ----

  function AuthorizationsOf(employment: Json): seq<Json> {
    Elements(Arrow(SqlValue(employment), "clientAuthorizations"))
  }

  function RolesOf(authorization: Json): seq<Json> {
    Elements(Arrow(SqlValue(authorization), "roles"))
  }

  /** The rows of the lateral join that survive the client condition. */
  ghost function RoleRows(employment: Json, clientCode: string): set<Position> {
    var authorizations := AuthorizationsOf(employment);
    set a: nat, r: nat | a < |authorizations|
                      && Arrow(SqlValue(authorizations[a]), "clientCode") == SqlValue(JString(clientCode))
                      && r < |RolesOf(authorizations[a])| :: (a, r)
  }

  ghost predicate InJoin(employment: Json, order: seq<Position>) {
    var authorizations := AuthorizationsOf(employment);
    forall i :: 0 <= i < |order| ==>
      order[i].0 < |authorizations| && order[i].1 < |RolesOf(authorizations[order[i].0])|
  }

  ghost function RoleAt(employment: Json, p: Position): Json
    requires p.0 < |AuthorizationsOf(employment)| && p.1 < |RolesOf(AuthorizationsOf(employment)[p.0])|
  {
    Argument(Arrow(SqlValue(RolesOf(AuthorizationsOf(employment)[p.0])[p.1]), "code"))
  }

  /** `roles` is the ordered aggregate of the join, or `[]` when the join is empty. */
  ghost predicate RolesView(employment: Json, clientCode: string, roles: Json) {
    var authorizations := AuthorizationsOf(employment);
    && Scannable(Arrow(SqlValue(employment), "clientAuthorizations"))
    && (forall i :: 0 <= i < |authorizations| ==> Scannable(Arrow(SqlValue(authorizations[i]), "roles")))
    && exists order ::
         Ordered(RoleRows(employment, clientCode), order) && InJoin(employment, order)
         && roles == JArray(seq(|order|, i requires 0 <= i < |order| => RoleAt(employment, order[i])))
  }

  function EmploymentRecord(employment: SqlJson, roles: Json): Json {
    JObject(map[
      "isPrimary" := Argument(Arrow(employment, "isPrimary")),
      "organization" := Argument(Arrow(employment, "organization")),
      "position" := Argument(Arrow(employment, "position")),
      "responsibilities" := Argument(Arrow(employment, "responsibilities")),
      "roles" := roles])
  }

  ghost predicate EmploymentView(employment: Json, clientCode: string, view: Json) {
    exists roles :: RolesView(employment, clientCode, roles) && view == EmploymentRecord(SqlValue(employment), roles)
  }

  function ViewRecord(stored: SqlJson, employments: seq<Json>): Json {
    JObject(map[
      "subjectIdentifier" := Argument(Arrow(stored, "subjectIdentifier")),
      "username" := Argument(Arrow(stored, "username")), "name" := Argument(Arrow(stored, "name")),
      "mobile" := Argument(Arrow(stored, "mobile")), "wxId" := Argument(Arrow(stored, "wxId")),
      "userType" := Argument(Arrow(stored, "userType")), "status" := Argument(Arrow(stored, "status")),
      "employments" := JArray(employments)])
  }

  ghost predicate EmploymentsView(rows: seq<Json>, clientCode: string, employments: seq<Json>) {
    && |employments| == |rows|
    && forall i :: 0 <= i < |rows| ==> EmploymentView(rows[i], clientCode, employments[i])
  }

  /** createClientUserDocumentSql: `view` is a value of the query. Rows are aggregated by
      ordinality, so the employments keep the order of the stored array. The query has no
      value when a scan meets something other than an array or null. */
  ghost predicate ClientView(document: Json, clientCode: string, view: Json) {
    var stored := SqlValue(document);
    && Scannable(Arrow(stored, "employments"))
    && exists employments ::
         EmploymentsView(Elements(Arrow(stored, "employments")), clientCode, employments)
         && view == ViewRecord(stored, employments)
  }

  // ---- The view is the projection ----

  /** The positions of a client's roles in the order of the nested iteration. */
  function RoleOrder(authorizations: seq<Authorization>, clientCode: string): seq<Position> {
    if authorizations == [] then [] else
      var n := |authorizations| - 1;
      RoleOrder(authorizations[..n], clientCode)
      + if authorizations[n].clientCode == clientCode
        then seq(|authorizations[n].roleCodes|, r requires 0 <= r < |authorizations[n].roleCodes| => (n, r))
        else []
  }

  ghost predicate Selected(authorizations: seq<Authorization>, clientCode: string, p: Position) {
    p.0 < |authorizations| && authorizations[p.0].clientCode == clientCode
    && p.1 < |authorizations[p.0].roleCodes|
  }

  lemma {:induction false} RoleOrderSelects(authorizations: seq<Authorization>, clientCode: string)
    ensures forall p: Position :: p in RoleOrder(authorizations, clientCode) <==> Selected(authorizations, clientCode, p)
    ensures Increasing(RoleOrder(authorizations, clientCode))
    decreases |authorizations|
  {
    if authorizations != [] {
      var n := |authorizations| - 1;
      var init, last := authorizations[..n], authorizations[n];
      RoleOrderSelects(init, clientCode);
      var front := RoleOrder(init, clientCode);
      var back: seq<Position> := if last.clientCode == clientCode
        then seq(|last.roleCodes|, r requires 0 <= r < |last.roleCodes| => (n, r)) else [];
      forall p: Position ensures p in back <==> p.0 == n && Selected(authorizations, clientCode, p) {
        if p.0 == n && Selected(authorizations, clientCode, p) { assert back[p.1] == p; }
      }
      forall p: Position ensures p in front + back <==> Selected(authorizations, clientCode, p) {
        assert p in front <==> p.0 < n && Selected(authorizations, clientCode, p);
      }
      forall i, j | 0 <= i < j < |front + back| ensures Before((front + back)[i], (front + back)[j]) {
        if i < |front| {
          assert front[i] in front;
          if j >= |front| { assert back[j - |front|] in back; }
        }
      }
    }
  }

  lemma {:induction false} RoleOrderCodes(authorizations: seq<Authorization>, clientCode: string)
    ensures |RoleOrder(authorizations, clientCode)| == |ClientRoles(authorizations, clientCode)|
    ensures forall i :: 0 <= i < |RoleOrder(authorizations, clientCode)| ==>
      var p := RoleOrder(authorizations, clientCode)[i];
      && p.0 < |authorizations| && p.1 < |authorizations[p.0].roleCodes|
      && authorizations[p.0].roleCodes[p.1] == ClientRoles(authorizations, clientCode)[i]
    decreases |authorizations|
  {
    if authorizations != [] { RoleOrderCodes(authorizations[..|authorizations| - 1], clientCode); }
  }

  lemma RowsAreOrdered(e: StoredEmployment, clientCode: string)
    ensures
      var order := RoleOrder(e.clientAuthorizations, clientCode);
      Ordered(RoleRows(StoredEmploymentJson(e), clientCode), order) && InJoin(StoredEmploymentJson(e), order)
  {
    var json := StoredEmploymentJson(e);
    var order := RoleOrder(e.clientAuthorizations, clientCode);
    RoleOrderSelects(e.clientAuthorizations, clientCode);
    forall p: Position ensures p in Members(order) <==> p in RoleRows(json, clientCode) {
      assert p in RoleRows(json, clientCode) <==> Selected(e.clientAuthorizations, clientCode, p);
    }
    forall i | 0 <= i < |order| ensures
      order[i].0 < |AuthorizationsOf(json)| && order[i].1 < |RolesOf(AuthorizationsOf(json)[order[i].0])|
    {
      assert order[i] in order;
    }
  }

  lemma RolesViewIsProjection(e: StoredEmployment, clientCode: string, roles: Json)
    ensures RolesView(StoredEmploymentJson(e), clientCode, roles)
       <==> roles == Strings(ClientRoles(e.clientAuthorizations, clientCode))
  {
    var json := StoredEmploymentJson(e);
    var order := RoleOrder(e.clientAuthorizations, clientCode);
    RowsAreOrdered(e, clientCode);
    RoleOrderCodes(e.clientAuthorizations, clientCode);
    var aggregate := seq(|order|, i requires 0 <= i < |order| => RoleAt(json, order[i]));
    forall i | 0 <= i < |order|
      ensures aggregate[i] == JString(ClientRoles(e.clientAuthorizations, clientCode)[i])
    {
      var p := order[i];
      assert AuthorizationsOf(json)[p.0] == AuthorizationJson(e.clientAuthorizations[p.0]);
    }
    assert JArray(aggregate) == Strings(ClientRoles(e.clientAuthorizations, clientCode));
    if RolesView(json, clientCode, roles) {
      var other :| Ordered(RoleRows(json, clientCode), other) && InJoin(json, other)
        && roles == JArray(seq(|other|, i requires 0 <= i < |other| => RoleAt(json, other[i])));
      OrderedIsUnique(RoleRows(json, clientCode), order, other);
      assert roles == JArray(aggregate);
    }
    assert RolesView(json, clientCode, JArray(aggregate));
  }

  lemma EmploymentRecordIsProjection(e: StoredEmployment, clientCode: string)
    ensures EmploymentRecord(SqlValue(StoredEmploymentJson(e)), Strings(ClientRoles(e.clientAuthorizations, clientCode)))
         == EmploymentJson(ProjectEmployment(e, clientCode))
  {}

  lemma EmploymentViewIsProjection(e: StoredEmployment, clientCode: string, view: Json)
    ensures EmploymentView(StoredEmploymentJson(e), clientCode, view)
       <==> view == EmploymentJson(ProjectEmployment(e, clientCode))
  {
    var json := StoredEmploymentJson(e);
    var roles := Strings(ClientRoles(e.clientAuthorizations, clientCode));
    RolesViewIsProjection(e, clientCode, roles);
    EmploymentRecordIsProjection(e, clientCode);
    if EmploymentView(json, clientCode, view) {
      var other :| RolesView(json, clientCode, other) && view == EmploymentRecord(SqlValue(json), other);
      RolesViewIsProjection(e, clientCode, other);
    }
  }

  lemma EmploymentsViewIsProjection(u: StoredUser, clientCode: string, employments: seq<Json>)
    ensures
      EmploymentsView(Elements(Arrow(SqlValue(StoredJson(u)), "employments")), clientCode, employments)
      <==> JArray(employments) == DocumentJson(ProjectUserDocument(u, clientCode)).fields["employments"]
  {
    var rows := Elements(Arrow(SqlValue(StoredJson(u)), "employments"));
    var expected := DocumentJson(ProjectUserDocument(u, clientCode)).fields["employments"].items;
    forall i | 0 <= i < |rows| && i < |employments|
      ensures EmploymentView(rows[i], clientCode, employments[i]) <==> employments[i] == expected[i]
    {
      EmploymentViewIsProjection(u.employments[i], clientCode, employments[i]);
    }
    if EmploymentsView(rows, clientCode, employments) { assert employments == expected; }
  }

  /** The query has exactly one value for a stored document: the JSON of its projection,
      with employments and roles in stored order. */
  lemma ClientViewIsProjection(u: StoredUser, clientCode: string, view: Json)
    ensures ClientView(StoredJson(u), clientCode, view) <==> view == DocumentJson(ProjectUserDocument(u, clientCode))
  {
    var stored := SqlValue(StoredJson(u));
    var rows := Elements(Arrow(stored, "employments"));
    var projected := DocumentJson(ProjectUserDocument(u, clientCode));
    var expected := projected.fields["employments"].items;
    EmploymentsViewIsProjection(u, clientCode, expected);
    assert ViewRecord(stored, expected) == projected;
    if ClientView(StoredJson(u), clientCode, view) {
      var employments :| EmploymentsView(rows, clientCode, employments) && view == ViewRecord(stored, employments);
      EmploymentsViewIsProjection(u, clientCode, employments);
    }
  }

  // ---- Searching through the view ----

  const TYPES := {JString("分公司"), JString("部门"), JString("临时部门"), JString("虚拟组织"),
                  JString("外部组织"), JString("个体外部组织")}

  const LEVELS := {JNumber(1.0), JNumber(2.0), JNumber(3.0), JNumber(4.0), JNumber(5.0)}

  const PATH_NODE: Shape := [
    Field("code", Scalar(Text)), Field("name", Scalar(Text)), Field("type", Scalar(Enum(TYPES))),
    Field("level", Scalar(Enum(LEVELS))), Field("distanceToTarget", Scalar(Number(true, true)))]

  const ORGANIZATION: Shape := [
    Field("code", Scalar(Text)), Field("name", Scalar(Text)), Field("type", Scalar(Enum(TYPES))),
    Field("path", Collection(PATH_NODE))]

  const POSITION: Shape := [Field("code", Scalar(Text)), Field("name", Scalar(Text))]

  const RESPONSIBILITY_TYPE: Shape := [
    Field("code", Scalar(Enum({JString("head"), JString("supervising")}))), Field("name", Scalar(Text))]

  const RESPONSIBILITY: Shape := [
    Field("type", Object(RESPONSIBILITY_TYPE)), Field("targetOrganization", Object(ORGANIZATION))]

  const EMPLOYMENT: Shape := [
    Field("isPrimary", Scalar(Boolean)),
    Field("organization", Object(ORGANIZATION)),
    Field("position", Object(POSITION)),
    Field("responsibilities", Collection(RESPONSIBILITY)),
    Field("roles", ScalarArray(Text))]

  const USER_DOCUMENT: Shape := [
    Field("subjectIdentifier", Scalar(Text)),
    Field("username", Scalar(Text)),
    Field("name", Scalar(Text)),
    Field("mobile", Scalar(Text)),
    Field("wxId", Scalar(Text)),
    Field("userType", Scalar(Enum({JString("正式员工"), JString("非正式员工"), JString("外部用户")}))),
    Field("status", Scalar(Enum({JNumber(1.0), JNumber(2.0), JNumber(3.0)}))),
    Field("employments", Collection(EMPLOYMENT))]

  predicate FlatNames(names: seq<string>) {
    && (forall i :: 0 <= i < |names| ==> Dotless(names[i]))
    && (forall i, j :: 0 <= i < j < |names| ==> names[i] != names[j])
  }

  ghost predicate Named(shape: Shape, names: seq<string>) {
    |shape| == |names| && forall i :: 0 <= i < |shape| ==> shape[i].name == names[i]
  }

  lemma NestedWellFormed(shape: Shape, names: seq<string>)
    requires Named(shape, names) && FlatNames(names)
    requires forall i :: 0 <= i < |shape| && shape[i].fact.Object? ==> WellFormed(shape[i].fact.fields)
    requires forall i :: 0 <= i < |shape| && shape[i].fact.Collection? ==> WellFormed(shape[i].fact.itemFields)
    ensures WellFormed(shape)
  {}

  lemma PathNodeNames() ensures FlatNames(["code", "name", "type", "level", "distanceToTarget"]) {}

  lemma OrganizationNames() ensures FlatNames(["code", "name", "type", "path"]) {}

  lemma EmploymentNames()
    ensures FlatNames(["isPrimary", "organization", "position", "responsibilities", "roles"])
  {}

  lemma UserNames()
    ensures FlatNames(["subjectIdentifier", "username", "name", "mobile", "wxId", "userType", "status", "employments"])
  {
    assert "username"[4] != "userType"[4];
  }

  lemma OrganizationWellFormed() ensures WellFormed(ORGANIZATION) {
    PathNodeNames();
    NestedWellFormed(PATH_NODE, ["code", "name", "type", "level", "distanceToTarget"]);
    OrganizationNames();
    NestedWellFormed(ORGANIZATION, ["code", "name", "type", "path"]);
  }

  lemma PairNames()
    ensures FlatNames(["code", "name"]) && FlatNames(["type", "targetOrganization"])
  {}

  lemma PositionWellFormed() ensures WellFormed(POSITION) {
    PairNames();
    NestedWellFormed(POSITION, ["code", "name"]);
  }

  lemma ResponsibilityTypeWellFormed() ensures WellFormed(RESPONSIBILITY_TYPE) {
    PairNames();
    NestedWellFormed(RESPONSIBILITY_TYPE, ["code", "name"]);
  }

  lemma ResponsibilityWellFormed() ensures WellFormed(RESPONSIBILITY) {
    OrganizationWellFormed();
    ResponsibilityTypeWellFormed();
    PairNames();
    NestedWellFormed(RESPONSIBILITY, ["type", "targetOrganization"]);
  }

  lemma EmploymentWellFormed() ensures WellFormed(EMPLOYMENT) {
    OrganizationWellFormed();
    PositionWellFormed();
    ResponsibilityWellFormed();
    EmploymentNames();
    NestedWellFormed(EMPLOYMENT, ["isPrimary", "organization", "position", "responsibilities", "roles"]);
  }

  lemma UserDocumentWellFormed() ensures WellFormed(USER_DOCUMENT) {
    EmploymentWellFormed();
    UserNames();
    NestedWellFormed(USER_DOCUMENT,
      ["subjectIdentifier", "username", "name", "mobile", "wxId", "userType", "status", "employments"]);
  }

  /** What the stored schema guarantees of the parts kept as JSON here. */
  predicate ValidStored(u: StoredUser) {
    && Primitive(u.person.userType) && Primitive(u.person.status)
    && forall i :: 0 <= i < |u.employments| ==>
         var e := u.employments[i];
         && Conforms(e.organization, ORGANIZATION)
         && Conforms(e.position, POSITION)
         && e.responsibilities.JArray?
         && forall k :: 0 <= k < |e.responsibilities.items| ==> Conforms(e.responsibilities.items[k], RESPONSIBILITY)
  }

  lemma ProjectionConforms(u: StoredUser, clientCode: string)
    requires ValidStored(u)
    ensures Conforms(DocumentJson(ProjectUserDocument(u, clientCode)), USER_DOCUMENT)
  {
    var document := DocumentJson(ProjectUserDocument(u, clientCode));
    forall i | 0 <= i < |u.employments|
      ensures Conforms(document.fields["employments"].items[i], EMPLOYMENT)
    {
      EmploymentConforms(ProjectEmployment(u.employments[i], clientCode));
    }
  }

  lemma EmploymentConforms(e: Employment)
    requires Conforms(e.organization, ORGANIZATION) && Conforms(e.position, POSITION)
    requires FactConforms(e.responsibilities, Collection(RESPONSIBILITY))
    ensures Conforms(EmploymentJson(e), EMPLOYMENT)
  {}

  // ---- The response ----

  /** Parsing by an object schema drops the keys that it does not name, at every level. */
  function Strip(doc: Json, shape: Shape): Json
    decreases shape, 2
  {
    if doc.JObject? then JObject(StripFields(doc.fields, shape)) else doc
  }

  function StripFields(fields: map<string, Json>, shape: Shape): map<string, Json>
    decreases shape, 1
  {
    if shape == [] then map[] else
      var last := shape[|shape| - 1];
      var front := StripFields(fields, shape[..|shape| - 1]);
      if last.name in fields then front[last.name := StripFact(fields[last.name], last.fact)] else front
  }

  function StripFact(value: Json, fact: Fact): Json
    decreases fact, 0
  {
    match fact
    case Scalar(_) => value
    case ScalarArray(_) => value
    case Object(fields) => Strip(value, fields)
    case Collection(itemFields) =>
      if value.JArray?
      then JArray(seq(|value.items|, i requires 0 <= i < |value.items| => Strip(value.items[i], itemFields)))
      else value
  }

  /** projectUserDocument: the search structure is read off the same schema. */
  function Response(u: StoredUser, clientCode: string): Json {
    Strip(DocumentJson(ProjectUserDocument(u, clientCode)), USER_DOCUMENT)
  }

  lemma {:induction false} StrippedField(fields: map<string, Json>, shape: Shape, name: string)
    ensures name in StripFields(fields, shape) <==> name in fields && FindField(shape, name).Some?
    ensures name in StripFields(fields, shape) ==>
      StripFields(fields, shape)[name] == StripFact(fields[name], FindField(shape, name).value)
  {
    if shape != [] { StrippedField(fields, shape[..|shape| - 1], name); }
  }

  lemma {:induction false} LookupStripped(doc: Json, shape: Shape, segments: seq<string>)
    requires DistinctNames(shape) && segments != [] && FindFact(shape, segments).Some?
    ensures Lookup(Strip(doc, shape), segments).Some? <==> Lookup(doc, segments).Some?
    ensures Lookup(doc, segments).Some? ==>
      Lookup(Strip(doc, shape), segments).value == StripFact(Lookup(doc, segments).value, FindFact(shape, segments).value)
    decreases |segments|
  {
    FoundField(shape, segments[0]);
    if doc.JObject? {
      StrippedField(doc.fields, shape, segments[0]);
      if |segments| > 1 && segments[0] in doc.fields {
        LookupStripped(doc.fields[segments[0]], FindField(shape, segments[0]).value.fields, segments[1..]);
      }
    }
  }

  lemma {:induction false} FoundDistinct(shape: Shape, segments: seq<string>)
    requires DistinctNames(shape) && CollectionAt(shape, segments)
    ensures DistinctNames(ItemShape(shape, segments))
    decreases |segments|
  {
    FoundField(shape, segments[0]);
    if |segments| > 1 { FoundDistinct(FindField(shape, segments[0]).value.fields, segments[1..]); }
  }

  /** A filter cannot see what the schema drops. */
  lemma {:induction false} StrippingKeepsMeaning(raw: RawFilter, shape: Shape, doc: Json)
    requires DistinctNames(shape)
    ensures RawMeaning(raw, shape, Strip(doc, shape)) == RawMeaning(raw, shape, doc)
    decreases raw
  {
    match raw {
      case RawCondition(field, op, value) =>
        forall p | FieldAt(shape, p) ensures Lookup(Strip(doc, shape), p) == Lookup(doc, p) {
          LookupStripped(doc, shape, p);
        }
      case RawAnd(children) =>
        forall i | 0 <= i < |children|
          ensures RawMeaning(children[i], shape, Strip(doc, shape)) == RawMeaning(children[i], shape, doc)
        {
          StrippingKeepsMeaning(children[i], shape, doc);
        }
      case RawOr(children) =>
        forall i | 0 <= i < |children|
          ensures RawMeaning(children[i], shape, Strip(doc, shape)) == RawMeaning(children[i], shape, doc)
        {
          StrippingKeepsMeaning(children[i], shape, doc);
        }
      case RawNot(child) => StrippingKeepsMeaning(child, shape, doc);
      case RawExists(path, where) =>
        forall p, i | CollectionAt(shape, p)
          ensures |ItemsOf(Lookup(Strip(doc, shape), p))| == |ItemsOf(Lookup(doc, p))|
          ensures 0 <= i < |ItemsOf(Lookup(doc, p))| ==>
            RawMeaning(where, ItemShape(shape, p), ItemsOf(Lookup(Strip(doc, shape), p))[i])
            == RawMeaning(where, ItemShape(shape, p), ItemsOf(Lookup(doc, p))[i])
        {
          LookupStripped(doc, shape, p);
          FoundDistinct(shape, p);
          if 0 <= i < |ItemsOf(Lookup(doc, p))| {
            StrippingKeepsMeaning(where, ItemShape(shape, p), ItemsOf(Lookup(doc, p))[i]);
          }
        }
    }
  }

  /** compileUserDocumentFilter: a search compiled against the client view selects a
      stored document exactly when the response that the client would get for it satisfies
      the filter as written. */
  lemma SearchSelectsResponses(raw: RawFilter, u: StoredUser, clientCode: string, view: Json)
    requires ValidStored(u) && ClientView(StoredJson(u), clientCode, view)
    requires Parse(raw, ScopeOf(USER_DOCUMENT)).Some?
    ensures WellScoped(Parse(raw, ScopeOf(USER_DOCUMENT)).value, ScopeOf(USER_DOCUMENT))
    ensures
      var sql := Compile(Parse(raw, ScopeOf(USER_DOCUMENT)).value, ScopeOf(USER_DOCUMENT), Base, 1).sql;
      Eval(sql, SqlValue(view), map[]) == FromBool(RawMeaning(raw, USER_DOCUMENT, Response(u, clientCode)))
  {
    UserDocumentWellFormed();
    DotlessIsClear(USER_DOCUMENT);
    ClientViewIsProjection(u, clientCode, view);
    ProjectionConforms(u, clientCode);
    AcceptedFilterSelectsItsMeaning(raw, USER_DOCUMENT, view);
    StrippingKeepsMeaning(raw, USER_DOCUMENT, view);
  }
}
