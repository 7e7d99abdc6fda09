// Exchanging authorization codes for access tokens (packages/oidc/src/tokens.ts, state.ts,
// token-state.ts). A step is one atomic command on the shared store or the session
// kernel, or one local decision of one exchange, so a run is any interleaving of any
// number of exchanges with each other, with new codes and with session changes.
module OidcExchange {
  import opened Json

  // ---- Records ----

  /** SHA-256 of a code verifier; digests of distinct texts are taken to be distinct. */
  datatype Challenge = S256(verifier: string)

  /** What a code key is the digest of. */
  datatype Key = Key(clientId: string, userSession: nat, clientSession: nat, codeId: nat)

  datatype Code = Code(
    key: Key, issuer: string, redirectUri: string, scope: string, challenge: Challenge,
    userInstance: nat, clientInstance: nat, issuedAt: nat, expiresAt: nat)

  datatype Token = Token(
    id: nat, issuer: string, clientId: string, userSession: nat, clientSession: nat,
    userInstance: nat, clientInstance: nat, scope: string, issuedAt: nat, expiresAt: nat)

  datatype TokenId = TokenId(bearer: nat, expiresAt: nat)

  datatype Input = Input(key: Key, issuer: string, parametersAccepted: bool, redirectUri: string, verifier: string)

  // ---- The store ----

  datatype Store = Store(now: nat, codes: map<Key, Code>, tokens: map<nat, Token>, tokenIds: map<nat, TokenId>)

  /** Keys vanish when the clock reaches their expiry. */
  function Advance(s: Store, later: nat): Store {
    var now := s.now + later;
    Store(now,
          map k | k in s.codes && s.codes[k].expiresAt > now :: s.codes[k],
          map b | b in s.tokens && s.tokens[b].expiresAt > now :: s.tokens[b],
          map i | i in s.tokenIds && s.tokenIds[i].expiresAt > now :: s.tokenIds[i])
  }

  function WithCode(s: Store, code: Code): Store { s.(codes := s.codes[code.key := code]) }

  function WithoutCode(s: Store, key: Key): Store { s.(codes := s.codes - {key}) }

  predicate CanSave(s: Store, bearer: nat, token: Token) {
    bearer !in s.tokens && token.id !in s.tokenIds
  }

  /** Both keys or none. */
  function WithToken(s: Store, bearer: nat, token: Token): Store {
    if CanSave(s, bearer, token)
    then s.(tokens := s.tokens[bearer := token],
            tokenIds := s.tokenIds[token.id := TokenId(bearer, token.expiresAt)])
    else s
  }

  function ReadToken(s: Store, bearer: nat): Option<Token> {
    if bearer in s.tokens && s.tokens[bearer].expiresAt > s.now then Some(s.tokens[bearer]) else None
  }

  /** The two keys of a token always stand together. */
  ghost predicate Paired(s: Store) {
    && (forall b :: b in s.tokens ==> s.tokens[b].id in s.tokenIds && s.tokenIds[s.tokens[b].id] == TokenId(b, s.tokens[b].expiresAt))
    && (forall i :: i in s.tokenIds ==> s.tokenIds[i].bearer in s.tokens && s.tokens[s.tokenIds[i].bearer].id == i
                                        && s.tokens[s.tokenIds[i].bearer].expiresAt == s.tokenIds[i].expiresAt)
  }

  // ---- The session kernel, as far as exchanges rely on it ----

  datatype UserSession = UserSession(instance: nat, expiresAt: nat)

  datatype ClientSession = ClientSession(instance: nat, userSession: nat, clientId: string, expiresAt: nat)

  /** One record per session identifier; a terminated or replaced instance never comes back. */
  datatype Kernel = Kernel(users: map<nat, UserSession>, clients: map<nat, ClientSession>,
                           retired: set<nat>, instances: set<nat>)

  datatype Observation = Observation(user: UserSession, client: ClientSession)

  function Observe(k: Kernel, userSession: nat, clientSession: nat, clientId: string): Option<Observation> {
    if userSession in k.users && clientSession in k.clients
       && k.clients[clientSession].userSession == userSession && k.clients[clientSession].clientId == clientId
    then Some(Observation(k.users[userSession], k.clients[clientSession]))
    else None
  }

  /** The second of the two looks before the failure boundary; the first found the user
      session. */
  function ObserveClient(k: Kernel, userSession: nat, clientSession: nat, clientId: string): Option<ClientSession> {
    if clientSession in k.clients
       && k.clients[clientSession].userSession == userSession && k.clients[clientSession].clientId == clientId
    then Some(k.clients[clientSession]) else None
  }

  function ResolveForUse(k: Kernel, now: nat, userSession: nat, clientSession: nat, clientId: string): Option<Observation> {
    match Observe(k, userSession, clientSession, clientId)
    case None => None
    case Some(o) =>
      if o.user.instance in k.retired || o.client.instance in k.retired
         || o.user.expiresAt <= now || o.client.expiresAt <= now
      then None else Some(o)
  }

  // ---- Exchanges ----

  datatype Consumption = NotAttempted | UnknownConsumption | Missing | Consumed

  datatype Phase =
    | Located
    | Held(code: Code)
    | Permitted(code: Code)
    | Saved(bearer: nat)
    | Failing(consumption: Consumption)
    | Delivered(bearer: nat)
    | Failed(consumption: Consumption, terminated: bool)

  /** `observed` is what the exchange saw of both sessions before its failure boundary. */
  datatype Exchange = Exchange(input: Input, observed: Observation, phase: Phase)

  predicate Unreserved(c: char) {
    'a' <= c <= 'z' || 'A' <= c <= 'Z' || '0' <= c <= '9' || c in "-._~"
  }

  /** Section 4.1 of RFC 7636. */
  predicate WellFormedVerifier(v: string) {
    43 <= |v| <= 128 && forall i :: 0 <= i < |v| ==> Unreserved(v[i])
  }

  /** The checks between taking a code and looking at the session again. */
  predicate Accepts(e: Exchange, code: Code, now: nat) {
    && code.key == e.input.key && code.issuer == e.input.issuer
    && code.userInstance == e.observed.user.instance && code.clientInstance == e.observed.client.instance
    && code.issuedAt <= now && code.expiresAt > now && code.expiresAt > code.issuedAt
    && e.input.redirectUri == code.redirectUri && WellFormedVerifier(e.input.verifier)
    && S256(e.input.verifier) == code.challenge
  }

  predicate MatchesCode(code: Code, o: Observation) {
    code.userInstance == o.user.instance && code.clientInstance == o.client.instance
    && code.expiresAt <= o.user.expiresAt && code.expiresAt <= o.client.expiresAt
  }

  function TokenFor(code: Code, id: nat, issuedAt: nat, expiresAt: nat): Token {
    Token(id, code.issuer, code.key.clientId, code.key.userSession, code.key.clientSession,
          code.userInstance, code.clientInstance, code.scope, issuedAt, expiresAt)
  }

  /** History of the tokens that were stored, with the exchange that stored each. */
  datatype Grant = Grant(holder: nat, bearer: nat, token: Token, code: Code, input: Input)

  datatype State = State(
    store: Store, kernel: Kernel, exchanges: map<nat, Exchange>,
    issued: seq<Code>, taken: set<Key>, grants: seq<Grant>)

  const INITIAL := State(Store(0, map[], map[], map[]), Kernel(map[], map[], {}, {}), map[], [], {}, [])

  /** Between the look at the user session, which found `user`, and `Begin` anything may have
      happened. A command may fail without being executed, or be executed without being
      acknowledged. */
  datatype Step =
    | Tick(later: nat)
    | OpenUser(session: nat, user: UserSession)
    | OpenClient(session: nat, client: ClientSession)
    | Terminate(instance: nat)
    | IssueCode(code: Code)
    | Begin(e: nat, input: Input, user: UserSession)
    | Take(e: nat, executed: bool, acknowledged: bool)
    | Permit(e: nat)
    | SaveToken(e: nat, bearer: nat, id: nat, issuedAt: nat, expiresAt: nat, acknowledged: bool)
    | Deliver(e: nat, delivered: bool)
    | Abandon(e: nat)
    | Revoke(e: nat, executed: bool, confirmed: bool)

  function To(s: State, e: nat, phase: Phase): State
    requires e in s.exchanges
  {
    s.(exchanges := s.exchanges[e := s.exchanges[e].(phase := phase)])
  }

  /** Still inside the failure boundary, with nothing gone wrong. */
  predicate InBoundary(p: Phase) { p.Located? || p.Held? || p.Permitted? || p.Saved? }

  function ConsumptionOf(phase: Phase): Consumption {
    if phase.Located? then NotAttempted else Consumed
  }

  function TakeStep(s: State, e: nat, executed: bool, acknowledged: bool): State
    requires e in s.exchanges
  {
    var x := s.exchanges[e];
    var key := x.input.key;
    if !x.input.parametersAccepted then To(s, e, Failing(NotAttempted))
    else if !executed then To(s, e, Failing(UnknownConsumption))
    else if key !in s.store.codes then To(s, e, Failing(if acknowledged then Missing else UnknownConsumption))
    else
      var code := s.store.codes[key];
      var after := s.(store := WithoutCode(s.store, key), taken := s.taken + {key});
      if !acknowledged then To(after, e, Failing(UnknownConsumption))
      else if Accepts(x, code, s.store.now) then To(after, e, Held(code))
      else To(after, e, Failing(Consumed))
  }

  function SaveStep(s: State, e: nat, bearer: nat, token: Token, acknowledged: bool): State
    requires e in s.exchanges && s.exchanges[e].phase.Permitted?
  {
    var x := s.exchanges[e];
    if !CanSave(s.store, bearer, token) then To(s, e, Failing(Consumed))
    else
      var after := s.(store := WithToken(s.store, bearer, token),
                      grants := s.grants + [Grant(e, bearer, token, x.phase.code, x.input)]);
      To(after, e, if acknowledged then Saved(bearer) else Failing(Consumed))
  }

  function Retire(s: State, instance: nat): State {
    s.(kernel := s.kernel.(retired := s.kernel.retired + {instance}))
  }

  /** Steps of an exchange that is not in the right phase do nothing. */
  function Apply(s: State, step: Step): State {
    match step
    case Tick(later) => s.(store := Advance(s.store, later))
    case OpenUser(session, user) =>
      var k := s.kernel;
      s.(kernel := k.(users := k.users[session := user], instances := k.instances + {user.instance},
                      retired := if session in k.users then k.retired + {k.users[session].instance} else k.retired))
    case OpenClient(session, client) =>
      var k := s.kernel;
      s.(kernel := k.(clients := k.clients[session := client], instances := k.instances + {client.instance},
                      retired := if session in k.clients then k.retired + {k.clients[session].instance} else k.retired))
    case Terminate(instance) => Retire(s, instance)
    case IssueCode(code) =>
      if code.key in s.store.codes then s
      else s.(store := WithCode(s.store, code), issued := s.issued + [code])
    case Begin(e, input, user) =>
      (match ObserveClient(s.kernel, input.key.userSession, input.key.clientSession, input.key.clientId)
       case None => s
       case Some(client) => s.(exchanges := s.exchanges[e := Exchange(input, Observation(user, client), Located)]))
    case Take(e, executed, acknowledged) =>
      if e in s.exchanges && s.exchanges[e].phase.Located? then TakeStep(s, e, executed, acknowledged) else s
    case Permit(e) =>
      if e in s.exchanges && s.exchanges[e].phase.Held? then
        var code := s.exchanges[e].phase.code;
        var k := code.key;
        match ResolveForUse(s.kernel, s.store.now, k.userSession, k.clientSession, k.clientId)
        case Some(o) => To(s, e, if MatchesCode(code, o) then Permitted(code) else Failing(Consumed))
        case None => To(s, e, Failing(Consumed))
      else s
    case SaveToken(e, bearer, id, issuedAt, expiresAt, acknowledged) =>
      if e in s.exchanges && s.exchanges[e].phase.Permitted?
      then SaveStep(s, e, bearer, TokenFor(s.exchanges[e].phase.code, id, issuedAt, expiresAt), acknowledged)
      else s
    case Deliver(e, delivered) =>
      if e in s.exchanges && s.exchanges[e].phase.Saved?
      then To(s, e, if delivered then Delivered(s.exchanges[e].phase.bearer) else Failing(Consumed))
      else s
    case Abandon(e) =>
      if e in s.exchanges && InBoundary(s.exchanges[e].phase)
      then To(s, e, Failing(ConsumptionOf(s.exchanges[e].phase)))
      else s
    case Revoke(e, executed, confirmed) =>
      if e in s.exchanges && s.exchanges[e].phase.Failing? then
        var x := s.exchanges[e];
        To(if executed then Retire(s, x.observed.client.instance) else s, e, Failed(x.phase.consumption, executed && confirmed))
      else s
  }

  /** Random identifiers are new; a code is issued for the sessions as they stand. */
  ghost predicate Allowed(s: State, step: Step) {
    match step
    case OpenUser(_, user) => user.instance !in s.kernel.instances
    case OpenClient(_, client) => client.instance !in s.kernel.instances
    case IssueCode(code) =>
      && (forall i :: 0 <= i < |s.issued| ==> s.issued[i].key != code.key)
      && code.key !in s.taken
      && (match Observe(s.kernel, code.key.userSession, code.key.clientSession, code.key.clientId)
          case None => false
          case Some(o) => code.userInstance == o.user.instance && code.clientInstance == o.client.instance)
    case Begin(e, _, user) => e !in s.exchanges && user.instance in s.kernel.instances
    case _ => true
  }

  function Run(s: State, steps: seq<Step>): State {
    if steps == [] then s else Apply(Run(s, steps[..|steps| - 1]), steps[|steps| - 1])
  }

  ghost predicate AllowedRun(s: State, steps: seq<Step>) {
    forall i :: 0 <= i < |steps| ==> Allowed(Run(s, steps[..i]), steps[i])
  }

  /** resolveAccessToken succeeds for this bearer. */
  predicate Resolves(s: State, bearer: nat, issuer: string) {
    match ReadToken(s.store, bearer)
    case None => false
    case Some(t) =>
      t.issuer == issuer
      && match ResolveForUse(s.kernel, s.store.now, t.userSession, t.clientSession, t.clientId)
         case None => false
         case Some(o) => t.userInstance == o.user.instance && t.clientInstance == o.client.instance
  }

  // ---- The invariant ----

  ghost predicate CodesKnown(s: State) {
    && (forall k :: k in s.store.codes ==> s.store.codes[k].key == k && s.store.codes[k] in s.issued && k !in s.taken)
    && (forall i, j :: 0 <= i < j < |s.issued| ==> s.issued[i].key != s.issued[j].key)
    && (forall k :: k in s.taken ==> exists i :: 0 <= i < |s.issued| && s.issued[i].key == k)
  }

  function CodeIn(p: Phase): Option<Code> {
    match p case Held(code) => Some(code) case Permitted(code) => Some(code) case _ => None
  }

  ghost predicate Presented(input: Input, code: Code) {
    && code.key == input.key && code.issuer == input.issuer && code.redirectUri == input.redirectUri
    && WellFormedVerifier(input.verifier) && S256(input.verifier) == code.challenge
  }

  /** A code in use was taken by exactly one exchange, which has not been granted a token. */
  ghost predicate HoldersExclusive(s: State) {
    && (forall e :: e in s.exchanges && CodeIn(s.exchanges[e].phase).Some? ==>
          var code := CodeIn(s.exchanges[e].phase).value;
          && code in s.issued && code.key in s.taken && Presented(s.exchanges[e].input, code)
          && (forall i :: 0 <= i < |s.grants| ==> s.grants[i].code.key != code.key))
    && (forall e, f :: (e in s.exchanges && f in s.exchanges && e != f
                        && CodeIn(s.exchanges[e].phase).Some? && CodeIn(s.exchanges[f].phase).Some?) ==>
          CodeIn(s.exchanges[e].phase).value.key != CodeIn(s.exchanges[f].phase).value.key)
  }

  /** The token repeats the code it was granted for, to a client that presented it. */
  ghost predicate Bound(s: State, g: Grant) {
    && g.code in s.issued && g.code.key in s.taken && Presented(g.input, g.code)
    && g.token == TokenFor(g.code, g.token.id, g.token.issuedAt, g.token.expiresAt)
  }

  ghost predicate GrantsBound(s: State) {
    && (forall i :: 0 <= i < |s.grants| ==> Bound(s, s.grants[i]))
    && (forall i, j :: 0 <= i < j < |s.grants| ==> s.grants[i].code.key != s.grants[j].code.key)
    && (forall b :: b in s.store.tokens ==>
          exists i :: 0 <= i < |s.grants| && s.grants[i].bearer == b && s.grants[i].token == s.store.tokens[b])
  }

  ghost predicate PhaseTrue(s: State, x: Exchange, phase: Phase) {
    match phase
    case Failing(c) => c.Consumed? ==> x.input.key in s.taken
    case Failed(c, terminated) =>
      (c.Consumed? ==> x.input.key in s.taken) && (terminated ==> x.observed.client.instance in s.kernel.retired)
    case Saved(_) => x.input.key in s.taken
    case _ => true
  }

  /** What an exchange reports is true. */
  ghost predicate OutcomesTrue(s: State) {
    forall e :: e in s.exchanges ==> PhaseTrue(s, s.exchanges[e], s.exchanges[e].phase)
  }

  /** The instance a code was issued for is still the one of its session, or it is retired. */
  predicate Current(k: Kernel, clientSession: nat, instance: nat) {
    instance in k.retired || (clientSession in k.clients && k.clients[clientSession].instance == instance)
  }

  ghost predicate InstancesCurrent(s: State) {
    forall i :: 0 <= i < |s.issued| ==> Current(s.kernel, s.issued[i].key.clientSession, s.issued[i].clientInstance)
  }

  ghost predicate Inv(s: State) {
    && Paired(s.store) && CodesKnown(s) && HoldersExclusive(s) && GrantsBound(s) && OutcomesTrue(s) && InstancesCurrent(s)
  }

  lemma InitialInv()
    ensures Inv(INITIAL)
  {}

  /** Sessions change, and what was retired stays retired. */
  lemma KernelLeavesRest(s: State, k: Kernel)
    requires CodesKnown(s) && HoldersExclusive(s) && GrantsBound(s)
    ensures
      var n := s.(kernel := k);
      CodesKnown(n) && HoldersExclusive(n) && GrantsBound(n)
  {
    var n := s.(kernel := k);
    forall i | 0 <= i < |n.grants| ensures Bound(n, n.grants[i]) { assert Bound(s, s.grants[i]); }
  }

  lemma OutcomesStayTrue(s: State, k: Kernel)
    requires OutcomesTrue(s) && s.kernel.retired <= k.retired
    ensures OutcomesTrue(s.(kernel := k))
  {
    forall e | e in s.exchanges ensures PhaseTrue(s.(kernel := k), s.exchanges[e], s.exchanges[e].phase) {
      assert PhaseTrue(s, s.exchanges[e], s.exchanges[e].phase);
    }
  }

  lemma KernelKeeps(s: State, k: Kernel)
    requires Inv(s) && s.kernel.retired <= k.retired && InstancesCurrent(s.(kernel := k))
    ensures Inv(s.(kernel := k))
  {
    KernelLeavesRest(s, k);
    OutcomesStayTrue(s, k);
  }

  lemma SessionsStayCurrent(s: State, step: Step)
    requires InstancesCurrent(s) && (step.OpenUser? || step.OpenClient? || step.Terminate?)
    ensures InstancesCurrent(Apply(s, step)) && s.kernel.retired <= Apply(s, step).kernel.retired
    ensures Apply(s, step) == s.(kernel := Apply(s, step).kernel)
  {}

  lemma TickPairs(s: Store, later: nat)
    requires Paired(s)
    ensures Paired(Advance(s, later))
  {}

  lemma TickKeeps(s: State, later: nat)
    requires Inv(s)
    ensures Inv(Apply(s, Tick(later)))
  {
    var n := Apply(s, Tick(later));
    TickPairs(s.store, later);
    assert CodesKnown(n);
    forall i | 0 <= i < |n.grants| ensures Bound(n, n.grants[i]) { assert Bound(s, s.grants[i]); }
    forall e | e in n.exchanges ensures PhaseTrue(n, n.exchanges[e], n.exchanges[e].phase) {
      assert PhaseTrue(s, s.exchanges[e], s.exchanges[e].phase);
    }
  }

  lemma BeginKeeps(s: State, e: nat, input: Input, user: UserSession)
    requires Inv(s) && e !in s.exchanges
    ensures Inv(Apply(s, Begin(e, input, user)))
  {
    var n := Apply(s, Begin(e, input, user));
    forall i | 0 <= i < |n.grants| ensures Bound(n, n.grants[i]) { assert Bound(s, s.grants[i]); }
    forall f | f in n.exchanges ensures PhaseTrue(n, n.exchanges[f], n.exchanges[f].phase) {
      assert f in s.exchanges ==> PhaseTrue(s, s.exchanges[f], s.exchanges[f].phase);
    }
  }

  lemma IssuedCodesKnown(s: State, code: Code)
    requires CodesKnown(s) && Allowed(s, IssueCode(code)) && code.key !in s.store.codes
    ensures CodesKnown(Apply(s, IssueCode(code)))
  {
    var n := Apply(s, IssueCode(code));
    assert n.issued[|s.issued|] == code;
    assert forall i :: 0 <= i < |s.issued| ==> n.issued[i] == s.issued[i];
    assert forall c :: c in s.issued ==> c in n.issued;
  }

  lemma IssuedLeavesRest(s: State, code: Code)
    requires HoldersExclusive(s) && GrantsBound(s) && OutcomesTrue(s) && Paired(s.store) && code.key !in s.store.codes
    ensures
      var n := Apply(s, IssueCode(code));
      HoldersExclusive(n) && GrantsBound(n) && OutcomesTrue(n) && Paired(n.store)
  {
    var n := Apply(s, IssueCode(code));
    assert forall c :: c in s.issued ==> c in n.issued;
    forall i | 0 <= i < |n.grants| ensures Bound(n, n.grants[i]) { assert Bound(s, s.grants[i]); }
    forall e | e in n.exchanges ensures PhaseTrue(n, n.exchanges[e], n.exchanges[e].phase) {
      assert PhaseTrue(s, s.exchanges[e], s.exchanges[e].phase);
    }
  }

  lemma IssueKeeps(s: State, code: Code)
    requires Inv(s) && Allowed(s, IssueCode(code)) && code.key !in s.store.codes
    ensures Inv(Apply(s, IssueCode(code)))
  {
    IssuedCodesKnown(s, code);
    IssuedLeavesRest(s, code);
    IssuedStayCurrent(s, code);
  }

  lemma IssuedStayCurrent(s: State, code: Code)
    requires InstancesCurrent(s) && Allowed(s, IssueCode(code)) && code.key !in s.store.codes
    ensures InstancesCurrent(Apply(s, IssueCode(code)))
  {}

  /** Nobody but exchange `e` holds the key, and no token was granted for it. */
  ghost predicate FreeBut(s: State, e: nat, key: Key) {
    && (forall f :: f in s.exchanges && f != e && CodeIn(s.exchanges[f].phase).Some? ==>
          CodeIn(s.exchanges[f].phase).value.key != key)
    && (forall i :: 0 <= i < |s.grants| ==> s.grants[i].code.key != key)
  }

  lemma ToKeeps(s: State, e: nat, phase: Phase)
    requires Inv(s) && e in s.exchanges && PhaseTrue(s, s.exchanges[e], phase)
    requires CodeIn(phase).Some? ==>
      var code := CodeIn(phase).value;
      code in s.issued && code.key in s.taken && Presented(s.exchanges[e].input, code) && FreeBut(s, e, code.key)
    ensures Inv(To(s, e, phase))
  {
    assert HoldersExclusive(To(s, e, phase));
    assert OutcomesTrue(To(s, e, phase));
  }

  lemma RemovalKeepsCodes(s: State, key: Key)
    requires CodesKnown(s) && key in s.store.codes
    ensures CodesKnown(s.(store := WithoutCode(s.store, key), taken := s.taken + {key}))
  {
    var i :| 0 <= i < |s.issued| && s.issued[i] == s.store.codes[key];
  }

  lemma RemovalPairs(s: Store, key: Key)
    requires Paired(s)
    ensures Paired(WithoutCode(s, key))
  {}

  lemma RemovalLeavesRest(s: State, key: Key)
    requires HoldersExclusive(s) && GrantsBound(s) && OutcomesTrue(s)
    ensures
      var n := s.(store := WithoutCode(s.store, key), taken := s.taken + {key});
      HoldersExclusive(n) && GrantsBound(n) && OutcomesTrue(n)
  {
    var n := s.(store := WithoutCode(s.store, key), taken := s.taken + {key});
    forall i | 0 <= i < |n.grants| ensures Bound(n, n.grants[i]) { assert Bound(s, s.grants[i]); }
    forall e | e in n.exchanges ensures PhaseTrue(n, n.exchanges[e], n.exchanges[e].phase) {
      assert PhaseTrue(s, s.exchanges[e], s.exchanges[e].phase);
    }
  }

  lemma RemovalKeeps(s: State, key: Key)
    requires Inv(s) && key in s.store.codes
    ensures Inv(s.(store := WithoutCode(s.store, key), taken := s.taken + {key}))
  {
    var n := s.(store := WithoutCode(s.store, key), taken := s.taken + {key});
    assert Paired(n.store) by { RemovalPairs(s.store, key); }
    assert InstancesCurrent(n);
    assert CodesKnown(n) by { RemovalKeepsCodes(s, key); }
    assert HoldersExclusive(n) && GrantsBound(n) && OutcomesTrue(n) by { RemovalLeavesRest(s, key); }
  }

  lemma TakeKeeps(s: State, e: nat, executed: bool, acknowledged: bool)
    requires Inv(s) && e in s.exchanges && s.exchanges[e].phase.Located?
    ensures Inv(TakeStep(s, e, executed, acknowledged))
  {
    var x := s.exchanges[e];
    var key := x.input.key;
    if x.input.parametersAccepted && executed && key in s.store.codes {
      var code := s.store.codes[key];
      var after := s.(store := WithoutCode(s.store, key), taken := s.taken + {key});
      RemovalKeeps(s, key);
      assert FreeBut(after, e, key);
      ToKeeps(after, e, if !acknowledged then Failing(UnknownConsumption)
                        else if Accepts(x, code, s.store.now) then Held(code) else Failing(Consumed));
    } else {
      ToKeeps(s, e, Failing(if !x.input.parametersAccepted then NotAttempted
                            else if executed && acknowledged then Missing else UnknownConsumption));
    }
  }

  lemma TokenKeepsPaired(s: Store, bearer: nat, token: Token)
    requires Paired(s) && CanSave(s, bearer, token)
    ensures Paired(WithToken(s, bearer, token))
  {}

  lemma GrantKeepsBound(s: State, e: nat, g: Grant)
    requires GrantsBound(s) && Bound(s, g) && FreeBut(s, e, g.code.key) && CanSave(s.store, g.bearer, g.token)
    ensures GrantsBound(s.(store := WithToken(s.store, g.bearer, g.token), grants := s.grants + [g]))
  {
    var n := s.(store := WithToken(s.store, g.bearer, g.token), grants := s.grants + [g]);
    forall b | b in n.store.tokens
      ensures exists i :: 0 <= i < |n.grants| && n.grants[i].bearer == b && n.grants[i].token == n.store.tokens[b]
    {
      if b == g.bearer {
        assert n.grants[|s.grants|] == g;
      } else {
        var i :| 0 <= i < |s.grants| && s.grants[i].bearer == b && s.grants[i].token == s.store.tokens[b];
        assert n.grants[i] == s.grants[i];
      }
    }
    forall i | 0 <= i < |n.grants| ensures Bound(n, n.grants[i]) {
      if i < |s.grants| { assert Bound(s, s.grants[i]); }
    }
  }

  lemma GrantKeepsHolders(s: State, e: nat, g: Grant)
    requires HoldersExclusive(s) && FreeBut(s, e, g.code.key) && e in s.exchanges && CodeIn(s.exchanges[e].phase).None?
    ensures HoldersExclusive(s.(store := WithToken(s.store, g.bearer, g.token), grants := s.grants + [g]))
  {}

  lemma GrantLeavesRest(s: State, n: State)
    requires CodesKnown(s) && OutcomesTrue(s) && InstancesCurrent(s)
    requires n.store.codes == s.store.codes && n.issued == s.issued && n.taken == s.taken
    requires n.exchanges == s.exchanges && n.kernel == s.kernel
    ensures CodesKnown(n) && OutcomesTrue(n) && InstancesCurrent(n)
  {}

  lemma GrantKeeps(s: State, e: nat, g: Grant)
    requires Inv(s) && Bound(s, g) && CanSave(s.store, g.bearer, g.token)
    requires FreeBut(s, e, g.code.key) && e in s.exchanges && CodeIn(s.exchanges[e].phase).None?
    ensures Inv(s.(store := WithToken(s.store, g.bearer, g.token), grants := s.grants + [g]))
  {
    TokenKeepsPaired(s.store, g.bearer, g.token);
    GrantKeepsBound(s, e, g);
    GrantKeepsHolders(s, e, g);
    GrantLeavesRest(s, s.(store := WithToken(s.store, g.bearer, g.token), grants := s.grants + [g]));
  }

  lemma SaveKeeps(s: State, e: nat, bearer: nat, token: Token, acknowledged: bool)
    requires Inv(s) && e in s.exchanges && s.exchanges[e].phase.Permitted?
    requires token == TokenFor(s.exchanges[e].phase.code, token.id, token.issuedAt, token.expiresAt)
    ensures Inv(SaveStep(s, e, bearer, token, acknowledged))
  {
    var x := s.exchanges[e];
    var code := CodeIn(x.phase).value;
    if CanSave(s.store, bearer, token) {
      var phase := if acknowledged then Saved(bearer) else Failing(Consumed);
      ToKeeps(s, e, phase);
      GrantKeeps(To(s, e, phase), e, Grant(e, bearer, token, code, x.input));
    } else {
      ToKeeps(s, e, Failing(Consumed));
    }
  }

  lemma PermitKeeps(s: State, e: nat)
    requires Inv(s) && e in s.exchanges && s.exchanges[e].phase.Held?
    ensures Inv(Apply(s, Permit(e)))
  {
    var code := CodeIn(s.exchanges[e].phase).value;
    match ResolveForUse(s.kernel, s.store.now, code.key.userSession, code.key.clientSession, code.key.clientId) {
      case Some(o) => ToKeeps(s, e, if MatchesCode(code, o) then Permitted(code) else Failing(Consumed));
      case None => ToKeeps(s, e, Failing(Consumed));
    }
  }

  lemma RetireKeeps(s: State, instance: nat)
    requires Inv(s)
    ensures Inv(Retire(s, instance))
  {
    SessionsStayCurrent(s, Terminate(instance));
    KernelKeeps(s, Retire(s, instance).kernel);
  }

  lemma FailedKeeps(s: State, e: nat, x: Exchange, terminated: bool)
    requires Inv(s) && e in s.exchanges && s.exchanges[e] == x && x.phase.Failing?
    requires terminated ==> x.observed.client.instance in s.kernel.retired
    ensures Inv(To(s, e, Failed(x.phase.consumption, terminated)))
  {
    FailureIsTrue(s, s, x, terminated);
    ToKeeps(s, e, Failed(x.phase.consumption, terminated));
  }

  lemma RevokeKeeps(s: State, e: nat, executed: bool, confirmed: bool)
    requires Inv(s) && e in s.exchanges && s.exchanges[e].phase.Failing?
    ensures Inv(Apply(s, Revoke(e, executed, confirmed)))
  {
    var x := s.exchanges[e];
    if executed {
      RetireKeeps(s, x.observed.client.instance);
      FailedKeeps(Retire(s, x.observed.client.instance), e, x, confirmed);
    } else {
      FailedKeeps(s, e, x, false);
    }
  }

  lemma FailureIsTrue(s: State, after: State, x: Exchange, terminated: bool)
    requires PhaseTrue(s, x, x.phase) && x.phase.Failing? && after.taken == s.taken
    requires terminated ==> x.observed.client.instance in after.kernel.retired
    ensures PhaseTrue(after, x, Failed(x.phase.consumption, terminated))
  {}

  lemma ApplyKeeps(s: State, step: Step)
    requires Inv(s) && Allowed(s, step)
    ensures Inv(Apply(s, step))
  {
    match step {
      case IssueCode(code) => if code.key !in s.store.codes { IssueKeeps(s, code); }
      case Tick(later) => TickKeeps(s, later);
      case Begin(e, input, user) => BeginKeeps(s, e, input, user);
      case Take(e, executed, acknowledged) =>
        if e in s.exchanges && s.exchanges[e].phase.Located? { TakeKeeps(s, e, executed, acknowledged); }
      case Permit(e) =>
        if e in s.exchanges && s.exchanges[e].phase.Held? { PermitKeeps(s, e); }
      case SaveToken(e, bearer, id, issuedAt, expiresAt, acknowledged) =>
        if e in s.exchanges && s.exchanges[e].phase.Permitted? {
          SaveKeeps(s, e, bearer, TokenFor(s.exchanges[e].phase.code, id, issuedAt, expiresAt), acknowledged);
        }
      case Deliver(e, delivered) =>
        if e in s.exchanges && s.exchanges[e].phase.Saved? {
          ToKeeps(s, e, if delivered then Delivered(s.exchanges[e].phase.bearer) else Failing(Consumed));
        }
      case Abandon(e) =>
        if e in s.exchanges && InBoundary(s.exchanges[e].phase) {
          ToKeeps(s, e, Failing(ConsumptionOf(s.exchanges[e].phase)));
        }
      case Revoke(e, executed, confirmed) =>
        if e in s.exchanges && s.exchanges[e].phase.Failing? { RevokeKeeps(s, e, executed, confirmed); }
      case _ =>
        SessionsStayCurrent(s, step);
        KernelKeeps(s, Apply(s, step).kernel);
    }
  }

  lemma PrefixAllowed(s: State, steps: seq<Step>)
    requires AllowedRun(s, steps) && steps != []
    ensures AllowedRun(s, steps[..|steps| - 1])
    ensures Allowed(Run(s, steps[..|steps| - 1]), steps[|steps| - 1])
  {
    assert forall i :: 0 <= i < |steps| - 1 ==> steps[..|steps| - 1][..i] == steps[..i];
  }

  lemma {:induction false} RunKeeps(s: State, steps: seq<Step>)
    requires Inv(s) && AllowedRun(s, steps)
    ensures Inv(Run(s, steps))
  {
    if steps != [] {
      PrefixAllowed(s, steps);
      RunKeeps(s, steps[..|steps| - 1]);
      ApplyKeeps(Run(s, steps[..|steps| - 1]), steps[|steps| - 1]);
    }
  }

  // ---- What exchanges guarantee over every run ----

  /** A code is exchanged for at most one token (section 4.1.2 of RFC 6749), every stored
      token repeats an issued code, and whoever got it presented that code with its
      redirect URI and code verifier (section 4.6 of RFC 7636). */
  lemma ExchangeSafety(steps: seq<Step>)
    requires AllowedRun(INITIAL, steps)
    ensures
      var s := Run(INITIAL, steps);
      && (forall i, j :: 0 <= i < j < |s.grants| ==> s.grants[i].code.key != s.grants[j].code.key)
      && (forall i :: 0 <= i < |s.grants| ==> Bound(s, s.grants[i]))
      && (forall b :: b in s.store.tokens ==>
            exists i :: 0 <= i < |s.grants| && s.grants[i].bearer == b && s.grants[i].token == s.store.tokens[b])
      && Paired(s.store)
  {
    InitialInv();
    RunKeeps(INITIAL, steps);
  }

  ghost predicate Grows(s: State, t: State) {
    s.kernel.retired <= t.kernel.retired && s.taken <= t.taken && s.issued <= t.issued && s.grants <= t.grants
  }

  lemma StepGrows(s: State, step: Step)
    ensures Grows(s, Apply(s, step))
  {}

  lemma {:induction false} HistoryGrows(s: State, steps: seq<Step>)
    ensures Grows(s, Run(s, steps))
  {
    if steps != [] {
      HistoryGrows(s, steps[..|steps| - 1]);
      StepGrows(Run(s, steps[..|steps| - 1]), steps[|steps| - 1]);
    }
  }

  /** The record is taken, and nobody but exchange `e` has it. */
  ghost predicate OnlyTaker(s: State, e: nat, key: Key) {
    && key in s.taken
    && forall f :: f in s.exchanges && f != e && CodeIn(s.exchanges[f].phase).Some? ==>
         CodeIn(s.exchanges[f].phase).value.key != key
  }

  lemma TakeKeepsTaker(s: State, f: nat, executed: bool, acknowledged: bool, e: nat, key: Key)
    requires CodesKnown(s) && OnlyTaker(s, e, key) && f in s.exchanges && s.exchanges[f].phase.Located?
    ensures OnlyTaker(TakeStep(s, f, executed, acknowledged), e, key)
  {
    assert key !in s.store.codes;
  }

  lemma OthersKeepTaker(s: State, step: Step, e: nat, key: Key)
    requires OnlyTaker(s, e, key) && !step.Take?
    ensures OnlyTaker(Apply(s, step), e, key)
  {}

  lemma StepKeepsTaker(s: State, step: Step, e: nat, key: Key)
    requires CodesKnown(s) && OnlyTaker(s, e, key)
    ensures OnlyTaker(Apply(s, step), e, key)
  {
    if step.Take? {
      if step.e in s.exchanges && s.exchanges[step.e].phase.Located? {
        TakeKeepsTaker(s, step.e, step.executed, step.acknowledged, e, key);
      }
    } else {
      OthersKeepTaker(s, step, e, key);
    }
  }

  /** takeCode: whoever holds a code is the only exchange that ever will, and its record is
      gone for good. */
  lemma {:induction false} CodeIsTakenOnce(s: State, e: nat, steps: seq<Step>)
    requires Inv(s) && AllowedRun(s, steps) && e in s.exchanges && CodeIn(s.exchanges[e].phase).Some?
    ensures
      var key := CodeIn(s.exchanges[e].phase).value.key;
      OnlyTaker(Run(s, steps), e, key) && key !in Run(s, steps).store.codes
  {
    RunKeeps(s, steps);
    if steps != [] {
      PrefixAllowed(s, steps);
      CodeIsTakenOnce(s, e, steps[..|steps| - 1]);
      RunKeeps(s, steps[..|steps| - 1]);
      StepKeepsTaker(Run(s, steps[..|steps| - 1]), steps[|steps| - 1], e, CodeIn(s.exchanges[e].phase).value.key);
    }
  }

  lemma RetiredNeverResolves(s: State, bearer: nat, issuer: string)
    requires bearer in s.store.tokens && s.store.tokens[bearer].clientInstance in s.kernel.retired
    ensures !Resolves(s, bearer, issuer)
  {}

  /** Once an exchange has reported its client session terminated, no token bound to that
      instance resolves in any later state, also one stored by an exchange still under way. */
  lemma TerminatedInstanceNeverResolves(s: State, e: nat, steps: seq<Step>, bearer: nat, issuer: string)
    requires Inv(s) && AllowedRun(s, steps) && e in s.exchanges
    requires s.exchanges[e].phase.Failed? && s.exchanges[e].phase.terminated
    requires
      var later := Run(s, steps);
      bearer in later.store.tokens && later.store.tokens[bearer].clientInstance == s.exchanges[e].observed.client.instance
    ensures !Resolves(Run(s, steps), bearer, issuer)
  {
    HistoryGrows(s, steps);
    assert PhaseTrue(s, s.exchanges[e], s.exchanges[e].phase);
    RetiredNeverResolves(Run(s, steps), bearer, issuer);
  }

  /** What exchange `e` observed when it began is final or superseded. */
  ghost predicate ObservedBy(s: State, e: nat, code: Code) {
    && e in s.exchanges && s.exchanges[e].input.key == code.key
    && (code.clientInstance == s.exchanges[e].observed.client.instance || code.clientInstance in s.kernel.retired)
  }

  lemma StepObserved(s: State, e: nat, step: Step, code: Code)
    requires Allowed(s, step) && ObservedBy(s, e, code)
    ensures ObservedBy(Apply(s, step), e, code)
  {}

  lemma {:induction false} ObservationLasts(s: State, e: nat, steps: seq<Step>, code: Code)
    requires AllowedRun(s, steps) && ObservedBy(s, e, code)
    ensures ObservedBy(Run(s, steps), e, code)
  {
    if steps != [] {
      PrefixAllowed(s, steps);
      ObservationLasts(s, e, steps[..|steps| - 1], code);
      StepObserved(Run(s, steps[..|steps| - 1]), e, steps[|steps| - 1], code);
    }
  }

  lemma ReplayRetires(s: State, code: Code, e: nat, input: Input, user: UserSession, first: seq<Step>)
    requires Inv(s) && code in s.issued && input.key == code.key && Allowed(s, Begin(e, input, user))
    requires e in Apply(s, Begin(e, input, user)).exchanges && AllowedRun(Apply(s, Begin(e, input, user)), first)
    requires
      var mid := Run(Apply(s, Begin(e, input, user)), first);
      e in mid.exchanges && mid.exchanges[e].phase.Failed? && mid.exchanges[e].phase.terminated
    ensures
      var mid := Run(Apply(s, Begin(e, input, user)), first);
      Inv(mid) && code.clientInstance in mid.kernel.retired && code in mid.issued
  {
    var began := Apply(s, Begin(e, input, user));
    ApplyKeeps(s, Begin(e, input, user));
    assert Current(s.kernel, code.key.clientSession, code.clientInstance);
    ObservationLasts(began, e, first, code);
    RunKeeps(began, first);
    var mid := Run(began, first);
    assert PhaseTrue(mid, mid.exchanges[e], mid.exchanges[e].phase);
    HistoryGrows(began, first);
  }

  /** Replaying a code revokes what it was exchanged for: when an exchange that began after
      the code was issued ends with its client session terminated, no token granted for
      that code, before or after, ever resolves again (section 4.1.2 of RFC 6749). */
  lemma ReplayRevokesItsToken(s: State, code: Code, e: nat, input: Input, user: UserSession, first: seq<Step>, rest: seq<Step>,
                              i: nat, issuer: string)
    requires Inv(s) && code in s.issued && input.key == code.key && Allowed(s, Begin(e, input, user))
    requires e in Apply(s, Begin(e, input, user)).exchanges && AllowedRun(Apply(s, Begin(e, input, user)), first)
    requires
      var mid := Run(Apply(s, Begin(e, input, user)), first);
      && e in mid.exchanges && mid.exchanges[e].phase.Failed? && mid.exchanges[e].phase.terminated
      && AllowedRun(mid, rest)
    requires
      var later := Run(Run(Apply(s, Begin(e, input, user)), first), rest);
      i < |later.grants| && later.grants[i].code.key == code.key
      && later.grants[i].bearer in later.store.tokens
      && later.store.tokens[later.grants[i].bearer] == later.grants[i].token
    ensures
      var later := Run(Run(Apply(s, Begin(e, input, user)), first), rest);
      !Resolves(later, later.grants[i].bearer, issuer)
  {
    var mid := Run(Apply(s, Begin(e, input, user)), first);
    ReplayRetires(s, code, e, input, user, first);
    HistoryGrows(mid, rest);
    var later := Run(mid, rest);
    RunKeeps(mid, rest);
    assert Bound(later, later.grants[i]);
    SameCode(later, code, later.grants[i].code);
    RetiredNeverResolves(later, later.grants[i].bearer, issuer);
  }

  lemma SameCode(s: State, a: Code, b: Code)
    requires CodesKnown(s) && a in s.issued && b in s.issued && a.key == b.key
    ensures a == b
  {
    var i :| 0 <= i < |s.issued| && s.issued[i] == a;
    var j :| 0 <= j < |s.issued| && s.issued[j] == b;
  }

  // ---- Codes of sessions that are already over ----

  /** The instance is retired, and only the exchanges in `passed` stand between their permission
      check for one of its codes and storing the token. */
  ghost predicate Barred(s: State, instance: nat, passed: set<nat>) {
    && instance in s.kernel.retired
    && forall e :: e in s.exchanges && s.exchanges[e].phase.Permitted? && s.exchanges[e].phase.code.clientInstance == instance ==>
         e in passed
  }

  /** Tokens granted so far for the instance, to other exchanges than those. */
  function GrantsFor(grants: seq<Grant>, instance: nat, passed: set<nat>): nat {
    if grants == [] then 0
    else
      var last := grants[|grants| - 1];
      GrantsFor(grants[..|grants| - 1], instance, passed)
      + if last.token.clientInstance == instance && last.holder !in passed then 1 else 0
  }

  lemma PermitStaysBarred(s: State, e: nat, instance: nat, passed: set<nat>)
    requires Barred(s, instance, passed)
    ensures Barred(Apply(s, Permit(e)), instance, passed) && Apply(s, Permit(e)).grants == s.grants
  {}

  lemma SaveStaysBarred(s: State, step: Step, instance: nat, passed: set<nat>)
    requires Barred(s, instance, passed) && step.SaveToken?
    ensures Barred(Apply(s, step), instance, passed)
    ensures GrantsFor(Apply(s, step).grants, instance, passed) == GrantsFor(s.grants, instance, passed)
  {
    var n := Apply(s, step);
    if n.grants != s.grants {
      assert n.grants[..|n.grants| - 1] == s.grants;
    }
  }

  lemma OtherStaysBarred(s: State, step: Step, instance: nat, passed: set<nat>)
    requires Barred(s, instance, passed) && !step.SaveToken? && !step.Permit?
    ensures Barred(Apply(s, step), instance, passed) && Apply(s, step).grants == s.grants
  {}

  lemma StepStaysBarred(s: State, step: Step, instance: nat, passed: set<nat>)
    requires Barred(s, instance, passed)
    ensures Barred(Apply(s, step), instance, passed)
    ensures GrantsFor(Apply(s, step).grants, instance, passed) == GrantsFor(s.grants, instance, passed)
  {
    match step {
      case Permit(e) => PermitStaysBarred(s, e, instance, passed);
      case SaveToken(_, _, _, _, _, _) => SaveStaysBarred(s, step, instance, passed);
      case _ => OtherStaysBarred(s, step, instance, passed);
    }
  }

  /** Once a client session has ended, no exchange passes its permission check for a code of it,
      and none that had not passed it before stores a token for one, however the exchanges
      interleave: permission is checked against the live session. */
  lemma {:induction false} EndedSessionGetsNoToken(s: State, steps: seq<Step>, instance: nat, passed: set<nat>)
    requires Barred(s, instance, passed)
    ensures Barred(Run(s, steps), instance, passed)
    ensures GrantsFor(Run(s, steps).grants, instance, passed) == GrantsFor(s.grants, instance, passed)
  {
    if steps != [] {
      EndedSessionGetsNoToken(s, steps[..|steps| - 1], instance, passed);
      StepStaysBarred(Run(s, steps[..|steps| - 1]), steps[|steps| - 1], instance, passed);
    }
  }

  // ---- An exchange that nothing disturbs ----

  /** The code stands, both sessions are the ones it was issued for, and the client
      presents it properly. */
  ghost predicate Exchangeable(s: State, code: Code, input: Input) {
    && code.key in s.store.codes && s.store.codes[code.key] == code
    && code.issuedAt <= s.store.now < code.expiresAt
    && Presented(input, code) && input.parametersAccepted
    && (match ResolveForUse(s.kernel, s.store.now, code.key.userSession, code.key.clientSession, code.key.clientId)
        case None => false
        case Some(o) => MatchesCode(code, o))
  }

  lemma PermissionIsGranted(s: State, code: Code, input: Input, e: nat)
    requires Exchangeable(s, code, input) && e !in s.exchanges
    ensures
      var began := Apply(s, Begin(e, input, s.kernel.users[code.key.userSession]));
      var permitted := Apply(Apply(began, Take(e, true, true)), Permit(e));
      && e in permitted.exchanges && permitted.exchanges[e].phase == Permitted(code)
      && permitted.store == WithoutCode(s.store, code.key) && permitted.kernel == s.kernel && permitted.grants == s.grants
  {
    var began := Apply(s, Begin(e, input, s.kernel.users[code.key.userSession]));
    assert began.exchanges[e].phase == Located;
    assert Apply(began, Take(e, true, true)).exchanges[e].phase == Held(code);
  }

  lemma GrantedTokenResolves(s: State, code: Code, e: nat, bearer: nat, id: nat, expiresAt: nat)
    requires e in s.exchanges && s.exchanges[e].phase == Permitted(code)
    requires CanSave(s.store, bearer, TokenFor(code, id, s.store.now, expiresAt)) && expiresAt > s.store.now
    requires
      var o := ResolveForUse(s.kernel, s.store.now, code.key.userSession, code.key.clientSession, code.key.clientId);
      o.Some? && MatchesCode(code, o.value)
    ensures
      var done := Apply(Apply(s, SaveToken(e, bearer, id, s.store.now, expiresAt, true)), Deliver(e, true));
      && e in done.exchanges && done.exchanges[e].phase == Delivered(bearer) && Resolves(done, bearer, code.issuer)
      && done.store.codes == s.store.codes && |done.grants| == |s.grants| + 1
  {
    var saved := Apply(s, SaveToken(e, bearer, id, s.store.now, expiresAt, true));
    assert saved.exchanges[e].phase == Saved(bearer);
  }

  /** Such an exchange delivers a token that resolves. */
  lemma UndisturbedExchangeSucceeds(s: State, code: Code, input: Input, e: nat, bearer: nat, id: nat, expiresAt: nat)
    requires Exchangeable(s, code, input) && e !in s.exchanges
    requires CanSave(s.store, bearer, TokenFor(code, id, s.store.now, expiresAt)) && expiresAt > s.store.now
    ensures
      var began := Apply(s, Begin(e, input, s.kernel.users[code.key.userSession]));
      var permitted := Apply(Apply(began, Take(e, true, true)), Permit(e));
      var done := Apply(Apply(permitted, SaveToken(e, bearer, id, s.store.now, expiresAt, true)), Deliver(e, true));
      && e in done.exchanges && done.exchanges[e].phase == Delivered(bearer) && Resolves(done, bearer, code.issuer)
      && code.key !in done.store.codes && |done.grants| == |s.grants| + 1
  {
    var permitted := Apply(Apply(Apply(s, Begin(e, input, s.kernel.users[code.key.userSession])), Take(e, true, true)), Permit(e));
    PermissionIsGranted(s, code, input, e);
    GrantedTokenResolves(permitted, code, e, bearer, id, expiresAt);
  }
}
