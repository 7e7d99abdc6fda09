// The rebuild-state table and the documents it controls. Each operation below is what
// one guarded SQL statement does to one row; a batch statement does it row by row
// (packages/document-update/src/index.ts).
module RebuildRows {
  import opened Json

  datatype Status = Pending | Processing | Processed | Failed

  datatype Row = Row(version: nat, status: Status, token: Option<nat>)

  /** A rebuild request together with the token minted for claiming it. */
  datatype Claim = Claim(target: nat, version: nat, token: nat)

  datatype Request = Request(target: nat, version: nat)

  /** `log` lists the committed publications in commit order; `minted` the random tokens
      generated so far, claimed or not. */
  datatype Store = Store(rows: map<nat, Row>, documents: map<nat, nat>, log: seq<Claim>, minted: set<nat>)

  const SQL_TARGET_BATCH_SIZE := 1000

  const EMPTY_STORE := Store(map[], map[], [], {})

  // ---- One row ----

  /** The row is processing exactly this claim. */
  predicate Owns(s: Store, c: Claim) {
    c.target in s.rows && s.rows[c.target] == Row(c.version, Processing, Some(c.token))
  }

  function VersionOf(s: Store, target: nat): nat {
    if target in s.rows then s.rows[target].version else 0
  }

  /** INSERT … ON CONFLICT DO UPDATE: one more version is required of the target. */
  function Bump(s: Store, target: nat): Store {
    s.(rows := s.rows[target := Row(VersionOf(s, target) + 1, Pending, None)])
  }

  predicate Claimable(s: Store, c: Claim) {
    && c.target in s.rows
    && s.rows[c.target].version == c.version
    && (s.rows[c.target].status.Pending? || s.rows[c.target].status.Failed?)
  }

  function ClaimOne(s: Store, c: Claim): Store {
    var t := s.(minted := s.minted + {c.token});
    if Claimable(s, c) then t.(rows := s.rows[c.target := Row(c.version, Processing, Some(c.token))]) else t
  }

  function PublishOne(s: Store, c: Claim): Store {
    if Owns(s, c) then
      s.(rows := s.rows[c.target := Row(c.version, Processed, None)],
         documents := s.documents[c.target := c.version],
         log := s.log + [c])
    else s
  }

  function FailOne(s: Store, c: Claim): Store {
    if Owns(s, c) then s.(rows := s.rows[c.target := Row(c.version, Failed, None)]) else s
  }

  /** Repair takes a row over unless it is processed. Which processing rows count as
      stale is decided by the clock, so any of them may be selected. */
  function RepairOne(s: Store, target: nat): Store {
    if target in s.rows && !s.rows[target].status.Processed?
    then s.(rows := s.rows[target := Row(s.rows[target].version, Pending, None)])
    else s
  }

  // ---- Batches ----

  function BumpAll(s: Store, targets: seq<nat>): Store {
    if targets == [] then s else Bump(BumpAll(s, targets[..|targets| - 1]), targets[|targets| - 1])
  }

  function ClaimAll(s: Store, claims: seq<Claim>): Store {
    if claims == [] then s else ClaimOne(ClaimAll(s, claims[..|claims| - 1]), claims[|claims| - 1])
  }

  function PublishAll(s: Store, claims: seq<Claim>): Store {
    if claims == [] then s else PublishOne(PublishAll(s, claims[..|claims| - 1]), claims[|claims| - 1])
  }

  /** Cleanup leaves rows that another session holds locked as they are. */
  function FailAll(s: Store, claims: seq<Claim>, locked: set<nat>): Store {
    if claims == [] then s else
      var front := FailAll(s, claims[..|claims| - 1], locked);
      var last := claims[|claims| - 1];
      if last.target in locked then front else FailOne(front, last)
  }

  function RepairAll(s: Store, targets: seq<nat>): Store {
    if targets == [] then s else RepairOne(RepairAll(s, targets[..|targets| - 1]), targets[|targets| - 1])
  }

  // ---- What every row operation keeps ----

  ghost predicate RowsConsistent(s: Store) {
    forall t :: t in s.rows ==>
      && s.rows[t].version >= 1
      && (s.rows[t].status.Processing? <==> s.rows[t].token.Some?)
      && (s.rows[t].status.Processed? <==> t in s.documents && s.documents[t] == s.rows[t].version)
  }

  ghost predicate DocumentsConsistent(s: Store) {
    && (forall t :: t in s.documents ==> t in s.rows && s.documents[t] <= s.rows[t].version)
    && (forall i :: 0 <= i < |s.log| ==>
          s.log[i].target in s.documents && s.log[i].version <= s.documents[s.log[i].target])
  }

  ghost predicate LogIncreasing(s: Store) {
    forall i, j :: 0 <= i < j < |s.log| && s.log[i].target == s.log[j].target ==> s.log[i].version < s.log[j].version
  }

  predicate HeldBy(s: Store, token: nat, target: nat) {
    target in s.rows && s.rows[target].token == Some(token)
  }

  /** Tokens identify claims: no two rows hold the same one, and a published token is
      never held again. */
  ghost predicate TokensConsistent(s: Store) {
    && (forall t :: t in s.rows && s.rows[t].token.Some? ==> s.rows[t].token.value in s.minted)
    && (forall i :: 0 <= i < |s.log| ==> s.log[i].token in s.minted)
    && (forall k, t, u :: HeldBy(s, k, t) && HeldBy(s, k, u) ==> t == u)
    && (forall i, t :: 0 <= i < |s.log| ==> !HeldBy(s, s.log[i].token, t))
    && (forall i, j :: 0 <= i < j < |s.log| ==> s.log[i].token != s.log[j].token)
  }

  ghost predicate StoreInv(s: Store) {
    RowsConsistent(s) && DocumentsConsistent(s) && LogIncreasing(s) && TokensConsistent(s)
  }

  /** Giving tokens up breaks nothing. */
  lemma GivenUp(s: Store, t: Store)
    requires TokensConsistent(s) && t.log == s.log && s.minted <= t.minted
    requires forall k, u :: HeldBy(t, k, u) ==> HeldBy(s, k, u)
    ensures TokensConsistent(t)
  {
    forall u | u in t.rows && t.rows[u].token.Some? ensures t.rows[u].token.value in t.minted {
      assert HeldBy(t, t.rows[u].token.value, u);
    }
  }

  lemma BumpKeeps(s: Store, target: nat)
    requires StoreInv(s)
    ensures StoreInv(Bump(s, target))
  {
    GivenUp(s, Bump(s, target));
  }

  lemma ClaimKeepsTokens(s: Store, c: Claim)
    requires TokensConsistent(s) && c.token !in s.minted
    ensures TokensConsistent(ClaimOne(s, c))
  {
    forall k, t ensures HeldBy(ClaimOne(s, c), k, t) ==> HeldBy(s, k, t) || (k == c.token && t == c.target) {}
  }

  lemma ClaimKeeps(s: Store, c: Claim)
    requires StoreInv(s) && c.token !in s.minted
    ensures StoreInv(ClaimOne(s, c))
  {
    ClaimKeepsTokens(s, c);
  }

  lemma PublishKeepsDocuments(s: Store, c: Claim)
    requires StoreInv(s) && Owns(s, c)
    ensures RowsConsistent(PublishOne(s, c)) && DocumentsConsistent(PublishOne(s, c))
  {
    var n := PublishOne(s, c);
    assert n.log[|s.log|] == c;
    assert forall i :: 0 <= i < |s.log| ==> n.log[i] == s.log[i];
  }

  lemma PublishKeepsOrder(s: Store, c: Claim)
    requires StoreInv(s) && Owns(s, c)
    ensures LogIncreasing(PublishOne(s, c))
  {
    // The row is not processed yet, so its stored document is older than its version.
    assert forall i :: 0 <= i < |s.log| && s.log[i].target == c.target ==> s.log[i].version < c.version;
  }

  lemma PublishKeepsTokens(s: Store, c: Claim)
    requires StoreInv(s) && Owns(s, c)
    ensures TokensConsistent(PublishOne(s, c))
  {
    var n := PublishOne(s, c);
    assert HeldBy(s, c.token, c.target);
    forall k, t | HeldBy(n, k, t) ensures HeldBy(s, k, t) && k != c.token {
      assert t != c.target && HeldBy(s, k, t);
    }
    assert forall i :: 0 <= i < |s.log| ==> n.log[i] == s.log[i] && s.log[i].token != c.token;
    assert n.log[|s.log|] == c;
  }

  lemma PublishKeeps(s: Store, c: Claim)
    requires StoreInv(s)
    ensures StoreInv(PublishOne(s, c))
  {
    if Owns(s, c) {
      PublishKeepsDocuments(s, c);
      PublishKeepsOrder(s, c);
      PublishKeepsTokens(s, c);
    }
  }

  lemma FailKeeps(s: Store, c: Claim)
    requires StoreInv(s)
    ensures StoreInv(FailOne(s, c))
  {
    GivenUp(s, FailOne(s, c));
  }

  lemma RepairKeeps(s: Store, target: nat)
    requires StoreInv(s)
    ensures StoreInv(RepairOne(s, target))
  {
    GivenUp(s, RepairOne(s, target));
  }

  lemma {:induction false} BumpAllKeeps(s: Store, targets: seq<nat>)
    requires StoreInv(s)
    ensures StoreInv(BumpAll(s, targets))
  {
    if targets != [] {
      BumpAllKeeps(s, targets[..|targets| - 1]);
      BumpKeeps(BumpAll(s, targets[..|targets| - 1]), targets[|targets| - 1]);
    }
  }

  /** Tokens minted for one statement are new and all different. */
  ghost predicate FreshTokens(s: Store, claims: seq<Claim>) {
    && (forall i :: 0 <= i < |claims| ==> claims[i].token !in s.minted)
    && (forall i, j :: 0 <= i < j < |claims| ==> claims[i].token != claims[j].token)
  }

  function Tokens(claims: seq<Claim>): set<nat> {
    if claims == [] then {} else Tokens(claims[..|claims| - 1]) + {claims[|claims| - 1].token}
  }

  lemma {:induction false} TokensOf(claims: seq<Claim>, k: nat)
    ensures k in Tokens(claims) <==> exists i :: 0 <= i < |claims| && claims[i].token == k
  {
    if claims != [] {
      var init := claims[..|claims| - 1];
      TokensOf(init, k);
      if i :| 0 <= i < |claims| && claims[i].token == k {
        if i < |init| { assert init[i].token == k; }
      }
    }
  }

  lemma {:induction false} ClaimAllMints(s: Store, claims: seq<Claim>)
    ensures ClaimAll(s, claims).minted == s.minted + Tokens(claims)
  {
    if claims != [] { ClaimAllMints(s, claims[..|claims| - 1]); }
  }

  lemma {:induction false} ClaimAllKeeps(s: Store, claims: seq<Claim>)
    requires StoreInv(s) && FreshTokens(s, claims)
    ensures StoreInv(ClaimAll(s, claims))
  {
    if claims != [] {
      var init, last := claims[..|claims| - 1], claims[|claims| - 1];
      ClaimAllKeeps(s, init);
      ClaimAllMints(s, init);
      TokensOf(init, last.token);
      ClaimKeeps(ClaimAll(s, init), last);
    }
  }

  lemma {:induction false} PublishAllKeeps(s: Store, claims: seq<Claim>)
    requires StoreInv(s)
    ensures StoreInv(PublishAll(s, claims))
  {
    if claims != [] {
      PublishAllKeeps(s, claims[..|claims| - 1]);
      PublishKeeps(PublishAll(s, claims[..|claims| - 1]), claims[|claims| - 1]);
    }
  }

  lemma {:induction false} FailAllKeeps(s: Store, claims: seq<Claim>, locked: set<nat>)
    requires StoreInv(s)
    ensures StoreInv(FailAll(s, claims, locked))
  {
    if claims != [] {
      FailAllKeeps(s, claims[..|claims| - 1], locked);
      FailKeeps(FailAll(s, claims[..|claims| - 1], locked), claims[|claims| - 1]);
    }
  }

  lemma {:induction false} RepairAllKeeps(s: Store, targets: seq<nat>)
    requires StoreInv(s)
    ensures StoreInv(RepairAll(s, targets))
  {
    if targets != [] {
      RepairAllKeeps(s, targets[..|targets| - 1]);
      RepairKeeps(RepairAll(s, targets[..|targets| - 1]), targets[|targets| - 1]);
    }
  }

  // ---- What no row operation undoes ----

  /** Versions and stored documents never go back, a row never disappears, and the
      publication log only grows. */
  ghost predicate Advances(s: Store, t: Store) {
    && (forall k :: k in s.rows ==> k in t.rows && s.rows[k].version <= t.rows[k].version)
    && (forall k :: k in s.documents ==> k in t.documents && s.documents[k] <= t.documents[k])
    && s.log <= t.log
    && s.minted <= t.minted
  }

  lemma AdvancesTransitive(s: Store, t: Store, u: Store)
    requires Advances(s, t) && Advances(t, u)
    ensures Advances(s, u)
  {}

  lemma {:induction false} BumpAllAdvances(s: Store, targets: seq<nat>)
    ensures Advances(s, BumpAll(s, targets))
  {
    if targets != [] { BumpAllAdvances(s, targets[..|targets| - 1]); }
  }

  lemma {:induction false} ClaimAllAdvances(s: Store, claims: seq<Claim>)
    ensures Advances(s, ClaimAll(s, claims))
  {
    if claims != [] { ClaimAllAdvances(s, claims[..|claims| - 1]); }
  }

  lemma PublishAdvances(s: Store, c: Claim)
    requires StoreInv(s)
    ensures Advances(s, PublishOne(s, c))
  {}

  lemma {:induction false} PublishAllAdvances(s: Store, claims: seq<Claim>)
    requires StoreInv(s)
    ensures Advances(s, PublishAll(s, claims))
  {
    if claims != [] {
      var front := PublishAll(s, claims[..|claims| - 1]);
      PublishAllAdvances(s, claims[..|claims| - 1]);
      PublishAllKeeps(s, claims[..|claims| - 1]);
      PublishAdvances(front, claims[|claims| - 1]);
      AdvancesTransitive(s, front, PublishAll(s, claims));
    }
  }

  lemma {:induction false} FailAllAdvances(s: Store, claims: seq<Claim>, locked: set<nat>)
    ensures Advances(s, FailAll(s, claims, locked))
  {
    if claims != [] { FailAllAdvances(s, claims[..|claims| - 1], locked); }
  }

  lemma {:induction false} RepairAllAdvances(s: Store, targets: seq<nat>)
    ensures Advances(s, RepairAll(s, targets))
  {
    if targets != [] { RepairAllAdvances(s, targets[..|targets| - 1]); }
  }
}
