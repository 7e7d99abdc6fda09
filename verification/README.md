# Verified models of the IAM monorepo

Dafny models of seven protocols, compilers and schedulers of the repository, each proved to
do what the rest of the system relies on. Verify everything with `dafny verify dfyconfig.toml`.

**Document update** (`RebuildRows`, `RebuildProtocol`, `BatchPublication`, `BatchRebuild`).
Source changes become outbox rows; expanding a row bumps the version of every affected target;
workers claim a (target, version) pair with a fresh token, build it, and publish under that
token; repair takes over stale owners. A step is one committed transaction of any worker, so a
run is any interleaving. Bulk publication isolates failing targets by recursive bisection with
an attempt budget; everything the database, the clock and other sessions may do to it is an
oracle, so its theorems hold for every schedule of faults.

**Search filters** (`Json`, `FilterBudget`, `FilterStructure`, `FilterCompiler`,
`FilterMeaning`, `DocumentView`). A budget check, a path table, a parser and a compiler from
typed filters to SQL conditions, evaluated here under three-valued logic; and the SQL view of a
user document for one client, against the projection that responses are built from.

**Spec scheduler** (`SpecGraph`, `Workflow`, `Delivery`). Loading a dependency graph, cycle
search with a shared memo, the frontier of executable tickets, the bounded-parallel dispatcher,
and delivery: accepting a candidate, one squash commit, closing and cleanup, across crashes, with
a restart able to finish from wherever it was cut off.

**OIDC code exchange** (`OidcExchange`). Single-use codes, tokens bound to session instances and
revocation on failure, under any interleaving of exchanges and session changes.

**Delegations** (`Delegation`). Transactions that lock, check and write, interleaved step by
step, and the uniqueness of the effective delegatee on the organization tree.

**Gateway reconciler** (`CanonicalJson`, `GatewayPlan`, `GatewayManifest`). Comparing, planning,
applying and re-planning, and why scopes leave each other alone.

**Command capture** (`CommandCapture`). Bounded buffers that are a function of the whole stream.

## Results about the code

* A claim statement that commits without being acknowledged leaves the rows it took
  `processing`: the catch block of `processRebuildBatch` then cleans up an empty list. That is
  exactly the leak of an otherwise clean run (`BatchRebuild.Rebuilder.ProcessChunk`), and only an
  expansion or a repair of the target ends it (`RebuildProtocol.OwnershipLastsUntilEnded`).
* The path table of the filter engine files a field under its names joined by dots, so two fields
  of one level can share an entry: `a` with a field `b`, and a field `a.b`
  (`FilterStructure.DottedNameCollides`). Every field keeps its own entry exactly when no two
  comparable fields and no two collections of a level have the same dotted path; a dot in a name
  does no harm by itself (`FilterStructure.KeepsEveryFieldExactlyWhenUnambiguous`). Compiled
  filters keep their meaning under that condition, which the user document's structure meets.
* Plugin metadata is shared between gateway scopes: its identifier is the plugin's own name.
  Carrying out one scope's plan leaves another scope's resource alone exactly unless it is metadata
  of a plugin that the manifest names, and such metadata then carries the labels of the scope that
  wrote last (`GatewayManifest.OtherScopeIsUntouched`, `GatewayManifest.SharedPluginIsOverwritten`).
  Two scopes in turn come to rest exactly when no plugin is in both manifests
  (`GatewayManifest.TurnsConvergeExactly`).
* A squash commit made after somebody else has committed is not the promised one. A due commit
  delivers exactly when the branch still stands at the review base and the index holds the
  candidate's tree (`Delivery.CommitDeliversExactly`, `Delivery.MovedHeadStops`); a Spec with another
  commit is never touched again by any restart (`Delivery.Deliverer.Live`). Otherwise an undisturbed
  restart leaves a Spec unfinished exactly when the index is staged, or nothing is delivered and the
  next handoff is not feasible: the moved base does not merge, acceptance does not complete, the
  recorded commits do not descend from each other, the Spec has no tickets, or squashing does not
  give the candidate's tree (`Delivery.Deliverer.Restart`).

## Assumptions

* Random identifiers (tokens, code identifiers, session instances, commit hashes) are new, and
  digests of different texts differ.
* One SQL statement or transaction, one Redis script and one session-kernel call are atomic.
  Delegation transactions run at read-committed isolation, each holding its delegator's row lock.
* Session kernel: one record per session identifier; a terminated or replaced instance never
  resolves again. Its implementation is not part of this model.
* JSON objects name no key twice, and none compared by the gateway planner is named `__proto__`.
* A stored user document has exactly the keys of its schema at the top level and in its employments;
  the strict schema refuses any other.
* Deliveries: other people only add commits to the invocation branch, none of them with this
  Spec's trailer, and do not touch its branches, worktrees or issues. A restart restores first
  and delivers what it restored. All tickets of the Spec are integrated when a model run starts,
  and nothing is delivered, closed or removed (`Delivery.StartIsKept`).
* Gateway: the server keeps what it is given, and adds only generated fields and fields at
  their default; a plan's deletes are carried out (pruning is on).

## Model

| member | source | states |
|---|---|---|
| `RebuildProtocol.RunKeeps` | packages/document-update/src/index.ts:138-209 | Every run of expansions, claims, publications, cleanups and repairs by any workers keeps the joint invariant of outbox, rebuild rows, documents, tokens and receipts. |
| `RebuildProtocol.PublicationSafety` | packages/document-update/src/index.ts:320-347 | From the empty state, over every interleaving: published versions of a target strictly increase, no version or token publishes twice, a token is present exactly while processing, and a row is processed exactly when its stored document carries its version. |
| `RebuildProtocol.LostOwnershipNeverReturns` | packages/document-update/src/index.ts:231-244 | A claim whose row was bumped, repaired, failed or published never owns the row again, so publishing or failing with it later changes nothing. |
| `RebuildProtocol.OwnershipLastsUntilEnded` | packages/document-update/src/index.ts:539-572 | A row stays with its claim through every run in which nobody expands or repairs its target and nobody presents the claim: only those can end an orphaned claim. |
| `RebuildProtocol.VersionsCountExpansions` | packages/document-update/src/index.ts:170-190 | A target's version after a run is its version before plus the number of newly processed outbox rows that named it. |
| `RebuildProtocol.ProcessedIsTerminal` | packages/document-update/src/index.ts:157-189 | A processed outbox row is never changed again, by any worker, and so is expanded once. |
| `RebuildProtocol.NoInvalidationIsLost` | packages/document-update/src/index.ts:539-572 | Every version a receipt asked for is covered by a published document at least as new, or any repair that selects its row, whatever else it selects, then claim and publish reach such a document. |
| `RebuildProtocol.UnprocessedOutboxCanExpand` | packages/document-update/src/index.ts:138-189 | After any repair that selects it, an outbox row that is not processed can be claimed and expanded. |
| `RebuildRows.PublishKeepsOrder` | packages/document-update/src/index.ts:320-340 | A publication under the current token is for a version above every published version of its target. |
| `RebuildRows.PublishKeepsTokens` | packages/document-update/src/index.ts:320-340 | A published token is never held by a row again. |
| `RebuildRows.ClaimAllKeeps` | packages/document-update/src/index.ts:211-252 | A claim statement with fresh tokens keeps rows, documents, order and tokens consistent. |
| `RebuildRows.FailAllAdvances` | packages/document-update/src/index.ts:254-306 | Cleanup takes back no version, no stored document and no publication. |
| `BatchPublication.FailReleases` | packages/document-update/src/index.ts:382-394 | After a cleanup a claim of its group owns its row only if the statement failed or found the row locked. |
| `BatchPublication.FailReports` | packages/document-update/src/index.ts:382-394 | A cleanup adds each candidate to the report as often as its group names it. |
| `BatchPublication.CommitReports` | packages/document-update/src/index.ts:498-509 | A committed transaction adds each candidate to the report as often as its group names it, as published or as stale. |
| `BatchPublication.Publisher.AttemptGroup` | packages/document-update/src/index.ts:396-531 | The recursive bisection with its mutable counters computes the pure function Attempt, and terminates by retry left, then group size. |
| `BatchPublication.PublishPreparedBatch` | packages/document-update/src/index.ts:349-374 | A batch is refused exactly when it is oversized or names a target twice; otherwise it runs with twice as many attempts as candidates. |
| `BatchPublication.EveryCandidateReportedOnce` | packages/document-update/src/index.ts:396-531 | Whatever faults occur, target-local ones that do not come back included, every candidate is reported exactly once as published, stale or failed. |
| `BatchPublication.BudgetSuffices` | packages/document-update/src/index.ts:372-406 | From any state, a limit that leaves twice the group minus one attempts and the unused retry is never reached: a larger limit gives the same outcome. |
| `BatchPublication.BatchStartsAtMostTwicePerCandidate` | packages/document-update/src/index.ts:372-406 | A batch starts at most twice as many transactions as it has candidates and its attempt-budget branch is never taken. |
| `BatchPublication.BisectionIsolates` | packages/document-update/src/index.ts:513-523 | Bisection publishes the eligible healthy targets, reports ineligible ones stale and poisoned ones failed, in order, also across a confirmed abort and whatever other sessions do to the rows of other targets; any further row that nobody else touches stays as it was. |
| `BatchPublication.BatchIsolatesBadTargets` | packages/document-update/src/index.ts:349-536 | The same for a whole batch, every poison set and every batch with distinct targets, while other sessions leave its own rows alone. |
| `BatchPublication.AttemptFollows` | packages/document-update/src/index.ts:396-531 | Under any faults and interference a batch keeps the table consistent, undoes no commit, and gives no token a row it did not own. |
| `BatchPublication.RunsAreRespectful` | packages/document-update/src/index.ts:138-209 | Every run of other workers is an interference of the kind the batch results assume. |
| `BatchPublication.BatchLeaksNothing` | packages/document-update/src/index.ts:382-394 | After a batch a row is still processing under one of its claims only if a cleanup failed or skipped it, even after a lost commit acknowledgement. |
| `BatchPublication.PublishedIsCommitted` | packages/document-update/src/index.ts:498-506 | Whatever is reported published is in the publication log; unconfirmed commits never are reported. |
| `BatchPublication.CoverageIsExact` | packages/document-update/src/index.ts:636-645 | A bulk acknowledgement is accepted exactly when it names every eligible target once and nothing else. |
| `BatchRebuild.NewestIsGreatest` | packages/document-update/src/index.ts:211-217 | Deduplication keeps one request per target, with the greatest version asked for. |
| `BatchRebuild.NewestRequests` | packages/document-update/src/index.ts:211-217 | The map-filling loop computes that deduplication. |
| `BatchRebuild.PublicationBatches` | packages/document-update/src/batch-rebuild.ts:169-190 | Groups concatenate to the candidates, are non-empty, respect the target limit, exceed the byte limit only as single documents, and are closed only when the next candidate does not fit. |
| `BatchRebuild.Rebuilder.Fail` | packages/document-update/src/batch-rebuild.ts:80-87 | Cleanup releases the given claims unless a statement that the run has executed failed or skipped them, and undoes nothing. |
| `BatchRebuild.Rebuilder.ClaimChunk` | packages/document-update/src/batch-rebuild.ts:92-96 | A claim statement takes exactly the claimable rows, every other claim it sent owns nothing, and every wanted request is answered. |
| `BatchRebuild.Rebuilder.SettleBuilds` | packages/document-update/src/batch-rebuild.ts:116-125 | Every claim becomes a candidate or is released at once; undisturbed, all whose build succeeds become candidates and no other row is touched. |
| `BatchRebuild.Rebuilder.PublishGroups` | packages/document-update/src/batch-rebuild.ts:127-151 | When the group loop ends without throwing, every candidate's claim is released, also after an abort or a stopped publication; undisturbed, all healthy ones are published. |
| `BatchRebuild.Rebuilder.BuildAndPublish` | packages/document-update/src/batch-rebuild.ts:97-156 | The owner's callback has heard of every confirmed publication, also when a later group throws. |
| `BatchRebuild.Rebuilder.CleanUp` | packages/document-update/src/batch-rebuild.ts:157-162 | Whole-chunk cleanup releases only this run's claims and takes back nothing committed or replaced. |
| `BatchRebuild.Rebuilder.ProcessChunk` | packages/document-update/src/batch-rebuild.ts:89-164 | A chunk leaves a row processing only when its claim statement was not acknowledged, and then exactly the claimable rows of that statement. |
| `BatchRebuild.Rebuilder.ProcessRebuildBatch` | packages/document-update/src/batch-rebuild.ts:53-166 | A message is refused exactly for a bad budget, a malformed request, an abort or a missing builder, and then nothing is claimed; otherwise every row the run took is released, except through a cleanup statement that it executed and that failed or skipped the row, or through an unacknowledged claim statement. In a run that nothing disturbs every wanted request is published at its version, unless its target fails to build or to publish. |
| `FilterBudget.FindFilterBudgetViolation` | packages/filter-engine/src/filter-engine.ts:336-367 | No violation exactly when the recursively defined depth, node, child and raw-value bounds all hold; at most 65 iterations on any input. |
| `FilterStructure.ScopeBuilder.Visit` | packages/filter-engine/src/filter-engine.ts:122-138 | The map-filling walk adds exactly the entries of the structure below a prefix. |
| `FilterStructure.BuildSearchScope` | packages/filter-engine/src/filter-engine.ts:118-142 | The two maps are the structure's comparable and collection paths. |
| `FilterStructure.ScopeIsNavigation` | packages/filter-engine/src/filter-engine.ts:118-142 | For field names without dots, a path is in the maps exactly when walking the structure along it finds such a field, and with the same schema. |
| `FilterStructure.TableEntries` | packages/filter-engine/src/filter-engine.ts:118-142 | A dotted path is in the maps exactly when some field has it, dots in names included, and the entry is one such field's own. |
| `FilterStructure.KeepsEveryFieldExactlyWhenUnambiguous` | packages/filter-engine/src/filter-engine.ts:118-142 | Every comparable field and every collection keeps an entry of its own exactly when no two comparable fields, and no two collections, have the same dotted path. |
| `FilterStructure.DotlessIsClear` | packages/filter-engine/src/filter-engine.ts:118-142 | Structures without dots in their names meet that condition at every level. |
| `FilterCompiler.NormalizeMembershipValues` | packages/filter-engine/src/filter-engine.ts:222-253 | Accepts exactly the non-empty lists of acceptable values with at most 50 distinct ones, and keeps them in order of first occurrence. |
| `FilterCompiler.DistinctAccepted` | packages/filter-engine/src/filter-engine.ts:231-252 | The loop over raw values with its seen-set, on any list. |
| `FilterCompiler.CompileFilterInScope` | packages/filter-engine/src/filter-engine.ts:255-298 | The recursion over the shared alias counter computes the pure compiler. |
| `FilterMeaning.ConditionMeaning` | packages/filter-engine/src/filter-engine.ts:284-298 | A compiled condition is never unknown and is true exactly when the operator holds of the field, missing fields and JSON null included. |
| `FilterMeaning.CompilePreservesMeaning` | packages/filter-engine/src/filter-engine.ts:255-298 | For every structure whose dotted paths are unambiguous, and on every conforming document, the generated SQL is true or false under three-valued logic and equals the filter's direct meaning: a path stands for the field of the structure that it spells. |
| `FilterMeaning.ScanMeaning` | packages/filter-engine/src/filter-engine.ts:272-282 | An EXISTS scan under a fresh alias holds exactly when some element satisfies the inner condition. |
| `FilterMeaning.AliasesAreConsecutive` | packages/filter-engine/src/filter-engine.ts:274-281 | The aliases of one compilation are consecutive counter values, each bound once: no capture. |
| `FilterMeaning.ParsedIsWellScoped` | packages/filter-engine/src/filter-engine.ts:144-220 | Whatever parses names only paths, operators and values its structure allows. |
| `FilterMeaning.ParsePreservesMeaning` | packages/filter-engine/src/filter-engine.ts:178-253 | Removing duplicates from value lists does not change what a filter means. |
| `FilterMeaning.AcceptedFilterSelectsItsMeaning` | packages/filter-engine/src/filter-engine.ts:102-116 | An accepted filter selects exactly the conforming documents it describes as written. |
| `DocumentView.OrderedIsUnique` | packages/user-document/src/document-query.ts:61-68 | An ordered aggregate over a set of rows has one value. |
| `DocumentView.RolesViewIsProjection` | packages/user-document/src/document-query.ts:61-68 | The lateral join of authorizations and roles, ordered by both ordinalities, lists the roles the direct projection lists, in the same order. |
| `DocumentView.ClientViewIsProjection` | packages/user-document/src/document-query.ts:45-91 | The SQL client view of a stored document has exactly one value: the object that the projection hands to the response schema. |
| `DocumentView.LookupStripped` | packages/user-document/src/document-query.ts:79-90 | Dropping the keys that the response schema does not name, at every level, leaves what any path of the structure leads to. |
| `DocumentView.StrippingKeepsMeaning` | packages/user-document/src/document-query.ts:76-91 | So no filter can tell a stored document's view from the parsed response. |
| `DocumentView.UserDocumentWellFormed` | packages/contracts/src/document.ts:12-96 | The user document's search structure meets the condition the filter compiler needs. |
| `DocumentView.SearchSelectsResponses` | packages/user-document/src/document-query.ts:39-91 | A search compiled against the client view selects a stored document exactly when the parsed response for that client satisfies the filter as written. |
| `SpecGraph.CycleSearch.Cyclic` | scripts/sandcastle/specs.ts:76-85 | From every memo earlier queries can leave, the answer is true exactly when a cycle is reachable; the search terminates on every finite graph and the memo stays correct. |
| `SpecGraph.SettledIsAcyclic` | scripts/sandcastle/specs.ts:82-84 | An issue memoised false reaches no cycle. |
| `SpecGraph.Loader.Visit` | scripts/sandcastle/specs.ts:61-68 | The depth-first load closes the dependencies under blockers, apart from the issues still being visited. |
| `SpecGraph.LoadSpecGraph` | scripts/sandcastle/specs.ts:56-71 | Loading succeeds exactly when every reachable issue can be read, and then holds exactly the reachable issues. |
| `SpecGraph.LoadedCycles` | scripts/sandcastle/specs.ts:56-71 | A search in the loaded dependencies finds every cycle of the tracker. |
| `SpecGraph.LoadedTickets` | scripts/sandcastle/specs.ts:57-60 | The tickets of a loaded graph are among its dependencies, as read. |
| `SpecGraph.NoReasons` | scripts/sandcastle/specs.ts:87-117 | The list of reasons is empty exactly when the ticket is ready or properly integrated. |
| `SpecGraph.SpecFrontier` | scripts/sandcastle/specs.ts:73-125 | Ready tickets, blocked tickets with all their reasons, and completeness are exactly what the declarative conditions say, in ticket order. |
| `SpecGraph.FindReady` | scripts/sandcastle/specs.ts:86-118 | From any ticket that is not integrated, following unmet blockers ends at a ready one. |
| `SpecGraph.FrontierNeverStalls` | scripts/sandcastle/specs.ts:86-124 | With tickets admissible, Spec conditions and external blockers met and no cycle, nothing is ready exactly when everything is integrated. |
| `SpecGraph.BlockersAreIntegratedFirst` | scripts/sandcastle/specs.ts:88-117 | In any run that starts only ready tickets, a ticket starts after all tickets it depends on, directly or not, are integrated. |
| `Workflow.SpecRun.Start` | scripts/sandcastle/workflow.ts:160-170 | An execution starts only for a ticket never attempted, below the parallel limit. |
| `Workflow.SpecRun.Dispatch` | scripts/sandcastle/workflow.ts:156-172 | Dispatch keeps the limit, starts no ticket twice, and leaves nothing of the frontier unattempted when nothing runs. |
| `Workflow.SpecRun.Conclude` | scripts/sandcastle/workflow.ts:179-190 | A ticket is integrated only after an execution that returned true; otherwise it is failed; a fatal integration error ends the Spec. |
| `Workflow.SpecRun.Work` | scripts/sandcastle/workflow.ts:173-200 | When a Spec is left nothing is still running; unless it was cut short, attempted tickets split into integrated and failed, and the final frontier, asked for with exactly those excluded, holds nothing unattempted. |
| `Workflow.Finish` | scripts/sandcastle/workflow.ts:206-227 | A Spec counts as delivered exactly when finalization and delivery both succeed. |
| `Workflow.SpecRun.Step` | scripts/sandcastle/workflow.ts:175-194 | A turn of the loop concludes one settled ticket and dispatches from a frontier asked for with everything attempted excluded. |
| `Workflow.RunSpec` | scripts/sandcastle/workflow.ts:139-231 | One Spec's results split its attempted tickets, and only a Spec without failures is finalized. |
| `Workflow.RunWorkflow` | scripts/sandcastle/workflow.ts:118-235 | On normal return attempted Specs are distinct, at most the limit, and split exactly into delivered and incomplete; each was chosen with the earlier ones excluded; delivered are exactly the ready ones whose last stages succeed; fewer than the limit only when the planner had nothing left. |
| `Delivery.DueKeepsSafe` | scripts/sandcastle/delivery.ts:162-264 | Each effect at its point keeps: one delivery commit at most, nothing closed before it, the Spec closed after its tickets, no branch gone before that, the Spec branch last. |
| `Delivery.DueKeepsIntact` | scripts/sandcastle/delivery.ts:132-264 | Each effect at its point keeps what a restart relies on: branches at their candidates, no worktree missing before the commit, and the commit the one that the recorded handoff describes. |
| `Delivery.RestoreIsExact` | scripts/sandcastle/recovery.ts:190-396 | In every such state a restart finds: nothing delivered exactly when there is no delivery commit; something to resume exactly when it is delivered and unfinished; nothing it may do exactly when all is finished or the commit is not the promised one. |
| `Delivery.CommitDeliversExactly` | scripts/sandcastle/delivery.ts:165-189 | A due squash commit delivers exactly when the branch still stands at the review base and the index holds the candidate's tree; otherwise a restart finds nothing it may do. |
| `Delivery.MovedHeadStops` | scripts/sandcastle/delivery.ts:166-189 | It happens: somebody commits after the last look at the branch, the squash commit follows, and the Spec is neither finished nor resumable. |
| `Delivery.Deliverer.Do` | scripts/sandcastle/delivery.ts:162-264 | Any effect may fail or be the last one, with or without having happened, and every state stays safe and recoverable. |
| `Delivery.Deliverer.Integrate` | scripts/sandcastle/recovery.ts:372-386 | Undisturbed, a moved base that merges is merged into the Spec branch and recorded as the new start; nothing is delivered on the way. |
| `Delivery.Deliverer.Accept` | scripts/sandcastle/finalization.ts:56-140 | Review, repair and validation record a handoff for where the Spec branch then stands. Undisturbed, they succeed exactly for a completed plan on a clean checkout at the base, and a failed acceptance withdraws the record. |
| `Delivery.Deliverer.Prepare` | scripts/sandcastle/recovery.ts:372-395 | Before the commit a moved base is merged, else a handoff that still stands is kept, else the Spec is accepted anew; what is delivered is the recorded handoff. |
| `Delivery.Deliverer.CommitAndVerify` | scripts/sandcastle/delivery.ts:172-189 | The verified squash is the only commit of this Spec, directly on the review base, with the candidate's tree, whatever others commit meanwhile. |
| `Delivery.Deliverer.Squash` | scripts/sandcastle/delivery.ts:154-189 | Nothing is closed or removed before the delivery commit is verified. |
| `Delivery.Deliverer.CloseIssues` | scripts/sandcastle/delivery.ts:208-225 | All tickets are closed, then the Spec; a resumed delivery skips what was closed. |
| `Delivery.Deliverer.CleanUp` | scripts/sandcastle/delivery.ts:229-264 | After a completed cleanup every branch is gone, the Spec branch last. |
| `Delivery.Deliverer.Deliver` | scripts/sandcastle/delivery.ts:83-266 | A delivery that reports success has finished everything. Undisturbed, a first one succeeds exactly when its handoff is complete for the base and squashes to its candidate's tree on a clean checkout, and a resumed one exactly with a clean index. |
| `Delivery.Deliverer.Restart` | scripts/sandcastle/recovery.ts:190-396 | After an undisturbed restart a Spec is finished exactly when it was, or when the index is clean and the Spec is delivered or has nothing delivered and a feasible handoff. A commit that is not the promised one it leaves alone, disturbed or not. |
| `Delivery.Deliverer.Live` | scripts/sandcastle/recovery.ts:190-396 | Over any number of crashes and restarts every state passed through is safe and recoverable, a delivered Spec keeps its branch until nothing remains to do, and one with another commit than the promised one is never touched. |
| `Delivery.Recover` | scripts/sandcastle/recovery.ts:190-396 | Wherever a delivery with all its restarts was cut off: one undisturbed restart has everything finished exactly when it was, or when the state is restartable. |
| `Delivery.IntactIsCleanable` | scripts/sandcastle/delivery.ts:98-123 | Once the commit stands every branch can be cleaned up in a resumed delivery, and before it every worktree passes the check of a first one. |
| `Delivery.SpecBranchGoesLast` | scripts/sandcastle/recovery.ts:128-143 | The Spec branch is gone exactly when nothing remains to do. |
| `OidcExchange.IssueKeeps` | packages/oidc/src/state.ts:112-121 | Storing a code only under an absent key keeps stored, issued and taken codes consistent: none that was taken comes back. |
| `OidcExchange.CodeIsTakenOnce` | packages/oidc/src/state.ts:102-111 | Over every run the exchange that has taken a code is the only one that ever holds it, and its record never comes back. |
| `OidcExchange.GrantKeeps` | packages/oidc/src/token-state.ts:28-45 | Both keys of a token are written together and stand together, and the grant is the only one for its code. |
| `OidcExchange.RunKeeps` | packages/oidc/src/tokens.ts:113-281 | Every interleaving of exchanges, codes and session changes keeps codes, holders, grants, outcomes and instances consistent. |
| `OidcExchange.ExchangeSafety` | packages/oidc/src/tokens.ts:159-265 | A code yields at most one token; every stored token repeats an issued code and was granted to a client that presented it with redirect URI and code verifier. |
| `OidcExchange.TerminatedInstanceNeverResolves` | packages/oidc/src/tokens.ts:266-294 | Once an exchange reports its client session terminated, no token of that instance resolves in any later state. |
| `OidcExchange.ReplayRevokesItsToken` | packages/oidc/src/tokens.ts:266-294 | When a replayed exchange ends with its session terminated, no token granted for that code, before or after, resolves again. |
| `OidcExchange.EndedSessionGetsNoToken` | packages/oidc/src/tokens.ts:209-216 | Once a client session has ended, no further exchange passes its permission check for a code of it, and none that had not passed before stores a token for one, whatever the others do. |
| `OidcExchange.UndisturbedExchangeSucceeds` | packages/oidc/src/tokens.ts:172-265 | A valid exchange that nothing disturbs delivers a token that resolves. |
| `Delegation.AncestorsAreRelated` | packages/delegation/src/delegation.service.ts:104-123 | Two ancestors of one organization are comparable. |
| `Delegation.CommitFitsRows` | packages/delegation/src/delegation.service.ts:91-128 | Storing a row checked for conflicts creates no pair of conflicting open delegations. |
| `Delegation.OthersStillFit` | packages/delegation/src/delegation.service.ts:158-164 | A commit for another delegator cannot invalidate a check already made: the user lock suffices. |
| `Delegation.RunKeeps` | packages/delegation/src/delegation.service.ts:148-287 | Every interleaving of creates and updates keeps open delegations free of conflicts. |
| `Delegation.ConflictIsSharedCoverage` | packages/delegation/src/delegation.service.ts:91-128 | A conflict is refused exactly when the two delegations would both be in force for some organization at some instant. |
| `Delegation.DelegateeIsUnique` | packages/delegation/src/delegation.service.ts:91-128 | At most one open delegation of a delegator and application covers any organization at any instant. |
| `Delegation.EndedStaysEnded` | packages/delegation/src/delegation.service.ts:257-281 | Who delegates what to whom never changes, and an ended delegation never changes at all. |
| `Delegation.DecisionsStayInScope` | packages/delegation/src/delegation.service.ts:150-184 | A caller creates and updates only delegations of its own scope. |
| `Delegation.SearchFindsAtMostOne` | packages/delegation/src/delegation.service.ts:288-320 | Searching one delegator, application, organization and instant among open delegations finds at most one. |
| `CanonicalJson.CanonicalMeans` | apps/gateway/src/normalize.ts:25-43 | Sorted forms are equal exactly when the values mean the same, key order aside. |
| `GatewayPlan.NormalizeForCompare` | apps/gateway/src/normalize.ts:5-23 | The loop drops exactly ignored fields and fields at their default. |
| `GatewayPlan.ComparesRelevantFields` | apps/gateway/src/normalize.ts:5-43 | Two resources compare equal exactly when every field neither ignored nor default means the same in both. |
| `GatewayPlan.PlanDesired` | apps/gateway/src/planner.ts:32-44 | The first loop creates what is missing and updates what differs. |
| `GatewayPlan.PlanOthers` | apps/gateway/src/planner.ts:46-62 | The second loop deletes or ignores, by ownership and scope. |
| `GatewayPlan.PlanChanges` | apps/gateway/src/planner.ts:6-66 | The plan lists for every kind and identifier exactly what its fate calls for, once, in any map order. |
| `GatewayPlan.OutcomeAt` | apps/gateway/src/planner.ts:6-66 | What becomes of each identifier when a plan is carried out, in any order of writes. |
| `GatewayPlan.PlanningConverges` | apps/gateway/src/planner.ts:6-66 | After a plan is carried out, planning again creates, updates and deletes nothing and ignores the same resources. |
| `GatewayPlan.UndesiredIsDeletedOrIgnored` | apps/gateway/src/planner.ts:46-62 | Every undesired remote resource is deleted or ignored, never both; a desired one is neither. |
| `GatewayManifest.ScopeRoundTrip` | apps/gateway/src/manifest.ts:13-34 | A text parses to a scope exactly when it is the text of that valid scope. |
| `GatewayManifest.IdsAreInjective` | apps/gateway/src/manifest.ts:82-97 | Generated identifiers and consumer names determine their scope and key, for any key. |
| `GatewayManifest.MaterializedBelongs` | apps/gateway/src/manifest.ts:70-178 | Whatever the source says, a materialized resource has a generated identifier and the labels of its scope. |
| `GatewayManifest.ScopesDoNotInterfere` | apps/gateway/src/manifest.ts:82-178 | Planning for one scope ignores another's resource exactly unless it is metadata of a plugin that the manifest names, and then exactly updates it. |
| `GatewayManifest.OtherScopeIsUntouched` | apps/gateway/src/planner.ts:46-62 | Carrying out one scope's plan leaves another's resource as it was exactly unless it is metadata of a plugin that the manifest names; such metadata passes to the planning scope. |
| `GatewayManifest.SharedPluginIsOverwritten` | apps/gateway/src/manifest.ts:82-116 | For every plugin and any two scopes: with the plugin in both manifests, planning the one overwrites the other's metadata. |
| `GatewayManifest.TurnsConvergeExactly` | apps/gateway/src/planner.ts:6-66 | After two scopes have been carried out in turn, planning the first again creates and deletes nothing, and updates nothing exactly when no plugin is in both manifests. |
| `GatewayManifest.MaterializedProper` | apps/gateway/src/manifest.ts:70-178 | A materialized resource names no field twice when its source does not. |
| `CommandCapture.ByteCapture.Append` | e2e/system/src/command-capture.ts:8-35 | The chunks always hold exactly the first or last bytes of the whole stream, up to the limit. |
| `CommandCapture.FitIsLongest` | e2e/system/src/command-capture.ts:53-61 | The retained lines are the longest run of last lines within the limit. |
| `CommandCapture.LineCapture.Retain` | e2e/system/src/command-capture.ts:53-61 | Shifting from the front keeps that longest run. |
| `CommandCapture.LineCapture.FinishLine` | e2e/system/src/command-capture.ts:73-89 | A finished line is kept without its carriage return, or replaced by the marker when it does not fit. |
| `CommandCapture.LineCapture.Append` | e2e/system/src/command-capture.ts:91-103 | The state is a function of the whole stream, however it was cut into chunks. |
| `CommandCapture.LineCapture.ToBytes` | e2e/system/src/command-capture.ts:104-118 | The result is the longest fitting run of last lines, an open last line included. |

## Left out

- Filter parsing: string formats and lengths of scalar schemas, and the JSON Schema transport; a schema here accepts texts, numbers, booleans or an enumeration.
- SQL text: conditions are trees with an evaluation; a row alias is its counter value, not the text `filter_scope_<n>`; addressing array elements by index in `jsonb_extract_path` is an error here, and is proved not to arise.
- Document update: job queues and wake-ups, `registered` and `afterPublish` callbacks, the immediate retry of a serialization failure during expansion, and the splitting of long statements into batches of 1000 rows.
- Document update: sorting of claims and report entries by target, which fixes the lock order and the presentation only.
- Document update: timeouts and lock waits appear only as the fault or expiry they cause.
- Single publication (`publishPrepared`) is the one-target case of a publication step; its `afterPublish` effect is not modelled.
- Spec scheduler: parsing of planner output, of handoff comments and of Git output; handoffs are records. `tickets.ts`, `confirmDelivered` and `isFatalWorkflowError` are not part of this model; whether an error is fatal is part of the outcome.
- Delivery: descent between recorded commits is a fact about immutable objects, given as one flag; of the comments written to issues only the final handoff, its withdrawal and the start base are modelled.
- OIDC: client authentication, signing, claims and discovery; the authorization endpoint appears only as the step that issues a code for the sessions as they stand; login continuations and logout are not modelled.
- OIDC: records that do not parse; every stored record here has its type.
- Delegation: audit records, the wording of errors, and the selector queries; the organization tree is fixed and the closure table is its ancestor relation.
- Gateway: the write and delete order (any order is covered), pagination, compensation of a failed publication, and the HTTP client.
- Gateway: `JSON.stringify` after `sortKeys` is taken to be injective; numbers are their canonical texts.
- Command capture: decoding UTF-8 and shortening the decoded text.
- Document search projection and pagination (`document-search.ts`) and the architecture guard: simple recursions and a worklist that would add only easy members.
- RebuildProtocol.NoInvalidationIsLost: reachability of a covering publication, not that it happens; nothing forces workers to run.
- SpecGraph.LoadSpecGraph: assumes that the tracker does not change while a graph is loaded, because reads are not a snapshot.
- Workflow.RunWorkflow: assumes that a frontier names only tickets of its Spec, which are finitely many.
