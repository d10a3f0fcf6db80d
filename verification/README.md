# Governance protocols of the contracts package, verified

This project models the protocols in `packages/contracts/src` that hold real algorithms and state
machines, and proves what they promise over every input, every run and every interleaving.

The library is a set of small governance protocols written in TypeScript: an event-sourced ledger of
contributions, a gateway and broker for capabilities with replay protection, a broker for model access,
an order cell with two interchangeable providers, the life of an issue candidate, read connectors with
cursors, discovery and planning of integrations, selection of knowledge, gate dependencies, routing
baselines and effective rights. Almost all of them compare and hash values through one canonical JSON
text.

## How the model is laid out

| files | what they model |
|---|---|
| `Text`, `Options`, `Numbers`, `Sequences`, `Sums`, `Sorting` | UTF-16 text and numerals, absent and refused values, lists, sums and order-independent sorting |
| `CanonicalJson`, `CanonicalJsonProofs` | the canonical text of a value, a decoder for it and unique readability |
| `EventLog` | any log whose entries are appended one by one and read back as events |
| `IntakeLedger`, `IntakeReplay`, `IntakeHeads`, `IntakeReceipts`, `IntakeEncoding` | the contribution intake ledger, its verifier, head history, receipts, and the text hashed for a delivery |
| `Graphs`, `GateDependencies`, `KnowledgeSelection` | dependency graphs, the cycle searches of gates and of derivations, and the selection of knowledge |
| `BuilderDiscovery`, `BuilderIntake`, `BuilderResolution`, `BuilderAuthority`, `BuilderPlanning` | the dependency closure, the discovery record, capability resolution, the authority of a builder, and the plan made of all three |
| `CapabilityAdmission`, `CapabilityBroker` | gateway and broker admission, and the broker with its replay store under re-entrant calls |
| `ModelAccessBroker` | the model broker as steps of interleaved invocations |
| `ErpOrderCell` | the order cell class and runs of its methods |
| `IssueCandidate`, `IssueCandidateProofs` | the life cycle of an issue candidate and its hash chain |
| `ReadCursor`, `ReadConnector`, `ReadSource` | cursor texts, the read adapters and walks over them, source validation |
| `WilsonInterval`, `RoutingBaseline` | the success interval over the reals, cohort metrics and the baseline |
| `EffectiveRights`, `EffectiveRightsProofs` | the compiler of effective rights and its meet laws |

Code that updates state is a class or a method with loops, proved against a function on values; the laws
are lemmas about those functions. Hashes, regular expressions, locale order and the provider side of an
adapter are parameters, collected in a datatype `Env` (or `Setup`, `Shapes`, `Names`) of each module. A
hash is assumed injective only in the theorems that say so.

## Where the code does less than it seems to promise

Each of these is stated as a theorem about the code as it is, with an input on which the expected property
fails and the exact condition under which it holds.

- A budget reservation of the model broker is not always a provider call. Without structured output the
  request adapted for the two OpenAI protocols carries an undefined member
  (`model-access-broker.ts:353,363`), hashing it throws after the reservation was made (`505-511`), and the
  reservation stays. `ModelAccessBroker.SpoiledReservationExists` gives an input,
  `ReservedIsStartedIffNoneSpoils` the exact condition.
- An issue candidate can be submitted more than once in one linear run. The time of a submission is checked
  to be a whole number of milliseconds only when the event is appended (`issue-candidate.ts:125`), after the
  adapter was called (`283`); the candidate then stays approved. `IssueCandidateProofs.SpoilReachable` reaches
  such a submission for any clean content in any environment, `SpoiledExactly` and `SubmitCallsExactly` give
  the exact condition.
- A submission that timed out or whose receipt was denied stores no remote, and readback compares the remote
  (`issue-candidate.ts:319`), so it can never be confirmed later. `IssueCandidateProofs.NoRemoteReachable`
  reaches such a candidate; by `RecoverableExactly` a reachable candidate in recovery can still be confirmed
  exactly when it knows a remote.
- Read cursors are consumed by their text and the format admits leading zeros
  (`crm-read-connector.ts:110`), so a page can be read twice. `ReadConnector.PageReadTwice` gives two requests
  for any page; by `PageReadTwiceExactly` a page is read by cursor twice exactly when it is asked for in two
  spellings, so a client that presents cursors as printed never reads one twice (`PrintedCursorsReadOnce`).
- The compiler of effective rights denies two operands of one kind, but the verifier of results refuses that
  very denial (`effective-rights.ts:427-443`), so it cannot be rendered.
  `EffectiveRightsProofs.RepeatedOperandUnverified` and `UnverifiedResult` give inputs,
  `CompiledVerifiesExactly` the exact condition.

## Model

| member | source | states |
|---|---|---|
| CanonicalJsonProofs.CanonicalTextDecidesMeaning | packages/contracts/src/canonical-json.ts:1-21 | For values of any depth with distinct keys: both are serialized and get the same text exactly when neither is refused and both mean the same up to the order of object members. |
| CanonicalJsonProofs.PrintReads | packages/contracts/src/canonical-json.ts:1-21 | A decoder recovers the meaning of any printed value and leaves whatever follows the text untouched, provided it does not prolong a numeral. |
| CanonicalJsonProofs.SameMeaningSameText | packages/contracts/src/canonical-json.ts:6-18 | Values that differ only in the insertion order of members, at any depth, print to the same text. |
| CanonicalJsonProofs.CanonicalTextIsPrefixFree | packages/contracts/src/canonical-json.ts:1-21 | No canonical text is a proper prefix of another, unless what follows prolongs a numeral. |
| CanonicalJsonProofs.QuoteRoundTrip | packages/contracts/src/canonical-json.ts:2-4 | A quoted string, with its short escapes, control escapes and lone surrogates, is read back exactly and its end is found. |
| Text.PrintNatRoundTrip | packages/contracts/src/canonical-json.ts:2-4 | The decimal numeral of a number denotes that number, so different integers print differently. |
| IntakeReplay.VerifyLedger | packages/contracts/src/contribution-intake-ledger.ts:838-931 | The replaying verifier accepts exactly the ledgers that some stream of well-formed deliveries builds in this context and whose next sequence number is a safe integer, and returns what it was given. |
| IntakeReplay.ReachableIffLawful | packages/contracts/src/contribution-intake-ledger.ts:838-931 | A ledger can be built by deliveries exactly when it is the sealed form of a log in which every entry is the one its own submitted event would append. |
| IntakeReplay.AcceptedIffNext | packages/contracts/src/contribution-intake-ledger.ts:874-903 | The verifier's test of one entry passes exactly for the entry that ingesting the event read back out of it would append. |
| IntakeReplay.ReadBackRebuildsLedger | packages/contracts/src/contribution-intake-ledger.ts:761-778 | Replaying the deliveries read back out of the entries of a reachable ledger rebuilds that ledger. |
| IntakeReplay.IngestKeepsReachable | packages/contracts/src/contribution-intake-ledger.ts:1080-1122 | Ingesting into a reachable ledger is refused only for a malformed delivery, extends the history and leaves a reachable ledger. |
| IntakeReplay.Replay | packages/contracts/src/contribution-intake-ledger.ts:1124-1140 | One malformed delivery refuses the whole stream; otherwise the loop gives the ledger after the stream and the receipt of every delivery at its step. |
| IntakeHeads.ClassificationExactly | packages/contracts/src/contribution-intake-ledger.ts:575-620 | Each outcome of the ordered classification holds exactly under a condition on history and identity alone: redelivery, reused id, foreign contribution, widened or changed authority, current head, and a new head no older than the current one for an append. |
| IntakeReplay.ClassifyShape | packages/contracts/src/contribution-intake-ledger.ts:575-620 | Every classification is quarantined exactly when it is stale or rejected, is a transport duplicate exactly for a redelivery, and lists distinct reasons. |
| IntakeLedger.CurrentHeadInternal | packages/contracts/src/contribution-intake-ledger.ts:558-564 | The backward scan finds the last appended entry. |
| IntakeHeads.ReachableHeadChain | packages/contracts/src/contribution-intake-ledger.ts:575-620 | In every reachable ledger the appended heads are pairwise distinct, each replaces exactly the one appended before it with the reasons its ancestor calls for, and receive times never fall. |
| IntakeHeads.StatusExact | packages/contracts/src/contribution-intake-ledger.ts:566-573 | The status derived from history is what the next head of the chain says: current, superseded or invalidated, and unknown for a head never appended. |
| IntakeHeads.CurrentIffLastHead | packages/contracts/src/contribution-intake-ledger.ts:566-573 | A head is current exactly when it is that of the last appended entry. |
| IntakeHeads.StatusIsPermanent | packages/contracts/src/contribution-intake-ledger.ts:566-573 | Over any continuation of any run a head leaves the current status at most once, and a superseded or invalidated head stays so. |
| IntakeHeads.ReplayedHeadIsStale | packages/contracts/src/contribution-intake-ledger.ts:590-612 | A new delivery of an old head under the trusted identity is stale and quarantined, with the reason that agrees with that head's status, and does not move the head. |
| IntakeHeads.EligibleIsTrusted | packages/contracts/src/contribution-intake-ledger.ts:1159-1175 | Deep CI is offered at most one entry: delivered under exactly the trusted identity, never quarantined, its head current. |
| IntakeReceipts.RepeatChangesNothing | packages/contracts/src/contribution-intake-ledger.ts:575-589 | Repeating an earlier delivery anywhere later in a stream leaves the replayed ledger as it was. |
| IntakeReceipts.DeliveredIsRedelivered | packages/contracts/src/contribution-intake-ledger.ts:575-583 | Whatever became of a delivery, delivering it again is recognised as a transport duplicate. |
| IntakeReceipts.ReceiptVerifiesIffIssued | packages/contracts/src/contribution-intake-ledger.ts:1044-1078 | Against a reachable ledger a receipt verifies exactly when ingestion issued it, for appending the entry it names or for a redelivery of that entry's event. |
| IntakeReceipts.ReceiptsNeverRot | packages/contracts/src/contribution-intake-ledger.ts:1044-1078 | If the hash tells deliveries apart, every receipt a run issues verifies against the ledger of its step and of every later step. |
| IntakeEncoding.DeliveryTextInjective | packages/contracts/src/contribution-intake-ledger.ts:384-386 | The canonical text hashed for a delivery determines the delivery. |
| IntakeEncoding.InjectiveHashTellsDeliveries | packages/contracts/src/contribution-intake-ledger.ts:459-461 | A hash that tells texts apart tells deliveries apart, which is all the receipts need. |
| GateDependencies.ValidateDependencies | packages/contracts/src/adaptive-evidence-gates.ts:211-230 | Refuses repeated ids or unknown references; otherwise reports a cycle exactly when the dependsOn graph has one, and accepts exactly when every gate has a rank above all it depends on. |
| GateDependencies.DependencySearch.Visit | packages/contracts/src/adaptive-evidence-gates.ts:218-228 | The three-colour search below a gate ends with a cycle or an unknown gate, or with the gate visited, the stack restored and the finished gates in dependency order. |
| GateDependencies.DependencySearch.AnyCycle | packages/contracts/src/adaptive-evidence-gates.ts:229-229 | Searching from every gate in turn finds a cycle or finishes every gate. |
| GateDependencies.RankedIsAcyclic | packages/contracts/src/adaptive-evidence-gates.ts:211-230 | A ranking of the gates excludes every cycle. |
| KnowledgeSelection.DerivationSearch.Visit | packages/contracts/src/knowledge-envelope.ts:155-163 | The per-start path search terminates and marks the start exactly when a path that avoids the nodes seen leads back to it. |
| KnowledgeSelection.DerivationSearch.MarkCycles | packages/contracts/src/knowledge-envelope.ts:154-165 | The marked ids are exactly the listed ids that lie on a derivation cycle. |
| KnowledgeSelection.OnCycleIffSimple | packages/contracts/src/knowledge-envelope.ts:154-165 | A node lies on a closed walk exactly when it lies on a simple cycle, so avoiding repeated nodes loses no cycle. |
| KnowledgeSelection.Pick | packages/contracts/src/knowledge-envelope.ts:166-185 | The first admissible envelopes in id order are selected up to the limit; selected and rejected together are all envelopes, and every rejection carries its reasons. |
| KnowledgeSelection.SelectKnowledge | packages/contracts/src/knowledge-envelope.ts:149-189 | Selection is denied exactly for a bad taxonomy or policy, and otherwise selects and rejects by a verdict in which cycles are defined by paths and not by the search. |
| KnowledgeSelection.AdmissibleIffIncluded | packages/contracts/src/knowledge-envelope.ts:166-185 | An envelope is admissible exactly when its shape is valid and the policy includes it: it lies on no derivation cycle, derives from no absent envelope and passes every policy test. |
| KnowledgeSelection.CircularToldIffOnCycle | packages/contracts/src/knowledge-envelope.ts:169-169 | Unless shape validation said so already, the circular-derivation reason is given exactly to envelopes on a cycle. |
| BuilderDiscovery.DependencyClosure | packages/contracts/src/builder-discovery.ts:354-372 | The worklist terminates with exactly the types reachable from the seed, a set closed under dependencies. |
| BuilderDiscovery.NeededIsLeast | packages/contracts/src/builder-discovery.ts:354-372 | Every closed set that holds the seed holds everything selected. |
| BuilderIntake.Discover | packages/contracts/src/builder-discovery.ts:374-511 | Discovery succeeds exactly for an input that is valid in every list, reference and coverage check, and its record is told by paths in the dependency graph and not by the search. |
| BuilderIntake.DiscoveredAreRequested | packages/contracts/src/builder-discovery.ts:433-443 | The operations discovered are the requested ones, each exactly once. |
| BuilderIntake.DiscoveredTypesExactly | packages/contracts/src/builder-discovery.ts:354-372 | The objects discovered have exactly the types that a path from the type of a requested operation reaches in the declared graph, whatever order objects and references came in. |
| BuilderResolution.ResolveEach | packages/contracts/src/builder-capability-resolution.ts:337-361 | The loop splits the operations into reused and unresolved, or refuses when a registered capability does not admit its operation. |
| BuilderResolution.ResolveCapabilities | packages/contracts/src/builder-capability-resolution.ts:322-381 | At most 256 well-formed registrations with different ids, sorted and looked up, give both lists sorted; anything else, or a misused capability, refuses. |
| BuilderResolution.ResolvedExactly | packages/contracts/src/builder-capability-resolution.ts:322-349 | Whatever order the registrations come in, resolution refuses exactly an ill-formed catalogue and a hint that names a capability registered for something else. |
| BuilderResolution.ReusedXorUnresolved | packages/contracts/src/builder-integration-plan.ts:287-304 | Every discovered operation is found in exactly one of the two lists, in the reused one exactly when its hint is registered and then under that capability. |
| BuilderAuthority.RightsExactly | packages/contracts/src/builder-authority.ts:242-308 | A registered right is effective exactly when host system, owner profile, assignments and constraints all have it; every effective right is either automatic or subject to approval, and which one follows from the profile and its rules. |
| BuilderAuthority.NarrowingKeepsDenied | packages/contracts/src/builder-authority.ts:242-251 | Taking references away from the three lists never makes a right effective. |
| BuilderPlanning.PlanIntegration | packages/contracts/src/builder-integration-plan.ts:203-376 | Discovery, resolution, authority and plan one after the other, each refusing on its own, compute the plan specified. |
| BuilderPlanning.PlannedExactly | packages/contracts/src/builder-integration-plan.ts:219-249 | From discovery to plan: the result is the plan told by the raw inputs exactly when the three inputs are valid, every hint that is registered admits its requested operation, tenant and actor agree and the registered rights are exactly the ids and effect classes of the requested operations; no other refusal ever fires. |
| BuilderPlanning.DecisionsFitExactly | packages/contracts/src/builder-integration-plan.ts:240-249 | The count of decisions together with the check of each decision asks for exactly the rights of the operations, in both directions. |
| BuilderPlanning.PlanListsRequested | packages/contracts/src/builder-integration-plan.ts:297-376 | Contracts, profile entries, fixtures and rollback entries of a plan each list every requested operation once, all four in the same order. |
| BuilderPlanning.PlanContracts | packages/contracts/src/builder-integration-plan.ts:297-330 | The contracts of a plan are exactly those of the requested operations: reuse of the hinted capability where it is registered, and a proposal where it is not. |
| BuilderPlanning.PlanReadyExactly | packages/contracts/src/builder-integration-plan.ts:391-393 | A plan is ready for the quality gate exactly when the hint of every requested operation is registered. |
| BuilderPlanning.PlanEntries | packages/contracts/src/builder-integration-plan.ts:332-346 | Every registered right has a profile entry, and an entry is effective exactly when all four ceilings have its right, denied exactly when not, and automatic exactly when profile and rules say so. |
| BuilderPlanning.PlanGraphExactly | packages/contracts/src/builder-integration-plan.ts:267-285 | The nodes of the planned graph are exactly the types needed for the requested operations and its edges exactly the declared dependencies that start at a node, so both ends of every edge are nodes. |
| BuilderPlanning.PlanRollback | packages/contracts/src/builder-integration-plan.ts:359-376 | Every requested operation has a rollback entry and every entry is that of one: required before activation unless the operation only reads, and with exactly those of its references that name a declared context about rollback or safety. |
| CapabilityAdmission.GatewayAllowsExactly | packages/contracts/src/capability-catalogue.ts:601-688 | The gateway allows exactly when the three documents are intact, a live activation by one of the policy's maintainers entitles the tenant to the action at that time, and the request names just these and conforms. |
| CapabilityAdmission.BrokerAdmitsEntitled | packages/contracts/src/capability-catalogue.ts:836-878 | What the broker admits is entitled at the time of admission, bound to this action, activation and policy, and conforms. |
| CapabilityBroker.CommittedMeansEntitled | packages/contracts/src/capability-catalogue.ts:836-940 | Nothing is committed but for an unused request id and a tenant entitled to its action at that time. |
| CapabilityAdmission.GatewayDecisionVerifies | packages/contracts/src/capability-catalogue.ts:690-734 | Every decision the gateway gives, allow or deny, passes the decision verifier. |
| CapabilityAdmission.AllowedIsAdmittedUntilExpiry | packages/contracts/src/capability-catalogue.ts:836-878 | An allowed decision presented with the same catalogue, activation and policy passes every broker admission check exactly until the policy or the activation expires. |
| CapabilityAdmission.DeniedNeverAdmitted | packages/contracts/src/capability-catalogue.ts:836-840 | A denied decision is refused by the broker whatever catalogue, activation and policy come with it. |
| CapabilityBroker.ReplayStore.Execute | packages/contracts/src/capability-catalogue.ts:826-940 | With calls re-entered from the clock, prepare and commit: the outcome is told by the store found and the call's own environment, a denial leaves its id's entry as it was, anything else commits its id once, and no reservation is left behind. |
| CapabilityBroker.ReplayStore.Attempt | packages/contracts/src/capability-catalogue.ts:882-940 | The reserved part refuses in the order of its checks and gives the reservation back, or calls commit once and consumes the id, also when commit throws. |
| CapabilityBroker.ReplayStore.RunSession | packages/contracts/src/capability-catalogue.ts:826-940 | Over any run of re-entrant calls on one store no id is committed twice, the committed ids are exactly the consumed ones and nothing stays in flight. |
| CapabilityBroker.AdmittedIsAnswered | packages/contracts/src/capability-catalogue.ts:876-891 | What passes admission under an unused id is decided by the answers of clock and executor alone; the refusal of an unfaithful snapshot never fires. |
| CapabilityBroker.AllowedRunsUnlessEnvironmentFails | packages/contracts/src/capability-catalogue.ts:836-940 | An allowed decision presented before expiry under an unused id is refused only for what the clock, the executor or its response do. |
| ErpOrderCell.RunsAreSound | packages/contracts/src/erp-order-capability-cell.ts:314-484 | Over every sequence of calls: no provider order remains, executions count the stored receipts, their ids are the replay set, and the active profile is the last known good one exactly when switches plus rollbacks are even. |
| ErpOrderCell.ResetForgets | packages/contracts/src/erp-order-capability-cell.ts:472-484 | The state after a reset and further calls does not depend on the calls before the reset. |
| ErpOrderCell.SameReceiptAfterReset | packages/contracts/src/erp-order-capability-cell.ts:333-393 | After a reset every valid request, seen before or not, gets the receipt of the last-known-good profile, which is the one it got whenever that profile carried it out. |
| ErpOrderCell.ReceiptsAreIssued | packages/contracts/src/erp-order-capability-cell.ts:371-391 | Every receipt kept after a run is the one some request with its id earns under one of the two profiles. |
| ErpOrderCell.SwitchThenRollback | packages/contracts/src/erp-order-capability-cell.ts:395-455 | The receipt of an accepted switch rolls it back with the rights difference mirrored, and only the counters tell. |
| ErpOrderCell.ErpOrderCapabilityCell.Execute | packages/contracts/src/erp-order-capability-cell.ts:333-393 | Refuses a bad request or a replayed id, counting the replay; otherwise the order is created, read back and deleted, and the receipt stored; the checks of profile, readback and rollback never refuse. |
| ErpOrderCell.ErpOrderCapabilityCell.Switch | packages/contracts/src/erp-order-capability-cell.ts:422-455 | Changes the active profile exactly from the active one to another known one; the checks of conformance, semantics and residue never refuse. |
| ErpOrderCell.ErpOrderCapabilityCell.RollbackProfile | packages/contracts/src/erp-order-capability-cell.ts:399-420 | Accepts exactly an intact receipt of a switch to the active profile and switches back. |
| ErpOrderCell.ErpOrderCapabilityCell.Reset | packages/contracts/src/erp-order-capability-cell.ts:472-484 | Returns the cell to the state of its construction. |
| ErpOrderCell.ErpOrderCapabilityCell.constructor | packages/contracts/src/erp-order-capability-cell.ts:314-331 | A new cell holds the two profiles, no order, no receipt and zero counters. |
| ErpOrderCell.Register | packages/contracts/src/erp-order-capability-cell.ts:314-331 | Construction is accepted exactly with two conformant profiles under different digests, one of them active; the first profile at fault decides the refusal. |
| ErpOrderCell.AcceptedHasBothKinds | packages/contracts/src/erp-order-capability-cell.ts:220-331 | An accepted cell holds exactly the two profiles that the catalogue and the providers determine, one of each kind. |
| ModelAccessBroker.BudgetUnderAnyInterleaving | packages/contracts/src/model-access-broker.ts:490-546 | Under any interleaving of invocations the reservation per tenant, purpose and route counts the provider calls started plus the invocations that threw after reserving, and never passes the policy's ceiling. |
| ModelAccessBroker.ReservedIsStartedIffNoneSpoils | packages/contracts/src/model-access-broker.ts:497-521 | The reservation equals the number of provider calls started exactly when no reserving invocation fails to hash its adapted request. |
| ModelAccessBroker.HashableRequestsKeepCount | packages/contracts/src/model-access-broker.ts:335-377 | As long as requests carry the structured output their protocol needs, reservations count provider calls exactly. |
| ModelAccessBroker.SpoiledReservationExists | packages/contracts/src/model-access-broker.ts:348-357 | A chat request without structured output uses up its budget and never reaches a provider: the count fails on this input. |
| ModelAccessBroker.ReplaysUnderAnyInterleaving | packages/contracts/src/model-access-broker.ts:490-546 | Every answer marked as a repeated receipt repeats an allowed first answer for the same operation id and the same guarded request digest. |
| ModelAccessBroker.ModelAccessBroker.Begin | packages/contracts/src/model-access-broker.ts:490-517 | One invocation up to its wait: answered by the guard, a stored receipt or the throttle, or reserved and waiting, or thrown with the reservation kept. |
| ModelAccessBroker.ModelAccessBroker.Finish | packages/contracts/src/model-access-broker.ts:518-546 | One invocation from the provider's reply: quarantined, or allowed and stored for replay. |
| IssueCandidateProofs.ReachableVerify | packages/contracts/src/issue-candidate.ts:338-347 | Every candidate any run reaches passes the history verifier; its history is a walk through the life cycle from observation, and no later step rewrites it. |
| IssueCandidateProofs.TipPinsHistory | packages/contracts/src/issue-candidate.ts:123-135 | Two verified histories with the same last event hash are the same history, with the same candidate, state and content digest, unless an event of one collides with a different event of the other. |
| IssueCandidateProofs.RunsPinnedByTip | packages/contracts/src/issue-candidate.ts:123-135 | Any two runs, of any candidates, that end in the same event hash have the same history or exhibit such a collision. |
| IssueCandidateProofs.ContentIsFrozen | packages/contracts/src/issue-candidate.ts:178-195 | From sanitization on no run changes the text or its digest. |
| IssueCandidateProofs.ReachablePublishable | packages/contracts/src/issue-candidate.ts:178-204 | Whatever goes past classification is the normal form of a text without forbidden pattern and classified public, and bytes count as public only after an accepted submission. |
| IssueCandidateProofs.ReachableLabelled | packages/contracts/src/issue-candidate.ts:147-336 | In every reachable candidate the route is that of its classification, a recovery code says it needs recovery, an approval that it was reviewed, an attempt that it was submitted, and what is confirmed names receipt, remote and readback. |
| IssueCandidateProofs.SubmitCallsExactly | packages/contracts/src/issue-candidate.ts:271-300 | Over any linear run the number of calls of the submit adapter is the number of spoiled calls plus one if the candidate moved on. |
| IssueCandidateProofs.SpoiledExactly | packages/contracts/src/issue-candidate.ts:281-299 | A call of the adapter is spoiled, leaving the candidate ready to submit again, exactly for an unreadable answer or a clock that shows no whole nonnegative millisecond. |
| IssueCandidateProofs.AtMostOneSubmit | packages/contracts/src/issue-candidate.ts:271-300 | With whole milliseconds and readable answers one linear run calls the submit adapter at most once. |
| IssueCandidateProofs.SpoiledSubmitRepeats | packages/contracts/src/issue-candidate.ts:271-300 | Otherwise repeating an allowed submission calls the adapter once more every time. |
| IssueCandidateProofs.SpoilReachable | packages/contracts/src/issue-candidate.ts:260-300 | For every clean content and all names of the right shape a run reaches such a submission, half a millisecond after its approval. |
| IssueCandidateProofs.ConfirmedMeansApproved | packages/contracts/src/issue-candidate.ts:302-325 | If the hash tells texts apart, a confirmed, linked or resolved issue was approved at one step and at a later one exactly the approved content was read back from the remote its receipt named. |
| IssueCandidateProofs.NoRemoteNeverConfirmed | packages/contracts/src/issue-candidate.ts:316-321 | A submission that was rejected or whose receipt was denied names no remote and stays in recovery under every further run. |
| IssueCandidateProofs.RecoverableExactly | packages/contracts/src/issue-candidate.ts:302-325 | A reachable candidate in recovery can still be confirmed by some further run exactly when it knows a remote. |
| IssueCandidateProofs.NoRemoteReachable | packages/contracts/src/issue-candidate.ts:281-292 | For every clean content a run with a rejected submission ends in recovery without a remote. |
| IssueCandidateProofs.StepMoves | packages/contracts/src/issue-candidate.ts:147-336 | Every successful step follows the life cycle edge of its action, appends exactly one event and changes the text only before sanitization. |
| IssueCandidate.SimilarityVerdict | packages/contracts/src/issue-candidate.ts:219-223 | A candidate counts as not duplicated exactly when no match has its digest or a similarity of 700 permille or more. |
| ReadConnector.WalkCompletes | packages/contracts/src/crm-read-connector.ts:106-117 | Following nextCursor from a first page, with any mix of page sizes and other walks in between, is never refused and ends after at most as many pages as there are records, with each record seen exactly once in batch order. |
| ReadConnector.WalksOnTrack | packages/contracts/src/erp-read-connector.ts:83-86 | In any interleaving of walks over the entities of one adapter every walker has seen a prefix of its records and each of its turns takes it further until it is done. |
| ReadConnector.CursorAcceptedOnce | packages/contracts/src/crm-read-connector.ts:107-113 | Over any sequence of requests every cursor text is accepted at most once. |
| ReadConnector.ConsumedExactly | packages/contracts/src/crm-read-connector.ts:109-112 | The cursors refused as replayed are exactly those accepted before. |
| ReadConnector.PresentedAcceptedExactly | packages/contracts/src/crm-read-connector.ts:107-113 | Over any sequence of requests, one that passes the checks before its cursor and presents a page is served exactly when its cursor text was not accepted before. |
| ReadConnector.PageReadTwiceExactly | packages/contracts/src/crm-read-connector.ts:107-117 | Over any sequence of requests a page is read by cursor twice exactly when it is asked for in two different spellings of its cursor. |
| ReadConnector.PrintedCursorsReadOnce | packages/contracts/src/crm-read-connector.ts:107-117 | If every cursor presented is as the adapters print it, no page is read by cursor twice. |
| ReadConnector.PageReadTwice | packages/contracts/src/crm-read-connector.ts:110-112 | For every entity and offset a cursor and the same cursor with a leading zero both read the page. |
| ReadConnector.ReadAdapter.Serve | packages/contracts/src/crm-read-connector.ts:90-117 | One request: the checks in their order, then a page from the cursor's offset, consuming the cursor only when it is accepted. |
| ReadCursor.CursorRoundTrip | packages/contracts/src/crm-read-connector.ts:110-114 | The adapters read back the cursors they gave out. |
| ReadCursor.ParseReadsSpelling | packages/contracts/src/erp-read-connector.ts:83-83 | Every spelling of the offset, leading zeros included, is read as the cursor it spells. |
| ReadCursor.ParseIsSound | packages/contracts/src/erp-read-connector.ts:83-83 | Whatever is read as a cursor has sixteen hexadecimal digits, a known entity and decimal digits in just the places of the format. |
| ReadSource.ValidateCrmBatches | packages/contracts/src/crm-read-connector.ts:77-81 | Accepted exactly when batch numbers strictly rise, ids differ, records fit and all batches are complete; partial exactly when the first batch at fault is only incomplete. |
| ReadSource.ValidateErpBatches | packages/contracts/src/erp-read-connector.ts:53-61 | Accepted exactly when every batch and record fits with strictly rising numbers and no repeated id; partial exactly when the first batch at fault has a fitting header and is incomplete. |
| ReadSource.ValidateEntries | packages/contracts/src/erp-read-connector.ts:56-60 | The records of one batch fit exactly when their ids are new among all records read so far and their lineage numbers strictly rise. |
| ReadSource.AcceptedErpWalk | packages/contracts/src/erp-read-connector.ts:83-86 | A walk over an accepted ERP source sees no source record id twice. |
| WilsonInterval.WilsonEncloses | packages/contracts/src/learning-routing-baseline.ts:169-178 | For every cohort, after rounding: 0 <= lower <= success rate <= upper <= 1,000,000 ppm. |
| WilsonInterval.RateBetween | packages/contracts/src/learning-routing-baseline.ts:172-175 | Before rounding the observed rate lies between centre minus margin and centre plus margin. |
| RoutingBaseline.MetricsEnclose | packages/contracts/src/learning-routing-baseline.ts:180-222 | In the metrics of any list of episodes the successes are at most the episodes and the interval encloses the rate. |
| RoutingBaseline.BaselineAddsUp | packages/contracts/src/learning-routing-baseline.ts:225-255 | Overall counts, totals and gaps are the sums over the four route classes, and billed plus reserved equals the total. |
| RoutingBaseline.OrderDoesNotMatter | packages/contracts/src/learning-routing-baseline.ts:225-255 | Permuting the inputs changes nothing in the result, digests and refusals included. |
| RoutingBaseline.ComputeExactly | packages/contracts/src/learning-routing-baseline.ts:225-230 | A cohort is refused as a whole for an invalid episode or a repeated pseudonym and for nothing else. |
| RoutingBaseline.ConfidenceExactly | packages/contracts/src/learning-routing-baseline.ts:202-220 | High confidence means twenty-four episodes without a defect; low means fewer than twelve or defects in more than a fifth. |
| EffectiveRightsProofs.OutcomeIsMeet | packages/contracts/src/effective-rights.ts:268-346 | For every input: the most restrictive ceiling where the input is coherent and all five intersections are non-empty, and a denial otherwise. |
| EffectiveRightsProofs.NoIssuesExactly | packages/contracts/src/effective-rights.ts:348-394 | The compiler finds no issue exactly when every operand reads without one, each kind is there once and all are bound to the actor, the tenant and the profile. |
| EffectiveRightsProofs.OrderDoesNotMatter | packages/contracts/src/effective-rights.ts:244-255 | With at most one readable operand of each kind the whole result, digest included, does not depend on their order. |
| EffectiveRightsProofs.NarrowingIsMonotone | packages/contracts/src/effective-rights.ts:257-346 | Shrinking scopes and lowering ceilings never enlarges the effective scope or raises the outcome. |
| EffectiveRightsProofs.CompiledVerifiesExactly | packages/contracts/src/effective-rights.ts:402-456 | The result verifier refuses a compiled result exactly when two readable operands are of one kind. |
| EffectiveRightsProofs.RepeatedOperandUnverified | packages/contracts/src/effective-rights.ts:427-443 | Handing in any readable operand a second time, in any input, gives a compiled result that its own verifier refuses. |
| EffectiveRightsProofs.UnverifiedResult | packages/contracts/src/effective-rights.ts:427-443 | For every actor, tenant and known value of each domain there is a well-formed input whose compiled result is refused. |
| EffectiveRights.ValidateScope | packages/contracts/src/effective-rights.ts:148-189 | The loop adds to the shared set the issues of the domains up to the first that is no list, and gives the scope exactly when all are lists. |
| EffectiveRights.ParseOperand | packages/contracts/src/effective-rights.ts:191-242 | Adds the issues of one operand to the shared set, in the order of its checks, and gives the operand when it is readable. |
| EffectiveRights.Compile | packages/contracts/src/effective-rights.ts:348-394 | The loops over operands, kinds and bindings collect exactly the issues of the input, whatever order they are found in, and the result is built from them. |

## Left out

- Hashing itself (SHA-256), regular expressions, Unicode normalization, redaction and scanning patterns: parameters.
- WeakSet brands, property descriptors, prototypes, frozen objects, cloning and closed-key object reading: a value that passes them is a value of the datatype. A context or ledger the library has not branded itself does not occur.
- Constant members of records (schema versions, claim boundaries, counts that are always one) where nothing depends on them.
- Canonical JSON of fractional numbers, negative zero and sparse arrays; integers stand for the numbers and print as plain numerals at any size, where the program has no number of its own for every integer beyond 2^53 and prints exponents from 10^21 on.
- Sums and offsets beyond 2^53: they are unbounded here; safe-integer tests are modelled where the code makes them. The ledger verifier makes one of the next sequence number, so `IntakeReplay.VerifyLedger` accepts reachable ledgers up to that length; no ledger of that size is constructed.
- Locale comparison and default sort: orders on identifiers, given as parameters; where a theorem needs that no two identifiers tie, it says so.
- The gateway's checks for missing members of untyped input (`capability-catalogue.ts:609-619`): requests are records with all members.
- A caller that writes to the replay map of the broker, or replaces it, between calls: all changes go through the broker.
- The request guard of the model broker apart from the budget, its response guard, redaction and stream parsing: parameters. Timers and aborts are a missing reply.
- The contents of provider requests of the order cell, in which two mapped paths under one parent do not both survive; the text of a request is an abstract function of profile and request. The catalogue is taken as verified.
- Adapters of the issue candidate answer with a record of their type or with nothing readable.
- Identity, operation, scope and field checks of the read connectors and the age of the source: one parameter that neither reads nor changes the cursors. The metadata of a page, and the checks of an export outside its batches, are flat.
- Floating-point error in the baseline: arithmetic is over the reals with an exact square root, and only the final rounding is modelled.
- The shape tests of the effective-rights verifier on digests, facts and codes, which compiled results meet by construction; the permission view that renders a verified result.
- Texts, goals and constraints of the discovery intake and of its guides and contexts; the shape of a registration is one test given as a parameter; the digests of discovery, resolution, authority and plan, the planned manifest and the fact and assertion texts, which are constants or copies of what is modelled.
- Flat validators against constants, profile fixtures, network and file access, and the free-text heuristics of the library: each is settled branch by branch or lies outside the language.
