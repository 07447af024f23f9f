# Hermod: promotions, connections, lineage, budgets and paced work

This project models the parts of Hermod whose guarantees are spread over many functions, and
proves them for all inputs, all runs or all interleavings.

| files | what they model |
|---|---|
| `Promotions`, `Decisions`, `Admission`, `PromotionService`, `PromotionHistory` | promotions and releases on the receiving instance: stored, admitted, claimed, deployed, compensated, rolled back |
| `ReleaseArrival`, `DecisionOutcome`, `DeployOutcome`, `ReleaseOutcome`, `RollbackGuard`, `CarriedConnections`, `PromotionSecrets` | when each operation succeeds and what it leaves behind |
| `ReleaseAtomicity`, `RollbackStack` | what a whole release, and any sequence of calls, leaves behind |
| `OverlappingApprovals`, `ArrivalRaces` | the same when operations on one workflow overlap |
| `ReleaseProtocol`, `ReleaseWhole`, `RollbackTiming`, `ReleaseRaces`, `ProtocolFollows` | the critical sections interleaved |
| `Workflows`, `ConnectionMatching` | reference listing and rewriting, and what references are matched with |
| `PeerConnections`, `PeerOutcome`, `PeerHistory`, `PeerRuns`, `PeerAllows`, `PeerService`, `LinkService`, `LinkOutcome` | the two sides of a connection between instances |
| `LineageGraph`, `LineageImpact`, `LineageWalks`, `LineageDownstream`, `LineageDerive`, `LineageShown`, `CompositeSinks` | the lineage graph, its breadth-first impact, and the expansion of composite sinks |
| `AIBudget`, `AIBudgetLimits`, `AIBudgetLedger`, `AIBudgetAlerts`, `AIBudgetRuns` | AI budgets checked before a call and counted after it |
| `ClaimedSchedules`, `LostRetraining` | schedules and retrainings that one of many replicas runs |
| `DatasetUpload`, `DeadLetterDigests`, `PacedJobs` | chunked uploads, digest windows, paced prediction jobs |
| `Sequences` | what the others share about sequences |

Code that changes stored state step by step is a class whose methods are proved against pure
functions on the whole state (`Contents() == F(old(Contents()))`); the theorems are about those
functions, and state what each leaves in terms of the stored records alone. Where several callers
run at once, each stretch of code under a lock, and each call to a store, is one step of a state
machine, and a theorem holds for every run of the machine.
Clocks, fresh ids, failures of the store, of the worker and of other instances, and what other
processes do meanwhile are parameters: a theorem that does not restrict them holds for all of them.
Times are whole numbers, costs are in millionths, ids and hashes are strings.

## Where the code falls short of what it promises

The model keeps the code as it is in each of these. A lemma gives an input or a run where the promise
fails, and another says exactly when it holds.

- The newest-only guard of a rollback compares release ids without the peer, so two peers that use
  the same release id can have the older promotion rolled back under the newer one
  (`OlderUndoesNewer`, `RollbackNewestIff`).
- The lock is let go between a claim and its deploy. Of two promotions of one workflow claimed in
  order, the older can be deployed last and stay (`DeployedOutOfTurn`, `DeployStragglerIff`,
  `DeployKeepsLawIff`).
- A release deployed as it arrives is not claimed: approved meanwhile it is deployed twice, and rolling
  it back then leaves its workflow as promoted (`ApprovedWhileArriving`, `RedeployKeepsLawIff`).
- A release is looked for before the lock is taken under which it is stored. Received twice at once
  it is stored twice, and approved in between, a member nobody approved is deployed
  (`ReceivedTwiceStoredTwice`, `StoreDistinctIff`, `ReceivedTwiceDeploysUnapproved`, `StoreSafeIff`).
- A rollback may start while later members of the release still deploy, and then leaves it half live
  (`RollbackDuringDeploySplitsRelease`, `RollbackSafeIff`).
- A carried connection already present in a vhost the sender cannot reach is used as it is
  (`BroughtElsewhereIsUsed`, `DeployInReachIff`).
- A call let in before its connection was cut off can bring the connection back (`CutOffComesBack`,
  `CutOffReturnsIff`).
- One allow can add two peers, after a stop between the two saves (`OneAllowTwoPeers`, `AskSpendsIff`).
- The vhost's AI usage can be below the sum of its workflows after one failed add
  (`FailedAddFallsBelow`, `BelowIff`).
- Noting a dataset's rows writes a retraining status outside the claim and can wipe out the last
  retraining, so that one instant retrains twice (`NotedRowsRetrainTwice`, `NoteRowsKeepsIff`,
  `NoteRowsRepeatsIff`).
- The comment on the bounded history speaks of decided promotions; the code drops any that is not
  pending, one still deploying included (`DeployingIsDropped`, `DeployingKeptIff`).

Two conditions are stated although nothing in the code breaks them: rewriting keeps blank references
apart only under maps that do (`RewriteImageIff`), which the maps built by matching are unless the
other instance lists a connection without an id (`MapsHaveNoBlankKey`), and a path is shown whole
only without an empty node id (`ShownIff`), which a derived graph never has (`DerivedEnds`).

## Model

| member | source | states |
|---|---|---|
| `ReleaseAtomicity.WholeOrNothing` | internal/environment/receive.go:485-587 | for a release of any size and any point of failure, if the undo calls succeed: either every member ends deployed over its earlier workflow, or none is: those before the failure are rolled back with the earlier definition restored (or the created workflow stopped), the failing one and those after it are failed with their workflows untouched; nothing outside the release changes |
| `ReleaseAtomicity.DeployEnds` | internal/environment/receive.go:538-587 | every deploy ends in one of two ways: deployed, with the promoted definition stored and the version to go back to recorded, or failed with every workflow as it was |
| `ReleaseAtomicity.UndoEnds` | internal/environment/receive.go:724-749 | an undo restores what the deploy recorded or changes nothing, and succeeds if and only if the workflow and the version are there and the call is let through |
| `ReleaseAtomicity.UnwindLeavesNothing` | internal/environment/receive.go:518-532 | compensating newest first from any half-deployed point leaves no member of the release live |
| `ReleaseAtomicity.DeployFromEnds` | internal/environment/receive.go:485-513 | the member loop, started anywhere with the members before it live, ends with all live or none live |
| `ReleaseAtomicity.ApplyPromotedSaves` | internal/environment/receive.go:599-618 | applying over an existing workflow adds versions so that the recorded earlier one restores exactly the old definition |
| `DeployOutcome.DeployRunsAsAsked` | internal/environment/receive.go:538-618 | every deploy that succeeds: over an existing workflow its vhost, run and placement stay, and it is active if and only if it was or was sent to start, and no needed secret is lacking here or it is to be started anyway; a created one is in no workspace, in the vhost it was sent to, and active under the same condition; the promotion records who, the version that now runs, and kept stopped exactly when a secret is lacking and it was not to be started anyway |
| `DeployOutcome.DeploySucceedsIff` | internal/environment/receive.go:538-587 | a deploy succeeds if and only if its workflow is stored, every connection it names comes along or is here where its sender may use it, the sent values can be read, and no call it needs fails |
| `DeployOutcome.DeployTouches` | internal/environment/receive.go:538-587 | whatever comes of it, a deploy otherwise only adds needed secrets and brought connections, in the vhost the workflow is in, and forgets the values sent |
| `ReleaseOutcome.ReleaseGoesLive` | internal/environment/receive.go:485-513 | a release whose members can each be deployed as things stand goes live as a whole: no member takes away what another needs |
| `ReleaseOutcome.UndoLeaves` | internal/environment/receive.go:724-749 | an undo succeeds exactly when the call goes through and the workflow and version are here; then the whole row is the recorded version again, recorded as a new one, or is stopped; nothing else changes |
| `ReleaseOutcome.DeployUndoneIff` | internal/environment/receive.go:724-749 | undoing a deploy at once brings the earlier row back, running or not, if and only if the newest recorded version, if any, is that row; the definition comes back in any case |
| `RollbackStack.RollbackIsAStackPop` | internal/environment/receive.go:687-749 | over every run of arrivals, approvals in arrival order, rejections, failures and permitted rollbacks, one operation after another, a workflow has the definition of its newest promotion still deployed, or its original one when there is none |
| `OverlappingApprovals.OverlapsKeepTheStack` | internal/environment/receive.go:435-587 | the same when operations overlap between members in any way, as long as claims come in arrival order, a promotion is deployed when no older one of the workflow is still being deployed, and only the newest deployed one is undone |
| `OverlappingApprovals.OperationIsMoves` | internal/environment/receive.go:435-749 | every operation is a run of such single moves |
| `OverlappingApprovals.DeployStragglerIff` | internal/environment/receive.go:464-513 | deploying a promotion leaves no older one of its workflow to be deployed over it if and only if none is being deployed |
| `OverlappingApprovals.DeployKeepsLawIff` | internal/environment/receive.go:538-618 | a deploy that succeeds keeps the stack law if and only if no newer promotion of the workflow is deployed, the two definitions being different |
| `OverlappingApprovals.UndoKeepsLawIff` | internal/environment/receive.go:518-532 | so does an undo, which has no newest-only guard of its own while a release is unwound |
| `OverlappingApprovals.DeployedOutOfTurn` | internal/environment/receive.go:464-513 | two approvals whose deploys overlap: every call succeeds and the workflow is left at the older definition |
| `RollbackStack.RollbackNewestIff` | internal/environment/receive.go:699-712 | a permitted rollback undoes only the newest deployed promotion of a workflow if and only if no newer one hides behind the same release id of another peer |
| `RollbackStack.OlderUndoesNewer` | internal/environment/receive.go:699-712 | a concrete store in which that fails: two peers use one release id, the older is rolled back, and the newer still counts as deployed over a definition that is gone |
| `RollbackStack.SharedReleaseHolds` | internal/environment/receive.go:687-749 | the store of that example obeys the law before the rollback |
| `RollbackStack.LawPush` | internal/environment/receive.go:599-618 | a deploy pushes a definition on the workflow's stack |
| `RollbackStack.LawPop` | internal/environment/receive.go:724-749 | undoing the newest pops it |
| `RollbackStack.ApproveInv` | internal/environment/receive.go:435-513 | approving in arrival order, with the whole deploy before anything else happens, keeps the stack law, whatever fails |
| `RollbackStack.RollbackInv` | internal/environment/receive.go:687-721 | a permitted rollback keeps the stack law unless a newer promotion hides behind the release id |
| `RollbackGuard.RollbackPermittedIff` | internal/environment/receive.go:687-712 | a rollback is permitted if and only if the promotion is deployed and no deployed member of its release has a newer deployed promotion of its workflow, other than one of another instance under the same release id |
| `RollbackGuard.NewestMayRollBack` | internal/environment/receive.go:687-712 | a release whose members are the newest of their workflows may be rolled back; and what may be is the newest, unless a newer one hides |
| `RollbackGuard.RollbackEnds` | internal/environment/receive.go:687-721 | every rollback: refused without a change by the guard; successful exactly when permitted and each deployed member can be undone, and then each is rolled back to its earlier row or stopped and nothing else changes; otherwise stopped at a member that cannot be undone, with the later ones undone |
| `RollbackGuard.RollbackUncovers` | internal/environment/receive.go:699-712 | after a rollback, an earlier release that only this one covered may be rolled back |
| `RollbackGuard.StackEmpties` | internal/environment/receive.go:687-749 | rolling the newest back again and again always succeeds and ends at the definition the workflow had before any promotion |
| `RollbackGuard.EveryStackEmpties` | internal/environment/receive.go:687-749 | so it does after any run of arrivals in order, approvals, rejections and rollbacks |
| `RollbackGuard.GroupIs` | internal/environment/receive.go:373-384 | a release is exactly the promotions of one instance under one release id, in order; one sent by itself is alone |
| `ArrivalRaces.ApprovedWhileArriving` | internal/environment/receive.go:274-279 | a run in which a promotion deployed on arrival is approved meanwhile: it is deployed twice, every call succeeds, and rolling it back leaves its workflow as promoted |
| `ArrivalRaces.RedeployKeepsLawIff` | internal/environment/receive.go:538-618 | deploying what is deployed already keeps the stack law if and only if what is below it has the same definition |
| `ReleaseProtocol.EveryRunIsLegal` | internal/environment/receive.go:435-479 | in every interleaving of arrivals, claims, rejections, member deploys, undos and rollbacks: statuses only move along pending, deploying, deployed, rolled back, or to rejected or failed; final ones never change; a release leaves pending as a whole; a claim stays the only one, covers the whole release, and is by nobody who sent a member where the rules forbid it |
| `ReleaseProtocol.StepSafe` | internal/environment/receive.go:373-384 | every single step of that machine keeps its invariant and moves statuses legally |
| `ReleaseProtocol.ClaimsStay` | internal/environment/receive.go:435-479 | no step takes a claim away or gives it to someone else |
| `ReleaseProtocol.StoreSafeIff` | internal/environment/receive.go:242-281 | storing a received release keeps the invariant if and only if no stored member of that release has been decided since it was looked for |
| `ProtocolFollows.ApproveFollows` | internal/environment/receive.go:435-532 | an approval that nobody interferes with is a run of one thread of the machine: claim, load, deploys, and compensation where one fails, ending in the statuses the call leaves |
| `ProtocolFollows.RollbackFollows` | internal/environment/receive.go:687-721 | so is a rollback |
| `ProtocolFollows.RejectFollows` | internal/environment/receive.go:651-682 | and a rejection |
| `ProtocolFollows.DeployFromFollows` | internal/environment/receive.go:485-532 | and the member loop from any position |
| `ReleaseRaces.ReceivedTwiceDeploysUnapproved` | internal/environment/receive.go:242-281 | a run in which one release is received twice at once, and a member nobody approved goes from pending to deployed |
| `ReleaseRaces.StoreDistinctIff` | internal/environment/receive.go:242-281 | storing a release keeps every release free of repeated workflows if and only if none of its workflows is stored under it already |
| `ReleaseRaces.ReceivedTwiceStoredTwice` | internal/environment/receive.go:242-281 | a run in which a release received twice at once is stored twice while it is pending |
| `ReleaseWhole.ReleasesSettleWhole` | internal/environment/receive.go:485-587 | in every interleaving where undos succeed and a rollback starts only on a release that has ceased to be deployed (no member is being deployed, or one has failed), a release that nobody is at work on is deployed whole or not at all |
| `RollbackTiming.RollbackSafeIff` | internal/environment/receive.go:687-721 | a rollback leaves its release whole, whatever the others go on to do, if and only if it starts on a release that has ceased to be deployed |
| `RollbackTiming.CeasedIffNoDeployer` | internal/environment/receive.go:485-532 | and that is so if and only if no deploy is at work on the release |
| `ReleaseWhole.StepWhole` | internal/environment/receive.go:485-587 | every such step keeps the invariant behind it |
| `ReleaseWhole.StartWhole` | internal/environment/receive.go:242-281 | that invariant holds before anything has arrived |
| `ReleaseRaces.RollbackDuringDeploySplitsRelease` | internal/environment/receive.go:687-721 | a run in which every call succeeds and a rollback during the deploy leaves the release half live with nobody at work on it |
| `Decisions.ClaimVerdict` | internal/environment/receive.go:453-463 | a claim goes through if and only if every member of the release may be approved by that user |
| `DecisionOutcome.ClaimEndsIff` | internal/environment/receive.go:435-479 | a release is claimed if and only if every member waits and is not the user's own where the rule of its vhost, or else the general one, forbids that, and every value typed is for a needed secret and can be stored; then exactly its members are being deployed in that name; otherwise nothing changes |
| `DecisionOutcome.RejectEndsIff` | internal/environment/receive.go:651-682 | a release is rejected if and only if all of it waits and the reason has at most 1000 characters; then exactly its members are rejected and their sent values gone |
| `DecisionOutcome.UnknownRefused` | internal/environment/receive.go:386-388 | an unknown id is refused and nothing changes |
| `Admission.ReleaseArrives` | internal/environment/receive.go:242-281 | an admitted release is stored whole: one pending promotion per item, in order, in a well-formed store with no workflow twice |
| `Admission.ReleaseRefusedWhole` | internal/environment/receive.go:242-281 | a release with one refused item, or one already stored, changes nothing |
| `ReleaseArrival.ReleaseWaits` | internal/environment/receive.go:242-281 | where the landing vhost asks for approval, a new release is stored whole and waits: old promotions, workflows, connections and secrets are as before, and each item is pending with exactly what it lacks here |
| `ReleaseArrival.ReleaseDeploysAtOnce` | internal/environment/receive.go:242-281 | where it asks nobody, none of a new release waits: it is deployed in the name automatic, live as a whole or not at all when undo calls go through |
| `ReleaseArrival.WholeStored` | internal/environment/receive.go:129-203 | each item is stored in order with its workflow, in the vhost it lands in and without its run over there, the secrets lacking here, the values sent for those and no others, and the connections not here |
| `ReleaseArrival.AdmitFineIff` | internal/environment/receive.go:129-176 | an item is let in if and only if it is well formed and soaked, its workflow is in reach, every connection sent along is used and in reach if here, every connection named is in reach or sent along, and its values are for secrets it uses |
| `Admission.Trims` | internal/environment/receive.go:168-172 | a sender is stored as sent, less the space at either end |
| `ReleaseArrival.ReleaseFineIff` | internal/environment/receive.go:232-269 | a release is let in if and only if its id and size are right and it is known already or has no workflow twice and only admissible items |
| `ReleaseArrival.ArrivesInReach` | internal/environment/receive.go:129-176 | what is let in lands where its sender may use it |
| `ReleaseArrival.DeployStaysInVHost` | internal/environment/receive.go:538-587 | a deploy of it adds secrets and connections, and keeps its workflow, only in the vhost its sender is limited to |
| `Admission.AdmitCarried` | internal/environment/carry.go:143-174 | admits if and only if every carried connection is of a known kind, used by the workflow and, if found here, within the sender's reach; keeps exactly those not found here |
| `CarriedConnections.DeployLeavesNoDangling` | internal/environment/receive.go:321-341 | after a successful deploy every source and sink the stored workflow names exists, whatever was deleted since admission |
| `CarriedConnections.DeployInReachIff` | internal/environment/receive.go:321-341 | and they are all within the sender's reach if and only if every carried one found here is, or lands, within it |
| `CarriedConnections.BroughtElsewhereIsUsed` | internal/environment/carry.go:188-204 | a concrete deploy over a carried connection found in a vhost the sender cannot reach |
| `CarriedConnections.CreateUpToGrows` | internal/environment/carry.go:188-204 | creating carried connections removes and changes none, and afterwards each of them exists |
| `PromotionSecrets.DeploySecretsPartition` | internal/environment/secrets_sync.go:304-334 | the needed names are partitioned into created, kept and missing; no secret that was there changes; a created one has the approver's value if typed and otherwise the sender's; no other name is touched |
| `PromotionSecrets.FillUpToRight` | internal/environment/secrets_sync.go:141-168 | after any number of names the report and the stored secrets are exactly what those names call for |
| `PromotionSecrets.FillNeverOverwrites` | internal/environment/secrets_sync.go:141-168 | filling, even one that stops half way, never changes a secret that was there |
| `PromotionHistory.TrimHistory` | internal/environment/repository.go:115-130 | the bounded history keeps every pending promotion and the newest others, each kind in order, and blanks exactly the oldest others past the cap |
| `PromotionHistory.DeployingKeptIff` | internal/environment/repository.go:115-130 | every promotion that is being deployed is kept if and only if none is among the oldest past the cap that are not pending |
| `PromotionHistory.DeployingIsDropped` | internal/environment/repository.go:115-130 | a history of 201 whose oldest is being deployed and whose others wait: the one being deployed is dropped |
| `PromotionService.Service.Deploy` | internal/environment/receive.go:538-587 | the method ends in the state of the specification Deploy, with its answer |
| `PromotionService.Service.ApplyPromoted` | internal/environment/receive.go:599-618 | stores the workflow and its versions as the specification does and returns the versions before and after |
| `PromotionService.Service.DeployGroup` | internal/environment/receive.go:485-513 | the member loop with its unwinding ends in the state WholeOrNothing speaks about |
| `PromotionService.Service.UnwindRelease` | internal/environment/receive.go:518-532 | the two loops, newest first and then onwards, do what the specification Unwind does |
| `PromotionService.Service.Undo` | internal/environment/receive.go:724-749 | restores or stops the workflow and marks the promotion, as the specification does |
| `PromotionService.Service.Fail` | internal/environment/receive.go:633-647 | marks one promotion failed and changes nothing else |
| `PromotionService.Service.GroupOf` | internal/environment/receive.go:373-384 | lists, in order, exactly the members of the promotion's release |
| `PromotionService.Service.Claim` | internal/environment/receive.go:435-479 | checks every member before it marks any, so a refusal changes nothing |
| `PromotionService.Service.Approve` | internal/environment/receive.go:435-479 | a claim followed by the deploy of the whole group |
| `PromotionService.Service.Reject` | internal/environment/receive.go:651-680 | rejects every member of the release or none |
| `PromotionService.Service.MayRollBack` | internal/environment/receive.go:687-712 | refuses unless no deployed member has a newer deployed promotion of another release, and lists the deployed ones |
| `PromotionService.Service.UndoAll` | internal/environment/receive.go:687-721 | undoes newest first and stops at the first that fails |
| `PromotionService.Service.Rollback` | internal/environment/receive.go:687-721 | the guard and the undo loop together, ending in the state RollbackIsAStackPop speaks about |
| `PromotionService.Service.FillSecrets` | internal/environment/secrets_sync.go:141-168 | the loop of the fill, ending in the state DeploySecretsPartition speaks about |
| `PromotionService.Service.DeploySecrets` | internal/environment/secrets_sync.go:324-334 | fills what is needed and drops the sender's values |
| `PromotionService.Service.FilledSecrets` | internal/environment/secrets_sync.go:102-136 | accepts the typed values if and only if none is left after dropping the blank ones, or secrets can be written and each name is one a member needs; returns the ones that are not blank |
| `PromotionService.Service.CreateCarried` | internal/environment/carry.go:188-204 | creates what is missing and stops at the first failure |
| `PromotionService.Service.ReceiveRelease` | internal/environment/receive.go:242-281 | admits every item before it stores any |
| `PromotionService.Service.AdmitItems` | internal/environment/receive.go:242-281 | refuses on the first bad or repeated item and otherwise admits all, in order |
| `Workflows.RewriteImageIff` | internal/environment/promote.go:72-121 | the references of every rewritten workflow are the de-duplicated, order-preserving image of the original's if and only if the maps turn no name into a blank nor a blank into a name |
| `Workflows.RewriteCarriesRefs` | internal/environment/promote.go:72-121 | under such maps, for each workflow |
| `Workflows.RewriteKeepsSkeleton` | internal/environment/promote.go:96-121 | nothing but references changes in any node or edge |
| `Workflows.RewriteRoundTripIff` | internal/environment/promote.go:96-121 | rewriting back with inverse maps restores every covered workflow if and only if a blank returns to itself |
| `Workflows.RewriteBack` | internal/environment/promote.go:96-121 | the round trip for one covered workflow |
| `Workflows.WorkflowRefs` | internal/environment/promote.go:72-91 | the loop lists each source and each sink once, in the order first met |
| `Workflows.RefsAreNames` | internal/environment/promote.go:72-91 | the references are exactly the ids that source nodes, sink nodes and either source key of any node name, none blank and each once |
| `Workflows.RewritesRefs` | internal/environment/promote.go:96-121 | node by node, exactly those are replaced, each under the map of its kind |
| `Workflows.RewriteRefs` | internal/environment/promote.go:96-121 | the loop builds the specified rewriting and leaves its input alone |
| `Workflows.DedupRename` | internal/environment/promote.go:72-91 | renaming commutes with de-duplication |
| `ConnectionMatching.MatchRefs` | internal/environment/promote.go:344-392 | the maps built for a workflow have no blank key; if the other instance lists no connection without an id, the rewritten workflow names exactly what its references were matched with; nothing is unready if and only if every reference has a place to go |
| `ConnectionMatching.MatchAll` | internal/environment/promote.go:351-384 | a reference is in the map if and only if it has a place to go, which the map gives; exactly those with nothing to match and no plain-text credential go along; the rest are counted |
| `ConnectionMatching.GoesTo` | internal/environment/promote.go:351-384 | case by case: to the chosen target and only that, to the one of its id and type, to the one of its name; a name merely alike has to be confirmed; with nothing alike it goes along if it may |
| `ConnectionMatching.Resolve` | internal/environment/link.go:517-553 | the person's own match and only that where there is one; else the first of its id and type; else the one of its name; else, as a suggestion, the one of a name alike; missing exactly when none of these is there |
| `ConnectionMatching.Pick` | internal/environment/link.go:528-545 | picks a target if and only if it is the only one that passes in the vhost, or the only one at all when none there does |
| `ConnectionMatching.MapsHaveNoBlankKey` | internal/environment/promote.go:344-392 | a blank value comes only from a connection listed without an id |
| `PeerHistory.ReceivingSideHolds` | internal/environment/connection.go:60-218 | over every run, stops between the two saves included: no group holds two peers or two requests for one vhost; every peer traces back to a pairing code an administrator issued, to an allow, or to the permission its code gave; a decline is told at most once |
| `PeerHistory.StepSafe` | internal/environment/connection.go:60-218 | each critical section of the receiving side keeps that |
| `PeerHistory.DeclineToldOnceThenGone` | internal/environment/connection.go:60-108 | a declined request is reported to whoever asks next and is then gone; asking again starts over |
| `PeerHistory.CutOffReturnsIff` | internal/environment/connection.go:60-141 | a call that was let in before its connection was cut off brings the group back if and only if its code may add vhosts and no request is in the way, or its request was allowed |
| `PeerRuns.CutOffComesBack` | internal/environment/connection.go:198-218 | a run from the start in which it does: paired, cut off, and asked once more by the call that was let in |
| `PeerAllows.OneAllowOnePeer` | internal/environment/connection.go:112-141 | over every run in which each ask that adds by an allow runs to its end and the allow names who gave it, a group gets at most one peer for a vhost out of each allow |
| `PeerAllows.StartSpent` | internal/environment/connection.go:112-141 | and that balance holds before anything has happened, so the bound covers every run from the start |
| `PeerAllows.AskSpendsIff` | internal/environment/connection.go:131-141 | such an ask uses the allow up if and only if it runs to its end and the allow names who gave it |
| `PeerAllows.OneAllowTwoPeers` | internal/environment/connection.go:131-141 | a run in which the process stops between the two saves, the peer is revoked by itself, and one allow adds a second |
| `PeerOutcome.GuessingEnds` | internal/environment/link.go:148-177 | ten wrong guesses in a row, whenever they come, leave no pairing code and no new peer |
| `PeerOutcome.WrongGuessCounts` | internal/environment/link.go:148-177 | a wrong code is refused and counted, and the tenth clears every code |
| `PeerOutcome.RightCodeSpent` | internal/environment/link.go:162-214 | the right code is spent whatever comes of it and cannot be used again, no other is; its peer joins with its vhost and permission unless the vhost could not be created or the process stopped |
| `PeerOutcome.NewCodeKept` | internal/environment/link.go:96-131 | a new code joins those that still hold, of which the oldest give way past twenty |
| `PeerOutcome.FirstAsk` | internal/environment/connection.go:60-108 | a vhost asked for the first time is given at once to a connection that may add vhosts; any other waits, unless a hundred wait already |
| `PeerOutcome.AskAgain` | internal/environment/connection.go:60-141 | asked for before: a declined request is told and gone; an allowed one gives the peer and is gone once saved; an undecided one still waits |
| `PeerOutcome.AskRefused` | internal/environment/connection.go:60-84 | a vhost with no proper name, or one reached already, is refused without a change |
| `PeerOutcome.DecideEnds` | internal/environment/connection.go:181-194 | only a request that is there and undecided is decided, as asked and by whom |
| `PeerOutcome.CutOffTakesAll` | internal/environment/connection.go:198-218 | cutting a connection off takes all its peers and then, unless stopped in between, all its requests; the others stay, in order |
| `PeerOutcome.RevokeTakesOne` | internal/environment/link.go:243-254 | revoking a peer takes that one away |
| `PeerService.Service.NewPairingCode` | internal/environment/link.go:96-131 | adds the code and drops the expired ones |
| `PeerService.Service.Pair` | internal/environment/link.go:162-214 | spends the code whatever comes next, adds the peer, and forgets every code after too many failures |
| `PeerService.Service.GroupReaches` | internal/environment/connection.go:145-158 | holds if and only if a peer of the group sends into the vhost or into every one |
| `PeerService.Service.IssueVHostPeer` | internal/environment/connection.go:112-141 | saves the peer before the request, so a stop in between keeps both |
| `PeerService.Service.AddPeerVHost` | internal/environment/connection.go:60-108 | refused, waiting, declined or granted, as the specification says |
| `PeerService.Service.DecideVHostRequest` | internal/environment/connection.go:181-194 | decides only a request nobody has decided |
| `PeerService.Service.RevokePeerGroup` | internal/environment/connection.go:198-218 | removes the whole group's peers, then its requests |
| `LinkService.SendingSideHolds` | internal/environment/connection.go:229-378 | over every interleaving of linking, adding vhosts, asking again and unlinking: one link per vhost, a token exactly for each link that is not pending, none without its link, and linkFor finds the only link there is |
| `LinkService.StepSafe` | internal/environment/connection.go:229-378 | each critical section of the sending side keeps that |
| `LinkService.KeepNeverReplaces` | internal/environment/connection.go:308-324 | a link kept late, or refused, takes nothing from a vhost that has a link: it is found as before, with the token it had |
| `LinkService.KeepKeeps` | internal/environment/connection.go:308-324 | otherwise it and its token are added and nothing else changes |
| `LinkOutcome.UnlinkTakesAway` | internal/environment/link.go:413-434 | after unlinking, no link and no token has the id; the others are there, in order, with their tokens; and the vhost has no link of its own |
| `LinkOutcome.UnlinkUnknown` | internal/environment/link.go:413-434 | an id without a link changes nothing |
| `LinkOutcome.LinkAdds` | internal/environment/link.go:360-408 | linking a vhost for the first time adds its link and token and nothing else |
| `LinkOutcome.LinkReplaces` | internal/environment/link.go:360-408 | linking it again: the new link is the vhost's, the old one and its token are gone, every other link and token is as before |
| `LinkOutcome.AskAgainEnds` | internal/environment/connection.go:328-378 | with a token the link waits no longer and holds it; without one only its note is new; a link gone meanwhile changes nothing |
| `LinkOutcome.KeepsUnless` | internal/environment/connection.go:308-324 | a link added late is kept if and only if its vhost has none of its own by then |
| `LinkOutcome.CheckOnlyNotes` | internal/environment/link.go:437-475 | checking a link changes its note and nothing else |
| `LinkOutcome.LinkForIs` | internal/environment/link.go:318-326 | the link a vhost's workflows go through is its own, or one made before links were per vhost |
| `LinkService.Service.LinkWithReply` | internal/environment/link.go:360-408 | replaces the vhost's link and drops the old token |
| `LinkService.Service.KeepLinkFor` | internal/environment/connection.go:308-324 | keeps the link unless the vhost has one |
| `LinkService.Service.AddVHosts` | internal/environment/connection.go:229-270 | the loop keeps the invariant and every link there was, adds one link per route up to the first refusal or the first vhost that has a link, and changes nothing after it |
| `LinkService.Service.AskAgainWith` | internal/environment/connection.go:328-378 | turns a pending link into a live one when a token came |
| `LinkService.Service.Forget` | internal/environment/link.go:413-434 | removes the link and its token |
| `LinkService.Service.SaveLinkToken` | internal/environment/repository.go:157-175 | afterwards the link has the token if it is not empty and none otherwise, and no other token has changed |
| `LineageDownstream.DownstreamExact` | internal/lineage/impact.go:45-77 | lists exactly the nodes reachable from the root, the root excluded, each once, nearest first, at its shortest distance; each item ends a real edge path of that length in the stated relation; the counts add up to the list |
| `LineageDownstream.DownstreamStable` | internal/lineage/impact.go:89-113 | reordering the edge list, or repeating an edge, changes no answer |
| `LineageWalks.ReorderedSame` | internal/lineage/impact.go:89-113 | a reordered edge list holds the same reads and writes |
| `LineageDownstream.ShownIff` | internal/lineage/impact.go:57-66 | the path shown is the end of the real one, and all of it if and only if no node before the last has an empty id |
| `LineageDownstream.PathsAreReal` | internal/lineage/impact.go:57-66 | every shown path is whole where no edge leaves an empty id |
| `LineageDownstream.BlankCutsPath` | internal/lineage/impact.go:57-66 | a graph whose node with an empty id cuts the path of a listed node short |
| `LineageDownstream.SortChangesNothing` | internal/lineage/impact.go:75 | the final stable sort by depth leaves the list as the walk made it |
| `LineageDownstream.Downstream` | internal/lineage/impact.go:45-77 | an unknown root is refused, and any other gives an answer of the kind above |
| `LineageDownstream.PathBack` | internal/lineage/impact.go:57-63 | the loop over parent pointers gives the shown path backwards |
| `LineageImpact.Walk` | internal/lineage/impact.go:89-113 | the breadth-first loop reaches each node from the first listed node that leads to it, by its least relation, in order of that node and then of id, and leaves nothing reachable out |
| `LineageImpact.OutEdges` | internal/lineage/impact.go:90-96 | groups the edges by source, each group in (target, relation) order |
| `LineageWalks.NoShorterPath` | internal/lineage/impact.go:89-113 | no path from the root is shorter than a node's recorded depth |
| `LineageWalks.ChainIsPath` | internal/lineage/impact.go:89-113 | the parents recorded form a real path of the recorded depth |
| `LineageWalks.OneWalk` | internal/lineage/impact.go:89-113 | the walk is determined by which reads and writes there are |
| `CompositeSinks.AssetsOf` | internal/lineage/assets.go:174-212 | expanding a sink ends on every membership graph, cycles included, and gives exactly the assets of the plain sinks it reaches through members, with every reachable composite expanded exactly once |
| `CompositeSinks.Expansion.MemberAssets` | internal/lineage/assets.go:196-212 | with a shared seen: the composites newly seen are expanded once each, are reachable, and are closed under membership; the assets collected are exactly theirs |
| `CompositeSinks.Expansion.SinkAssets` | internal/lineage/assets.go:174-192 | the same for any sink, a plain one giving its own assets |
| `CompositeSinks.CollectedExact` | internal/lineage/assets.go:196-212 | expanding each reachable composite once collects exactly what is reachable |
| `CompositeSinks.WritesThroughNames` | internal/lineage/assets.go:196-214 | a failover writes exactly what its primary and all its fallbacks write, a txgroup what its members write |
| `CompositeSinks.PlainWritesOwn` | internal/lineage/assets.go:174-191 | any other sink writes its own assets |
| `LineageDerive.Derive` | internal/lineage/derive.go:48-74 | the graph has exactly the reads and writes of the records, each once, and a node with a non-empty id for each end |
| `LineageDerive.DerivedEnds` | internal/lineage/derive.go:100-143 | every end of an edge of a derived graph is one of its nodes |
| `LineageDerive.DerivedNodes` | internal/lineage/derive.go:48-74 | a derived graph has a node for each workflow, each model and each end of an edge, and no other; a workflow's is marked as one |
| `LineageDerive.SourceIsShown` | internal/lineage/derive.go:78-85 | a source a workflow reads is never left out: if its type says nothing, its connector stands for it |
| `LineageDerive.ImpactOfDerived` | internal/lineage/impact.go:45-77 | on a derived graph every node listed exists and every path shown is whole and shortest |
| `LineageDerive.ImpactReachesMembers` | internal/lineage/derive.go:89-96 | the impact of a workflow lists every asset of every plain sink its sink node reaches through failover and txgroup members |
| `LineageShown.WorkflowsJoin` | internal/lineage/model.go:20-24 | a workflow that writes an asset is shown to affect every workflow that reads it, even when each names a record of its own |
| `LineageShown.ReadsShown` | internal/lineage/derive.go:98-112 | a workflow reads every asset of each source its nodes name |
| `LineageShown.WritesShown` | internal/lineage/derive.go:113-117 | it writes every asset of each sink its nodes name, or reach through failovers and txgroups |
| `LineageShown.UseShown` | internal/lineage/derive.go:118-126 | what any other node touches is shown the way the data flows |
| `LineageShown.TrainingShown` | internal/lineage/derive.go:64-72 | a model that retrains is shown to be trained on its dataset |
| `LineageShown.AssetIDIs` | internal/lineage/locator.go:31-40 | an asset's id is its kind, system, place and, behind one slash, its object |
| `LineageDerive.Builder.AddAsset` | internal/lineage/derive.go:28-42 | the first asset of an id makes its node, later ones change nothing |
| `LineageDerive.Builder.Link` | internal/lineage/derive.go:132-143 | adds exactly one edge per asset, at the open end, and its node |
| `LineageDerive.Builder.AddNode` | internal/lineage/derive.go:107-126 | adds exactly the edges the node's type calls for |
| `LineageDerive.Builder.AddWorkflow` | internal/lineage/derive.go:100-128 | adds the workflow's node and exactly its nodes' edges |
| `LineageDerive.Builder.SinkAssets` | internal/lineage/derive.go:89-96 | what a sink reaches, or its connector asset when it is plain and has none |
| `LineageDerive.AssetID` | internal/lineage/locator.go:34-40 | an asset's id is never empty |
| `AIBudgetLimits.OvershootBound` | internal/aibudget/service.go:158-202 | in every interleaving of checks and records, across months, with at most N calls in flight using at most M each, the usage recorded for the vhost and for every capped workflow never exceeds limit - 1 + N*M, in tokens and in cost |
| `AIBudgetLimits.StepBounded` | internal/aibudget/service.go:158-249 | each step keeps the bound together with what the calls in flight can still add |
| `AIBudgetRuns.BoundIsReached` | internal/aibudget/service.go:158-202 | a run that reaches the bound |
| `AIBudgetLedger.LedgerHolds` | internal/aibudget/service.go:220-249 | per month, what the vhost counted and failed to count is what its workflows and the calls of none counted, with what is half done or was lost between the two |
| `AIBudgetLedger.LedgerAgrees` | internal/aibudget/service.go:220-249 | with no record half done and no add failed, the two agree exactly |
| `AIBudgetLedger.BelowIff` | internal/aibudget/service.go:220-249 | the vhost's counter is below its workflows' if and only if more of its adds failed than are half done or failed for a workflow |
| `AIBudgetRuns.FailedAddFallsBelow` | internal/aibudget/service.go:232-248 | a run in which one failed add leaves the vhost below its workflows |
| `AIBudgetAlerts.AlertExactlyOnce` | internal/aibudget/service.go:253-290 | per scope, limit and month and across replicas: never a second alert, never one before 80%, and once 80% is reached exactly one, unless a call has yet to record it or could not |
| `AIBudget.Over` | internal/aibudget/service.go:194-202 | within exactly when every limit set is above what is used; otherwise the limit reported is one that is reached |
| `AIBudget.ChecksAgainst` | internal/aibudget/service.go:158-192 | a call goes on if and only if the vhost is below each limit set, and then its workflow below each of its own; a check records nothing |
| `AIBudget.ToWarn` | internal/aibudget/service.go:253-268 | the alerts due are exactly the limits at 80% or past it that are not marked |
| `ClaimedSchedules.RunsAtMostInstants` | internal/ml/schedules.go:644-693 | across any number of replicas under exclusive claims and under any policy, a setting of a schedule runs at most once per cron instant since it was set, plus once per run whose outcome was not recorded, as long as whoever notes a dataset's rows finds no run since the setting; missed instants collapse into one run |
| `ClaimedSchedules.NoteRowsKeepsIff` | internal/ml/retrain.go:356-375 | noting the rows loses no recorded run if and only if the present setting has none; a last run not after the setting is enough |
| `ClaimedSchedules.NoteRowsRepeatsIff` | internal/ml/retrain.go:356-375 | between runs, noting the rows makes an instant answered already due again if and only if the setting has answered one |
| `ClaimedSchedules.StepOk` | internal/ml/schedules.go:671-693 | each store operation keeps the rising list of instants answered, under any policy |
| `ClaimedSchedules.Basis` | internal/ml/schedules.go:309-314 | the later of the last run and the setting |
| `ClaimedSchedules.DueIff` | internal/ml/schedules.go:309-321 | a schedule is due if and only if an instant of it came since it last ran and since it was set, however many did; a run recorded at a time answers all until then |
| `ClaimedSchedules.RetrainDueIff` | internal/ml/retrain.go:212-222 | a schedule triggers a retraining if and only if it would make a refresh with the same last run due |
| `ClaimedSchedules.RetrainOnRowsIff` | internal/ml/retrain.go:212-239 | new rows trigger a retraining if and only if the schedule does not, enough came since the last one (all of them, in a dataset that shrank), and that one did not fail too recently |
| `LostRetraining.NotedRowsRetrainTwice` | internal/ml/retrain.go:356-375 | a run in which noting a dataset's rows, done outside the claim, wipes out the last retraining, and one instant retrains a model twice |
| `DatasetUpload.FillDataset` | internal/ml/datasets.go:84-96 | succeeds if and only if the query ends well, its rows fit the cap, and every chunk encodes, fits the byte quota and is taken; then the dataset is exactly the query's rows, even none; otherwise it is the old one or a prefix of the rows |
| `DatasetUpload.RowCap` | internal/ml/datasets.go:49-63 | the cap is the caller's, or a million without one, or the row quota where that is smaller |
| `DatasetUpload.LeftMeans` | internal/ml/datasets.go:153-194 | whatever comes of it: the rows go out in order, at most 1000 a call, only the first call replaces, and the bytes sent stay within the quota |
| `DatasetUpload.Uploader.Flush` | internal/ml/datasets.go:173-194 | sends the next chunk, or refuses with nothing sent over the quota |
| `DatasetUpload.Uploader.Add` | internal/ml/datasets.go:165-171 | keeps the rows not yet sent below one chunk |
| `DatasetUpload.GoesBefore` | internal/ml/datasets.go:173-194 | if all the calls of a fill go through, so do the first of them |
| `DeadLetterDigests.DeadLettersConserved` | internal/notification/dead_letters.go:127-173 | in every interleaving of arrivals, timers (stale ones included) and forced flushes: the windows cut a workflow's letters into consecutive stretches, each counted once; no window closes twice; an open window's own timer has still to fire |
| `DeadLetterDigests.StepInv` | internal/notification/dead_letters.go:127-173 | each critical section and each timer keeps that |
| `DeadLetterDigests.Closes` | internal/notification/dead_letters.go:165-173 | a timer that fires, or a flush that comes to it, closes the workflow's window once if it is open, and no other |
| `DeadLetterDigests.CoversCounts` | internal/notification/dead_letters.go:127-144 | the windows' counts add up to the letters that arrived |
| `DeadLetterDigests.ShowsFirst` | internal/notification/dead_letters.go:135-138 | a window shows the first ten samples of its letters, or all of them |
| `DeadLetterDigests.Digest.DeadLettered` | internal/notification/dead_letters.go:127-144 | opens the workflow's window if there is none, counts the letter and keeps its sample while there is room |
| `DeadLetterDigests.Digest.Close` | internal/notification/dead_letters.go:165-173 | takes the window out if it is still there |
| `DeadLetterDigests.Digest.OpenWorkflows` | internal/notification/dead_letters.go:149-160 | lists every workflow with an open window once |
| `PacedJobs.PredictJob` | internal/ml/jobrunner.go:394-418 | a job that ends well has one answer per row, in order; every call holds at most the chunk; with the quota read, no call is refused as needing a split, and none for too many rows; when the quota is read and every call is let through and answered, it ends well |
| `PacedJobs.ChunksDoNotShow` | internal/ml/jobrunner.go:405-416 | for a model that answers row by row the answers do not depend on the chunk |
| `PacedJobs.ChunkFitsIff` | internal/ml/jobrunner.go:396-399 | a chunk fits the bucket's burst if and only if the quota could be read or a full call fits |
| `PacedJobs.AllowPredictions` | internal/ml/quotas.go:214-239 | refuses a call as needing a split exactly when it holds more rows than the burst, and asks to try again exactly when a call that fits finds too few tokens |
| `PacedJobs.Service.PredictPaced` | internal/ml/jobrunner.go:424-441 | gives up after at most 126 pauses, having waited at most 3,601,750 ms, less than an hour and 30 seconds; a refusal that waiting cures is passed on only after an hour; it ends well if and only if an attempt within 126 pauses is answered and all before it were put off and not cancelled |
| `PacedJobs.GivesUp` | internal/ml/jobrunner.go:424-441 | the pauses pass an hour at the 126th and not before |

## Left out

- Two-phase commit: the coordinator and the sinks are not part of this model.
- Receiving one promotion at a time with a release id, and peers and links made before links were per vhost: compatibility paths.
- History past the 200-promotion cap in the protocol and stack theorems; `PromotionHistory` models the trimming by itself.
- OverlappingApprovals.OverlapsKeepTheStack: a member's deploy, and an undo, is one move; what overlaps between the apply call and the status saved after it is not modelled.
- ReleaseProtocol.EveryRunIsLegal: a release deployed on arrival without approval is not a step of the machine; ReleaseArrival and ArrivalRaces treat it.
- The watch that rolls a failing deploy back by itself: it calls Rollback.
- What a stored workflow's nodes lose of captured samples and provider keys on arrival.
- Edits of a workflow by hand and its deletion between promotions: the stack law is about promotions alone.
- Settings writes that fail in the middle of an operation on promotions; the receiving side of connections does model a stop between its two saves.
- HTTP clients and servers, callbacks, mail and message sending, and whether a closed digest is in fact sent.
- Encryption, hashing and random ids: fresh or given values.
- Case folding of user names beyond ASCII letters.
- The scan of a workflow for the secrets it uses and the check for plain-text credentials: given with the workflow.
- Admission.AdmitCarried: a carried connection's name, type and settings, blank or holding plain-text credentials, are not modelled.
- PromotionService.Service.FilledSecrets: the rules for a secret's name and value (length, characters) are not modelled.
- LinkService.Service.AddVHosts: one call of it by itself, without checkRoutes; SendingSideHolds covers what others do between its rounds.
- LineageDerive.Builder.AddAsset: the records that refer to a node are not kept.
- ConnectionMatching.Resolve: what a name looks like without its environment suffix is given, and only decides suggestions.
- Diffs, reasons, labels, times of decision, metrics and log lines.
- What each connector type reads off its configuration (assets.go, nodes.go): given with the record as its assets.
- LineageDerive.Derive: does not state the order in which nodes and edges are listed, nor the records a node refers to; DownstreamStable shows that the order of edges changes no impact.
- AIBudgetLimits.OvershootBound: for a fixed budget and one clock that all replicas share; a changed limit, the kill switch and a stale cached budget are not modelled.
- Prices per model: a call's cost is given and is zero when the budget could not be read.
- ClaimedSchedules.RunsAtMostInstants: for claims that outlive their runs and a schedule that is not deleted while it runs, which would drop its claim; an unrecorded or crashed run is counted as such.
- The training slot counter and the creation lock of quotas.go: easy counters.
- DatasetUpload.FillDataset: starts once the query runs; the refusals before it (not a SELECT, too many datasets) change nothing.
- Token bucket refill and the float conversion of rates beyond the range of int: the bucket's answers are given, a rate is a real number.
- PacedJobs.PredictJob: for a quota that does not change during the job and a model that gives one answer per row.
- Concurrent forced flushes read the open windows and then close them one at a time; the model lets a flush close any workflows.
- The recommendation engine, scoring, drift monitor, governance, autoscaler, mesh, command-line tools and the user interface.
