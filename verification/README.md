# SpiritVPN control plane: a verified model

SpiritVPN keeps the desired state of its VPN fleets in PostgreSQL and drives remote
node-agents towards it through an outbox. This project models that control plane in Dafny
4.11 and proves what its comments and documentation promise about every interleaving of its
workers. `dafny verify dfyconfig.toml` checks the whole project within the limits set there.

## How the model is built

Every transaction, or single SQL statement, is one atomic step on immutable state; a run is
any sequence of enabled steps. Three machines are composed:

* **Delivery** (`Delivery*.dfy`): the outbox, the reconcile lease, the dispatchers and
  reconcilers between their two transactions, and the users really configured on each agent.
  `Delivery.Fits` is the contract the protocol expects of the desired-state writers.
* **Customers** (`Customer*.dfy`, `Targets.dfy`, `CommandStream.dfy`): entitlement, quota
  periods, accesses, the command stream and the planners. `CustomerFits` proves that each of
  the five writers meets `Fits`.
* **Plane** (`Plane*.dfy`, `FanOut.dfy`): manifests, materialization jobs, all customers and
  the delivery protocol together, with the real expiry and quota filters of a reconcile claim.
  `PlaneDelivery.RunRefines` maps every position of a plane run to a position of a delivery run
  with the same tables and the same step taken, so the delivery theorems - those about two
  moments included - are restated there for the real planners; `Identifiers.AlwaysSupplied`
  shows that a customer transaction is never blocked for want of identifiers.

`Usage*.dfy` is the accounting machine (spool, pullers, registry, counters, pruning) and
`Metering.dfy` joins it to the plane, so that what is charged to a quota period is what was registered;
`Manifest*.dfy` and `TopologyStore.dfy` the manifest; `Inventory.dfy` the drift check.

Code that changes rows step by step is kept in that form and proved against the functions
above: `Outbox.Store`, `TopologyStore.Store`, `CustomerStore.Store` and `UsageStore.Store` are
classes whose methods are the statements and transactions, with `ensures` that equate the new
rows with the specified ones; `PlannerLoops`, `ChangeLoops` and `PlanBuilder` are the planner
loops, from the rows a transaction reads to the write it commits.

## Conditions the theorems rest on

* The effect of a call reaches the agent before its caller returns and before its lease
  expires; results are recorded within the lease or not at all; a failed call may or may not
  have taken effect, and a full set may have been applied in part. `DeliveryLimits.LateResultReopensNode`
  says exactly what a late result does.
* Agents change only when called. Claims about what is on a node leave out nodes that ever left
  the manifest (`departed`) and retired accesses: both deliberately skip delivery.
  `DeliveryLimits.RetireSkipsDelivery` gives the exact rows whose retirement can leave a user behind.
* "No work is lost" and "a confirmed PRESENT is on its node" are stated for runs in which every
  reconcile claim lists all PRESENT accesses of its node. `PlaneDelivery.ClaimsAreFull` says when a
  claim does, `PlaneDelivery.FilteredIsPending` that one falls short only while an expiry or a
  materialization is pending, and `DeliveryLimits.FilteredAcceptLosesWork` what is lost then.
* A process reconciles one node at a time, so the owner of a reconcile lease identifies its claim.
* Transaction times do not decrease. Identifiers are fresh and unique; an accounting id and a
  credential belong to exactly one access. SHA-256 is injective: a fingerprint is the command, a
  digest the canonical form.
* Accounting: ids are distinct inside a batch (`UsageSafety.DuplicateIsCountedTwice` shows what
  duplicates would do), spool ids are not reused, and a response lists unacknowledged batches in
  ascending order from the oldest on; it may be cut off anywhere. Pruning is safe with one puller
  per node and no pruned row of a newer spool than the stored cursor; `UsagePruning.PruningIsExact`
  says which prunes are harmless. In `Metering` the customer's own deletion is not finalized.

## Findings

* An accepted reconcile completes every waiting operation of the node, those of retired
  accesses included, but marks only non-retired rows APPLIED (reconcile.sql.go:126-134 and
  225-232). It strands exactly the retired rows that were not APPLIED
  (`DeliveryLimits.AcceptStrandsRetired`). For a customer that is not being deleted the next
  deletion issues the revocation again. For one that is DELETING - forced absence covers
  retired rows (internal/domain/lifecycle.go:54-68), and both readiness queries count them
  (lifecycle.sql.go:14-26 and 147-168) - the deletion can then never be finalized until another
  deletion with a higher number is accepted (`PlaneDelivery.StrandedBlocksDeletion`,
  `PlaneDelivery.DeletionUnstrands`); `DeliveryExamples.DeletionHangs` is such a run.
* Outside the stored spool the prune query goes by age alone. A row of a newer spool, whose first
  batch was charged but not yet acknowledged, is therefore prunable; pruning it lets the batch be
  accrued again (`UsageExamples.CountedTwice`). `UsagePruning.NewerSpoolIsDangerous` shows that
  exactly such rows are dangerous while the agent keeps the spool.
* Recording a result after the lease reopens an operation whose next attempt is running
  (`DeliveryExamples.LateResultReopens`), a claim filtered by expiry or quota can lose work
  (`DeliveryExamples.WorkIsLost`), and retiring a row that is ABSENT and not APPLIED can leave its
  user configured (`DeliveryExamples.RetiredUserStays`).
* "Exactly one live operation" holds for non-retired accesses, and for them "live" has to mean
  "of the current version": a superseded attempt may still be in flight.
* The comment of `PlanExpiry` (internal/domain/expiry.go:26-44) speaks of non-retired accesses;
  the code passes all of them. This is harmless because a retired access is never PRESENT
  (`PlaneSafety.PresentNeedsActive`), and the model follows the code.
* With a pending materialization a lowered quota can leave a PRESENT access on an exhausted
  node, so the desired-state rule is claimed for customers the latest job has passed;
  `CustomerRepeat.ApplyExhaustion` says exactly which accesses an Apply leaves so.

## Model

| member | source | states |
|---|---|---|
| DeliverySafety.RevocationIsReal | internal/postgres/db/reconcile.sql.go:225-232 | in every reachable state a non-retired ABSENT/APPLIED access is not configured on its node, whether the dispatcher or the reconciler confirmed it |
| DeliverySafety.DeletedCustomerLeavesNoUser | internal/postgres/deletion.go:16-58 | after a finalized deletion none of the customer's users is on any node that stayed in the manifest, then or later |
| DeliverySafety.MutualExclusion | internal/postgres/db/dispatch.sql.go:54-112 | at most one IN_FLIGHT operation per node, none beside an unexpired reconcile lease, and a call and a full set can never both reach a node |
| DeliverySafety.QueueFreshness | internal/postgres/db/agent_operations.sql.go:50-58 | waiting operations carry the access's current version and state, one operation per version, and no call goes out for another version than the one read with the lease |
| DeliverySafety.TerminalIsFinal | internal/domain/dispatch.go:67-76 | an operation in a terminal status is never changed again |
| DeliverySafety.PayloadIsStable | internal/app/dispatch_operations.go:127-161 | every attempt of one operation carries the same payload, egress included |
| DeliverySafety.RowHistory | internal/postgres/db/vpn_accesses.sql.go:145-151 | between two moments an access keeps its identity, its version only grows, and equal versions mean equal contents; a deleted id never returns |
| DeliverySafety.ReconcileGuard | internal/postgres/db/reconcile.sql.go:14-20 | an accept that goes through on a staying node proves that no state or egress of the node changed since the claim and nothing new became listable |
| DeliverySafety.NoWorkLost | internal/postgres/apply.go:394-424 | with full claims an unconfirmed access has exactly one live operation of its current version; any other live one is a superseded attempt in flight |
| DeliverySafety.PresentIsOnNode | internal/postgres/db/reconcile.sql.go:157-180 | with full claims a confirmed PRESENT is on its node with its current egress |
| DeliveryLimits.FilteredAcceptLosesWork | internal/postgres/db/reconcile.sql.go:126-134 | an accept leaves a live access unconfirmed, with no operation, exactly when it was unconfirmed, PRESENT and left out of the set |
| DeliveryLimits.AcceptStrandsRetired | internal/postgres/db/reconcile.sql.go:225-232 | an accept leaves a row of the node retired, unconfirmed and carried by no operation exactly when it was retired and not APPLIED |
| DeliveryLimits.StrandedBlocksDeletion | internal/postgres/db/lifecycle.sql.go:147-168 | once a row of a DELETING customer is stranded, no step of any worker makes the deletion ready again before another transaction of the customer |
| DeliveryLimits.DeletionUnstrands | internal/domain/lifecycle.go:54-68 | a further deletion leaves no row of the customer stranded: it is carried again, or confirmed when its node has left |
| DeliveryExamples.DeletionHangs | internal/postgres/db/lifecycle.sql.go:14-26 | a run that retires an access, deletes its customer and reconciles the node, after which the customer is DELETING, not ready, and nothing is live |
| DeliveryExamples.WorkIsLost | internal/postgres/db/reconcile.sql.go:157-180 | a run in which a filtered claim is accepted and a PRESENT access stays PENDING with nothing live |
| DeliveryExamples.RetiredUserStays | internal/postgres/materialize.go:275-285 | a run that ends with a retired APPLIED row whose user is still on a node of the manifest |
| DeliveryExamples.LateResultReopens | internal/postgres/db/dispatch.sql.go:180-202 | a run in which an expired attempt is reaped and leased again, and recording its late result would make the operation eligible a third time |
| DeliveryLimits.LateResultReopensNode | internal/postgres/db/dispatch.sql.go:15-25 | a late retry recorded over a running attempt makes the operation eligible again exactly when the access still has its version |
| DeliveryLimits.RetireSkipsDelivery | internal/domain/materialize.go:229-250 | with the tables as the planner reads them, a retirement can end APPLIED with the user still on the node if and only if the row was ABSENT and not APPLIED |
| DeliveryWrites.StepKeeps | internal/app/dispatch_operations.go:75-107 | every step of every actor keeps the protocol invariant |
| DeliveryWrites.RunKeeps | internal/app/reconcile_nodes.go:92-131 | the invariant holds in every state of every run |
| DeliveryProgress.RunFull | internal/domain/dispatch.go:82-114 | with full claims nothing is lost and every confirmed PRESENT is on its node, in every state of every run |
| CustomerFits.ApplyFits | internal/domain/apply.go:196-209 | an accepted Apply issues one operation per delivered row and touches exactly the nodes of its operations |
| CustomerFits.SetStateFits | internal/app/set_customer_access_state.go:111-148 | the same for blocking and unblocking, where nodes outside the manifest are marked instead of sent |
| CustomerFits.DeleteFits | internal/app/delete_customer_access.go:77-99 | the same for a deletion, which forces every access of the customer to ABSENT |
| CustomerFits.ExpireFits | internal/domain/expiry.go:45-64 | the same for expiry |
| CustomerFits.AccountFits | internal/postgres/usage.go:362-442 | the same for a usage group that crosses the quota |
| CustomerFits.MaterializeFits | internal/domain/materialize.go:257-278 | the same for materialization: creates, changes, repoints and retirements |
| CustomerRules.CommandSound | internal/app/apply_customer_access.go:59-165 | every command keeps generations unique with the live one latest, periods tiled, thresholds exact and presence limited to ACTIVE customers |
| CustomerRules.ExpireSound | internal/app/expire_customers.go:36-83 | expiry keeps the same |
| CustomerRules.AccountSound | internal/app/pull_usage.go:221-313 | a usage group keeps the same |
| CustomerRules.MaterializeSound | internal/app/materialize_manifest.go:99-165 | materialization keeps the same |
| CustomerRules.ShapeKept | internal/domain/access.go:123-184 | adding the next generation of uncovered targets keeps generations unique and the live one the maximum |
| CustomerRules.PeriodsTileTime | internal/postgres/db/usage.sql.go:279-286 | from the first period on every instant lies in exactly one period, and the lookup finds it |
| CustomerRules.AccountChargesExactly | internal/postgres/db/usage.sql.go:16-23 | a usage group adds its bytes to the one open counter it belongs to and moves nothing else; closed periods take none |
| CustomerRules.ApplyKeepsTotals | internal/postgres/apply.go:281-330 | no Apply changes what was counted; a new period starts at zero on exactly the fleet's nodes |
| CustomerDesired.CommandObeys | internal/domain/desired.go:97-121 | with a materialized topology every command keeps the desired-state rule for every live access |
| CustomerDesired.ExpireObeys | internal/domain/expiry.go:45-64 | expiry keeps the rule |
| CustomerDesired.AccountObeys | internal/domain/usage.go:118-150 | a usage group keeps the rule: reaching the quota revokes exactly the node's live accesses |
| CustomerDesired.MaterializeSettles | internal/domain/materialize.go:120-165 | one materialization establishes the rule, matches every live access to a target and, before expiry, covers every target, from any earlier topology |
| CustomerRepeat.MaterializeIsExact | internal/domain/access.go:123-184 | for an unexpired customer live accesses and targets are in one-to-one correspondence, egress included, and the live generation is the strict maximum |
| CustomerRepeat.MaterializeAgain | internal/domain/materialize.go:100-106 | materializing again on the same side of the expiry plans nothing |
| CustomerRepeat.UpdatesNeeded | internal/domain/materialize.go:154-156 | a row is updated exactly when it is live and not already as prescribed |
| CustomerRepeat.CreatesNeeded | internal/domain/access.go:143-154 | nothing is created exactly when every target is covered |
| CustomerRepeat.ApplyAgain | internal/domain/apply.go:92-101 | an Apply repeated with the same expiry and quota is a no-op that moves only the command number |
| CustomerRepeat.NoOpCreatesNothing | internal/domain/apply.go:160-166 | a no-op plan creates no access |
| CustomerRepeat.NoOpChangesNothing | internal/domain/apply.go:168-169 | a no-op plan changes no access |
| CustomerRepeat.ApplyExhaustion | internal/domain/apply.go:138-169 | an Apply leaves a live access PRESENT on an exhausted node exactly when it was so and out of sync with the topology |
| CommandStream.StreamIsReplaySafe | internal/domain/lifecycle.go:38-49 | any stream of deliveries ends where its committed subsequence alone ends, and that subsequence's numbers strictly increase |
| CommandStream.LateIsIgnored | internal/app/delete_customer_access.go:51-61 | a command numbered at or below the last one changes nothing |
| CommandStream.CommittedIsNew | internal/app/set_customer_access_state.go:42-51 | a committed command is newer than the last one and becomes it |
| PlaneSafety.FanOutIsComplete | internal/app/materialize_manifest.go:55-92 | every ACTIVE or BLOCKED customer before the latest job's cursor, and all of them once it is DONE, match the current topology; before expiry with exactly one live access per target |
| PlaneSafety.DesiredIsTheRule | internal/domain/quota.go:37-55 | for those customers an access is PRESENT only if ACTIVE and unexhausted, and before expiry exactly then |
| PlaneSafety.PresentNeedsActive | internal/domain/desired.go:29-38 | in every reachable state only accesses of ACTIVE customers are PRESENT, and retired ones never |
| PlaneSafety.EntryNodesNeverDrift | internal/domain/manifest_plan.go:219-244 | over all runs every access sits on its target's entry node, removed and revived routes included |
| PlaneSafety.PeriodsAndThresholds | internal/postgres/db/quota_periods.sql.go:15-35 | one open period, every instant in exactly one period, exhausted_at set exactly when total >= quota |
| PlaneSafety.CommandsGrow | internal/postgres/db/customer_entitlements.sql.go:132-140 | the last command number never decreases, deletion included |
| PlaneSafety.LateCommandsChangeNothing | internal/app/apply_customer_access.go:83-92 | once a command is accepted, no command numbered at or below it changes anything again |
| PlaneSafety.TombstoneHolds | internal/postgres/db/lifecycle.sql.go:110-120 | a deleted customer stays deleted until a command above the tombstone's number is accepted |
| PlaneSafety.GraceIsRespected | internal/postgres/db/lifecycle.sql.go:147-168 | no deletion is finalized before the grace of an accepted deletion command has passed |
| PlaneDelivery.StepRefines | internal/postgres/materialize.go:120-144 | every step of the plane is a delivery step or leaves delivery alone |
| PlaneDelivery.RunRefines | internal/postgres/apply.go:334-424 | every run of the plane is a delivery run position by position: equal tables, and every delivery step is taken by the plane step at its position |
| PlaneDelivery.RevocationIsReal | internal/app/dispatch_operations.go:166-203 | a confirmed revocation is real under the real planners |
| PlaneDelivery.DeletedHasNoUsers | internal/postgres/db/lifecycle.sql.go:147-168 | a deleted customer has no user on any node that stayed in the manifest |
| PlaneDelivery.ReconcileGuard | internal/domain/materialize.go:257-278 | under the real planners, an accept that goes through on a staying node proves that no command, expiry, usage group or materialization changed a state or egress there since the claim |
| PlaneDelivery.NoWorkLost | internal/app/apply_customer_access.go:225-268 | under the real planners, while every claim lists all PRESENT accesses, an unconfirmed access has exactly one live operation of its current version |
| PlaneDelivery.PresentIsOnNode | internal/app/reconcile_nodes.go:92-131 | in the same runs a confirmed PRESENT is on its node with its current egress |
| PlaneDelivery.ClaimsAreFull | internal/postgres/db/reconcile.sql.go:157-180 | a claim lists all PRESENT accesses of its node exactly when each is unexpired and unexhausted; the lifecycle filter never bites |
| PlaneDelivery.FilteredIsPending | internal/postgres/db/reconcile.sql.go:157-180 | the filters leave a PRESENT access out only while its customer's expiry is due or the latest job has not passed the customer |
| PlaneDelivery.RowHistory | internal/postgres/db/vpn_accesses.sql.go:145-151 | over every plane run an access keeps its identity, its version only grows, and equal versions mean equal contents |
| PlaneDelivery.TerminalIsFinal | internal/domain/dispatch.go:67-76 | over every plane run a terminal operation is never changed again |
| PlaneDelivery.PayloadIsStable | internal/app/dispatch_operations.go:127-161 | over every plane run all attempts of an operation carry the same payload |
| PlaneDelivery.StrandedBlocksDeletion | internal/postgres/deletion.go:16-58 | once a row of a DELETING customer is stranded, its deletion is never finalized before a newer command is accepted |
| PlaneDelivery.DeletionUnstrands | internal/app/delete_customer_access.go:38-101 | an accepted deletion of a DELETING customer frees all its stranded rows |
| PlaneKeeps.RunKept | internal/postgres/apply.go:183-278 | every run keeps the protocol invariant, a consistent projection and every customer sound and placed |
| FanOut.RunFansOut | internal/postgres/db/materialize.sql.go:120-127 | every run keeps all customers passed by the latest job settled, under any interleaving of commands, deletions, older jobs and crashes |
| Identifiers.AlwaysSupplied | internal/app/apply_customer_access.go:300-344 | fresh identifiers for a transaction always exist |
| Targets.MaxExists | internal/domain/access.go:127-135 | the highest generation of a target is well defined, 0 for none |
| Manifest.ProjectionIsExact | internal/domain/manifest_plan.go:121-162 | after an accepted plan the current nodes, fleets, memberships and bridges are exactly the snapshot |
| Manifest.AcceptedKeeps | internal/postgres/db/manifest.sql.go:309-319 | an accepted plan keeps the projection consistent: references current, no shared pair |
| Manifest.HistoryIsMonotone | internal/domain/manifest_plan.go:171-211 | over every sequence of submissions revisions strictly increase with each change, fleets never vanish and pairs never change |
| Manifest.ResubmissionIsDecided | internal/domain/manifest_plan.go:171-186 | resubmitting the accepted snapshot is idempotent, any other one under its revision is a conflict |
| ManifestDocument.ValidateNodes | internal/domain/manifest.go:150-171 | succeeds exactly on distinct node ids and returns them |
| ManifestDocument.ValidateMembers | internal/domain/manifest.go:337-353 | succeeds exactly on distinct, known members and returns them |
| ManifestDocument.ValidateBridges | internal/domain/manifest.go:371-414 | reports nothing exactly when routing keys and pairs are distinct and both ends are different members |
| ManifestDocument.Validate | internal/domain/manifest.go:311-333 | reports nothing exactly on sound documents |
| ManifestDocument.SoundIsValid | internal/domain/manifest.go:97-122 | a sound document states a valid snapshot |
| ManifestDocument.Canonicalize | internal/domain/manifest_digest.go:112-164 | the loops and sorts give the canonical form of a sound document |
| Sorting.SortBy | internal/domain/manifest_digest.go:167-190 | an insertion sort gives a sorted permutation; with distinct ids, the only one |
| ManifestDocument.CanonicalDecidesEquality | internal/domain/manifest_digest.go:99-190 | canonical forms are equal exactly when schema, nodes, fleets, members and bridges are, whatever the list order |
| TopologyStore.PartialWriteKeepsPairs | internal/postgres/manifest.go:218-238 | at every point of the retire-then-upsert write no two current bridges of a fleet share a pair |
| TopologyStore.UpsertFirstBreaksPairs | internal/postgres/manifest.go:114-126 | upserting a key before its twin is retired would break the pair index |
| TopologyStore.FlattenMembers | internal/domain/manifest_plan.go:258-268 | lists exactly the snapshot's memberships |
| TopologyStore.FlattenBridges | internal/domain/manifest_plan.go:270-292 | lists exactly the snapshot's bridge routes |
| TopologyStore.CurrentWithout | internal/domain/manifest_plan.go:297-331 | lists exactly the current rows the snapshot leaves out |
| TopologyStore.Store.PlanManifest | internal/domain/manifest_plan.go:121-162 | gives the specified verdict, and an accepted plan lists exactly what to write |
| TopologyStore.Store.UpsertBridges | internal/postgres/manifest.go:223-235 | reaches the specified rows with the pair index intact after every row |
| TopologyStore.Store.WritePlan | internal/postgres/manifest.go:126-148 | leaves exactly the projected tables and a job for the revision |
| TopologyStore.Store.Apply | internal/app/apply_fleet_manifest.go:57-108 | validates, plans and writes; a fault, refusal or repetition writes nothing |
| UsageSafety.RegisteredIsNew | internal/postgres/usage.go:283-331 | registration returns exactly the items not registered before, in order |
| UsageSafety.DuplicateIsCountedTwice | internal/postgres/usage.go:317-330 | two new items with one id are both accrued though one row is registered |
| UsageSafety.MarksTotal | internal/domain/usage.go:125-133 | a chunk adds to each period the bytes of its new items, less what pruned rows of those items had added |
| UsageSafety.ChargeKeepsBooks | internal/postgres/usage.go:362-373 | a group transaction keeps every counter equal to the sum of the items marked APPLIED for its period |
| UsageSafety.RepeatIsFree | internal/app/pull_usage.go:267-275 | charging a chunk again changes no counter and no mark |
| UsageRuns.NothingAcknowledgedEarly | internal/app/pull_usage.go:119-149 | neither the stored cursor nor the agent ever passes a batch with an unregistered item |
| UsageRuns.CountedAtMostOnce | internal/app/pull_usage.go:153-176 | without pruning every counter is the sum over the registry entries marked APPLIED, for any pullers, crashes, repetitions and new spools |
| UsageRuns.FirstMarkStands | internal/postgres/db/usage.sql.go:417-427 | without pruning the first result, period and bytes of an item never change |
| UsagePruning.PruningIsSafe | internal/postgres/db/usage.sql.go:312-325 | with one puller per node and no pruned row of a newer spool than the stored cursor, pruning never allows a second accrual, in any run |
| UsagePruning.PruningIsExact | internal/postgres/usage.go:175-188 | in every state of such a run, pruning a prunable row that has added bytes is harmless under all continuations if and only if its batch is below the stored cursor, or its spool was replaced and no puller still holds it |
| UsageExamples.CountedTwice | internal/postgres/db/usage.sql.go:312-325 | a run with one puller in which the query allows a prune after which one byte is counted as two |
| UsagePruning.NewerSpoolIsDangerous | internal/postgres/db/usage.sql.go:312-325 | while the agent keeps the row's spool, pruning it is harmless under all continuations if and only if its spool is no newer than the stored one |
| UsageSafety.SecondAccrualIsExact | internal/postgres/db/usage.sql.go:312-325 | a charge leaves a counter right if and only if no item of the chunk had its row pruned after adding to that period |
| UsageStore.Store.RegisterProcessed | internal/postgres/usage.go:283-331 | the insert and filter loops return the specified items |
| UsageStore.Store.Charge | internal/app/pull_usage.go:257-304 | one group transaction reaches the specified ledger and keeps the books |
| UsageStore.Store.ConsumeBatch | internal/app/pull_usage.go:153-176 | afterwards every item of the batch is registered |
| UsageStore.Store.Consume | internal/app/pull_usage.go:119-149 | whatever the agent answers, every batch is fully registered or rightly passed over, and the stored cursor only ever names a registered one; for an ascending answer of one spool it ends at the last batch |
| Metering.TotalsAreLedgers | internal/app/pull_usage.go:221-313 | over every run of pullers and plane, the total a period holds for a node is the sum of the items the node registered as APPLIED for that period, each once |
| Metering.ExhaustionIsLedger | internal/domain/usage.go:118-150 | a node is marked exhausted in the open period exactly when the registered bytes of that period have reached the quota |
| Metering.RunMetered | internal/postgres/usage.go:362-442 | every run keeps the plane's invariants, every node's books, and counters equal to the customer's totals |
| Inventory.CompareInventory | internal/app/inventory.go:61-114 | the counts are the cardinalities of the set differences, and a usable observation is drifted exactly when the user sets differ |
| Inventory.NoDriftIsEqual | internal/app/inventory.go:51-51 | no drift means equal user sets, and conversely |
| PlannerLoops.TargetsOf | internal/domain/access.go:32-62 | lists every target of the topology exactly once |
| PlannerLoops.PlanAccessSet | internal/domain/access.go:123-184 | splits the live accesses into in sync, wrong egress and gone, and creates exactly the missing targets with the next generation |
| PlanBuilder.ChangesInSync | internal/domain/desired.go:97-121 | changes exactly the accesses in sync whose desired state differs, with the next version |
| ChangeLoops.PlanForceAbsent | internal/domain/lifecycle.go:54-68 | forces every access to ABSENT with the next version |
| ChangeLoops.RecomputeExhausted | internal/domain/quota.go:37-55 | changes exactly the counters whose exhausted_at is wrong; afterwards it is set exactly when the total reaches the quota |
| ChangeLoops.GroupUsageItems | internal/domain/usage.go:185-207 | one group per customer and node with exactly that owner's items |
| ChangeLoops.ForKeySplits | internal/domain/usage.go:186-190 | a group and the remaining items make up the batch as multisets |
| ChangeLoops.ForKeyDistinct | internal/domain/usage.go:192-198 | distinct accounting ids stay distinct in every group |
| PlanBuilder.NewAccesses | internal/app/materialize_manifest.go:180-197 | the new rows are exactly the missing targets' accesses |
| PlanBuilder.PlanRepoints | internal/domain/materialize.go:200-225 | repoints exactly the accesses on the wrong egress |
| PlanBuilder.PlanRetire | internal/domain/materialize.go:229-250 | retires exactly the accesses without a target, issuing an operation only for a PRESENT one on a live node |
| PlanBuilder.TouchedNodes | internal/domain/materialize.go:257-278 | collects exactly the nodes of PRESENT creates and delivered updates |
| PlanBuilder.BuildWrite | internal/app/materialize_manifest.go:169-230 | the collected operations and nodes are the specified write |
| PlanBuilder.Materialize | internal/domain/materialize.go:120-165 | from the lists read to the specified materialization write, and whether nothing is planned |
| PlanBuilder.Apply | internal/domain/apply.go:113-178 | from the lists read to the specified Apply write, and whether nothing is planned |
| PlanBuilder.Restricted | internal/app/set_customer_access_state.go:124-147 | splits the changes into sent and marked ones as specified |
| CustomerStore.Store.ClosePeriods | internal/postgres/db/quota_periods.sql.go:15-20 | closes exactly the open periods at the given time |
| CustomerStore.Store.OpenNewPeriod | internal/postgres/apply.go:281-294 | closes the open period and opens one with a zero counter per node |
| CustomerStore.Store.RequotaOpen | internal/postgres/apply.go:296-330 | sets the quota and every exhausted_at as specified, and reports whether anything differed |
| CustomerStore.Store.Apply | internal/app/apply_customer_access.go:59-165 | an Apply ends and changes the customer's rows exactly as specified, errors included |
| CustomerStore.Store.SetState | internal/app/set_customer_access_state.go:35-109 | the same for blocking and unblocking |
| CustomerStore.Store.Delete | internal/app/delete_customer_access.go:38-101 | the same for a deletion, replayed ones and the tombstone included |
| CustomerStore.Store.Expire | internal/app/expire_customers.go:36-83 | the same for expiry |
| CustomerStore.Store.Account | internal/app/pull_usage.go:246-304 | the same for one usage group |
| CustomerStore.Store.Materialize | internal/app/materialize_manifest.go:99-165 | the same for one customer of a materialization job |
| CustomerStore.Store.MissingCounters | internal/domain/materialize.go:172-194 | the fleet's nodes without a counter, none once expired |
| Outbox.Store.ReapExpired | internal/postgres/db/dispatch.sql.go:180-202 | requeues or supersedes at most the limit of expired operations, oldest leases first, all of them when fewer |
| Outbox.Store.LeaseNext | internal/postgres/db/dispatch.sql.go:54-112 | leases the eligible operation first by next attempt and id, or nothing when none is eligible |
| Outbox.Store.Record | internal/app/dispatch_operations.go:166-203 | writes the result transaction and reports whether the version still stood |
| Outbox.Store.ClaimNode | internal/postgres/reconcile.go:27-95 | claims the claimable node attempted longest ago, never attempted first, with its user set, or nothing when none is claimable |
| Outbox.Store.AcceptReconcile | internal/postgres/reconcile.go:109-160 | all three writes when the revision stands, none otherwise |
| Outbox.Store.Release | internal/postgres/db/reconcile.sql.go:255-261 | clears only the owner's own lease |
| Outbox.Store.Commit | internal/postgres/materialize.go:120-266 | one writer transaction reaches the specified tables, or changes nothing when a touched node is missing |
| Outbox.Store.FinalizeNext | internal/postgres/deletion.go:16-58 | finalizes a ready customer's deletion, or reports that none is ready |

## Left out

- TopologyStore.Store.Apply: does not report which of several faults comes first across nodes and fleets, nor the audit row; within one list the order of the checks is kept.
- ManifestDocument.Validate: leaves out size limits, string formats and the positive-revision check; only uniqueness and references decide.
- ManifestDocument.ValidateNodes: leaves out the format and size checks of a node; its configuration is one opaque string.
- ManifestDocument.ValidateBridges: leaves out the format of a routing key.
- PlannerLoops.PlanAccessSet: list order is not modelled; the source sorts plan lists so that rows are locked and written in one order.
- PlannerLoops.TargetsOf: the order of the list, as above.
- TopologyStore.FlattenMembers: the order of the list, as above.
- TopologyStore.FlattenBridges: the order of the list, as above.
- TopologyStore.CurrentWithout: the order of the list, as above.
- ChangeLoops.GroupUsageItems: the order of the groups, as above.
- UsageStore.Store.Charge: takes the period lookup's result as an input, because the class holds one node's tables; `Metering` resolves it from the customer's periods.
- UsageStore.Store.ConsumeBatch: the same.
- CustomerStore.Store.Account: takes the counted bytes as an input, because the class holds one customer's rows; `Metering` takes them from the registry.
- Outbox.Store.ClaimNode: takes the accesses that pass the expiry and quota filters as an input, because the class holds no entitlements; `Plane.Admitted` computes them.
- Outbox.Store.FinalizeNext: leaves out the order of the candidates and the accounting rows a finalized deletion removes.
- Metering: follows customers whose deletion is not finalized during the run.
- Usage counters are unbounded; the source keeps totals below 2^64.
- The quarantine table, audit records, logging, metrics and the alerts of failed calls.
- `flow`, public configuration, credentials and their encryption, gRPC, TLS and configuration.
- READ COMMITTED snapshots and row locks: each transaction is one atomic step, and SKIP LOCKED becomes a free choice among the eligible rows.
- PlaneSafety.DesiredIsTheRule: claimed for customers the latest job has passed, because a pending materialization suspends the rule (see Findings).
- The worker loops around the transactions (ProcessNext of the dispatcher, the reconciler and the puller) appear as the free interleaving of their steps.
- MaterializeManifest.ProcessNext spans every customer and is modelled on values (`Plane.Processed`), not as a class.
- The lease and status of a materialization job: any worker may process any unfinished job, which covers lease loss and takeover.
- Backoff delays are arbitrary numbers; leases of usage pullers are dropped, since any number of pullers may run where a theorem does not ask for one.
