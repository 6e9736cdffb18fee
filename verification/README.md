# A verified model of the UniFi change-set server

UniFi controllers have no commit and no dry run. This server puts a transaction layer over single REST
writes: it captures a pre-image, checks a plan locally, takes a second person's approval, refuses a plan the
controller has moved away from, applies the mutations one at a time, rolls back in reverse when one fails,
and re-reads what it wrote. It also has to keep its answers inside a byte budget. This project models that
layer in Dafny and proves what it promises.

`dafny verify dfyconfig.toml` checks the whole project.

## What is modelled

**The controller and its client** (`JsonValues`, `ResourceKinds`, `Worlds`, `ControllerClient`). A controller
is a map from id to a kind and a JSON object. `Worlds` says what each accepted call does to it as a partial
function. The class `Controller` holds that map as a field, may fail any REST call by a script it is given,
and carries the client's change-set operations as methods proved against those functions. JSON objects are
maps, because the server compares objects without regard to key order.

**The apply engine** (`Outcomes`, `ApplyEngine`, `Footprints`, `Replays`, `RollbackProofs`, `RollbackSuccess`,
`CheckedPlans`, `Captures`, `IdentityProofs`). The forward loop, the reverse replay and the sequential apply are
loops over a mutable controller. Their contracts say what landed, what was asked of the controller and in which
order. `Replays` says what a list of failed undos means. The two rollback modules say when a rollback goes through
and when the store is given back.

**The local checks** (`WritableFieldChecks`, `ZoneDeletions`, `ZoneExactness`, `ZoneReferences`). The
zone-deletion check is an abstract executor: it folds the plan over the pre-image without touching the
controller. It is proved to refuse exactly the plans whose real execution contradicts itself.

**The stored plan** (`StoredPlans`, `ReloadProofs`). Serialization of the plan with its pre-image, reading
back, and every decision taken from a plan read back.

**The lifecycle** (`Drafts`, `Lifecycle`, `LifecycleProofs`, `LifecycleTheorems`, `LifecycleProgress`).
Drafting, staging, approving, claiming, the deadline, starting and settling are steps between two awaits of
any number of concurrent calls. One more step ends the process and starts the next over the same state file, perhaps on
another transport: records survive; drafts, calls, the lock and the recorder's memory do not. A process
authenticates every request or none (rustunifimcp/src/main.rs:728-738,
rustunifimcp/src/http_transport.rs:51-87). Safety is proved over every interleaving from one invariant, and
`LifecycleProgress` says exactly when drafting, staging, approving and applying go through.

**Bounded answers** (`Rendering`, `RenderedText`, `Shrinking`, `Paging`, `Searching`, `QueryStrings`). The
pretty-printed text of a JSON value and its size, the binary search for the longest prefix that fits, paging,
the search scan and the query string.

## What was assumed

- Ids are unique across kinds, because the store has one entry per id. Created ids were never used before,
  unless a re-created body gets its old `_id` back (`Config.reinstates`). Nothing else writes during an apply.
- A write that reports failure changed nothing. The client parses a create's response only after the POST
  (rustunifimcp-core/src/client.rs:579-609), so a create that landed and answered with an unreadable body
  is outside the assumption.
- A PUT stores the body it was sent and supplies only a missing `_id`. A POST assigns the `_id`.
  `Config.guardsZones` is a controller that refuses a write naming an absent zone and the removal of a zone
  in use. Every theorem holds for both values of both flags unless it says otherwise.
- The coordinator library is not part of this model. Its contract is taken from the comments and tests
  around it: a claim moves `Approved` to `Applying` atomically, a digest is fixed when a set is inserted, an
  insert refuses a known id and a second pending set of one owner on one controller, only a human approves.
- An evidence recorder starts each process empty. Token scopes, lab mode and the approval window are the same
  in every process, and there is a state file: without one a restart is simply a first start.
- Digests are injective, so a digest is represented by the content it covers.

## What the proofs found

- **A rollback can report success and still lose a resource.** Replaying a delete re-creates the body with
  a POST. If the controller gives it a new id, the store is not restored, yet nothing is reported.
  `RollbackProofs.RollbackRestores` gives the exact condition: the store is restored if and only if the
  controller reinstates ids or nothing that landed was a delete. `RollbackSuccess.DeletedNetworkStaysLost` is
  the smallest case, one deleted network.
- **A rollback goes through or not for a reason that can be read off the plan and its pre-image**, on every
  controller (`RollbackSuccess.RollbackGoesThroughIff`). It is stuck exactly when ids are not reinstated and one
  resource was updated and then deleted, or when the controller guards zones and a body to be put back names a
  zone the plan had deleted by then (anywhere in the plan, if ids are not reinstated).
  `RollbackSuccess.UpdatedThenDeletedCannotBeUndone` and `RollbackSuccess.CrossingCannotBeUndone` are an input
  for each.
- **Stepwise inversion is not what rollback does.** When two mutations touch one id, every undo writes the
  original value, so the invariant is `RollbackProofs.Near`: each id holds what the remaining prefix left
  or its original value.
- **The list of failed undos is exact.** It names the undos that did not happen and no others, and the first
  update of a resource, if not listed, reads as recorded again (`Replays.UnlistedUpdateIsBack`).
- **Naming one resource twice is never confirmed.** Both writes land, and verification still looks for the first
  name: the plan ends `AppliedUnverified` (`ApplyEngine.ApplyTwoNames`).
- **Two-person control holds, restarts included.** Outside lab mode no principal both stages and approves a
  set (`LifecycleTheorems.NoSelfApproval`). It rests on three things together: a token may not hold both
  scopes, an owner may not approve, and a caller without a token never counts as human.
- **A restored set is approved without an attested digest, if a recorder starts each process empty.** That is
  an assumption about a library outside this model; this is its consequence. An approval carries the digest of
  the stored plan when the approving process staged the set, and none when an earlier one did; it never carries
  another (`LifecycleTheorems.EveryApprovalAttestsTheStoredPlan`). `LifecycleTheorems.RestoredSetIsUnattested`
  is such a run, from draft to restart to approval.
- **Where the controller guards zones, the zone check decides.** An otherwise checked plan passes it if and only
  if the controller takes the whole plan (`CheckedPlans.CheckDecidesRun`).
- **Shrinking can overwrite the array it cuts.** The comment says existing keys are never overwritten
  (rustunifimcp/src/server/mod.rs:107-118), but an array under the key `truncation`, `partial` or, with an
  offset present, `next_offset` is replaced by the marker. The code is followed; `Shrinking.CutKeeps` states
  exactly when the array survives. This is a fact about the function on arbitrary values: no answer of the
  server's own tools is known to carry an array under one of these keys.
- **A collection of exactly 5000 items is reported as capped**, although every item was scanned
  (`Searching.ScanAndFilter`).
- **The zone check looks at no zone's own pre-image.** That zones name no zone is sufficient for it to be
  exact. `ZoneExactness.ZoneNamingAZoneEscapes` is an input that shows the hypothesis cannot simply be dropped;
  it does not show it to be necessary. No controller is known to store a zone with a `source` or `destination`.
- **One oversized item stalls the cursor.** `Paging.CursorAdvancesIff` says exactly when a cursor moves, and
  `Paging.OversizedItemStops` what a caller then reads.

## Model

| member | source | states |
|---|---|---|
| ResourceKinds.ParseInvertsName | rustunifimcp-core/src/model/mod.rs:49-81 | A staged name parses to a kind exactly when it is that kind's snake_case name; no two kinds share one |
| ResourceKinds.MergedKinds | rustunifimcp-core/src/changeset/validate.rs:320-330 | An update is merged for firewall policies, firewall zones and traffic routes, and for no other kind |
| JsonValues.MergeIsKeyByKey | rustunifimcp-core/src/client.rs:654-675 | A merge takes every staged key but `_id` and `site_id` and keeps the live value of every other key; it does nothing unless both sides are objects |
| JsonValues.NamesAreCarried | rustunifimcp-core/src/changeset/validate.rs:357-363 | A resource names exactly the zone strings under `zone_id` of its `source` and its `destination` |
| StagedPlans.FoundIffPresent | rustunifimcp-core/src/changeset/preimage.rs:183-195 | A pre-image lookup finds something exactly when some entry carries the id |
| StagedPlans.FoundCarriesId | rustunifimcp-core/src/changeset/preimage.rs:183-195 | What it finds is one of the entries and carries the id asked for, so it is never null |
| Worlds.UpdateIsKeyByKey | rustunifimcp-core/src/client.rs:654-695 | What an accepted update leaves under every key but `_id`: the staged or kept value on a merged kind, the staged body alone on every other |
| Worlds.UnstagedKeysAreKept | rustunifimcp-core/src/client.rs:654-675 | An accepted update of a policy, zone or traffic route leaves every stored key it does not stage, and the managed ones, at the old value |
| ControllerClient.Controller.ApplyMutation | rustunifimcp-core/src/client.rs:558-718 | An accepted create adds one resource under a new id, an update changes one resource key by key and keeps its kind, a delete removes one, and everything else stays; a refused one, every restore and every device update included, changes nothing |
| ControllerClient.Controller.ApplyUpdate | rustunifimcp-core/src/client.rs:614-695 | An update is merged over the live resource on Private v2 and sent as staged elsewhere; device updates and missing resources are refused without a write |
| ControllerClient.Controller.MergeOver | rustunifimcp-core/src/client.rs:656-672 | For every key: the staged value if it was staged and is neither `_id` nor `site_id`, the live value otherwise; nothing is merged unless both sides are objects |
| ControllerClient.Controller.RollbackMutation | rustunifimcp-core/src/client.rs:720-808 | A create is undone by deleting its recorded id, an update by putting the prior value, a delete by posting it; without the recorded id or value, or on failure, nothing changes |
| ControllerClient.Controller.PreimageMatches | rustunifimcp-core/src/client.rs:810-845 | Answers true if and only if every addressed resource is stored under its kind with exactly the recorded body; never writes |
| ControllerClient.Controller.FetchResource | rustunifimcp-core/src/client.rs:847-907 | Returns the stored body, or nothing for an id that is absent or of another kind; an unknown kind is an error |
| ControllerClient.Controller.VerifyApplied | rustunifimcp-core/src/client.rs:909-1009 | Passes only when every recorded create is stored under its kind, every updated id is, with the staged name if there is one, and no deleted id is; on a reachable controller, exactly then |
| Captures.CapturePreimage | rustunifimcp-core/src/changeset/preimage.rs:50-154 | Captures the live body of every addressed resource; fails if one is missing or unreadable, and on a reachable controller only then |
| Captures.CapturedInOrder | rustunifimcp-core/src/changeset/preimage.rs:50-154 | In staging order an update or delete adds the live body of its resource; a create or restore adds nothing |
| Captures.CapturePassesGate | rustunifimcp-core/src/client.rs:810-845 | A capture applied with no drift in between always passes the staleness gate |
| RollbackProofs.UndoStep | rustunifimcp-core/src/changeset/rollback.rs:26-55 | One undo carries the invariant back over one mutation, whatever earlier mutations did to the same id |
| RollbackProofs.ReplayStaysNear | rustunifimcp-core/src/changeset/rollback.rs:26-55 | A completed reverse replay from any state near the applied one ends near the original: same ids, each at its original value |
| RollbackProofs.RunKeepsLost | rustunifimcp-core/src/client.rs:696-711 | Where ids are not reinstated, an id the plan deletes is gone after the plan, whatever else it does |
| RollbackProofs.RollbackRestores | rustunifimcp-core/src/changeset/rollback.rs:18-62 | A rollback that reports success restores the whole store, created resources gone, if and only if the controller reinstates ids or what landed has no delete |
| RollbackSuccess.RollbackGoesThroughIff | rustunifimcp-core/src/changeset/rollback.rs:26-61 | On every controller, with the gate passed and, where zones are guarded, references intact: every undo of what landed is accepted if and only if no resource was updated and then deleted without ids coming back, and no guarded body to be put back names a zone deleted by then |
| RollbackSuccess.RollbackGivesBackIff | rustunifimcp-core/src/changeset/rollback.rs:18-62 | So rollback both reports success and gives the whole store back if and only if nothing landed was a delete, or ids are reinstated and no guarded body to be put back names a zone deleted by then |
| RollbackSuccess.CrossingCannotBeUndone | rustunifimcp-core/src/changeset/rollback.rs:28-53 | Update a policy off a zone, delete the zone, update the policy again: undoing the last write names a zone not yet back, and a guarding controller refuses it |
| RollbackSuccess.UpdatedThenDeletedCannotBeUndone | rustunifimcp-core/src/changeset/rollback.rs:28-53 | A network updated and then deleted, on a controller that hands out new ids: the replay fails at the update |
| RollbackSuccess.DeletedNetworkStaysLost | rustunifimcp-core/src/client.rs:774-806 | One deleted network on a controller that hands out new ids: the undo is accepted and the store is not the one before |
| Replays.ReplayedMeansUndo | rustunifimcp-core/src/changeset/rollback.rs:26-61 | The failures list is empty only if every undo was accepted in its turn, and on a reachable controller exactly then |
| Replays.UnlistedUpdateIsBack | rustunifimcp-core/src/changeset/rollback.rs:43-53 | What an operator may conclude from the list: the first update of a resource, if not listed, was put back and reads as recorded, whatever else failed |
| ApplyEngine.UndoOne | rustunifimcp-core/src/changeset/rollback.rs:28-53 | One undo uses its own pre-image value and its own created id; it happened or it left the controller alone, and a restore is never attempted |
| ApplyEngine.RollbackToPreimage | rustunifimcp-core/src/changeset/rollback.rs:18-62 | Undoes last to first and carries on past failures; the failures name, last first and none twice, exactly the undos that did not happen, each refused in the state where it was tried if no call is lost; every other was accepted; nothing is touched but what the landed mutations address or created |
| ApplyEngine.RollbackTouchesWhatLanded | rustunifimcp-core/src/changeset/rollback.rs:28-53 | The undos asked for are every landed mutation once, in reverse, each with its own pre-image value and its own created id |
| ApplyEngine.ApplyLoop | rustunifimcp-core/src/changeset/apply.rs:83-105 | Applies in staging order and stops at the first refusal; what landed is a run of that prefix and each created id is recorded under its own index |
| ApplyEngine.UndoLanded | rustunifimcp-core/src/changeset/apply.rs:121-149 | The partial arm undoes exactly the landed prefix and lists exactly the undos that did not happen; with none listed the store is the one before the apply exactly under the rollback condition; on a reachable controller none is listed exactly when the plan is not stuck; unaddressed resources are untouched |
| ApplyEngine.Halted | rustunifimcp-core/src/changeset/apply.rs:121-149 | A halted plan is split, in order, into the landed prefix, the one mutation at its end that failed, and what was never attempted; `failed` is the last two, and the rollback failures are passed on |
| ApplyEngine.ApplySequentially | rustunifimcp-core/src/changeset/apply.rs:54-149 | For any failure script: every mutation is accounted for once and in order; a refused gate writes nothing; `Applied` means every update is stored with its staged name, every delete gone and every create there; a `Partial` was not stuck and restored the store exactly when it could; the rollback failures are exactly the undos that did not happen; no outcome changes a resource the plan does not address; a checked plan on a reachable controller ends `Applied` |
| ApplyEngine.TwoNamesNeverLand | rustunifimcp-core/src/client.rs:949-976 | No state of a controller confirms two different names for one resource |
| ApplyEngine.ApplyTwoNames | rustunifimcp-core/src/changeset/apply.rs:107-119 | So a plan that names one resource twice, taken whole by a reachable controller, ends `AppliedUnverified` |
| ZoneDeletions.CheckZoneDeletions | rustunifimcp-core/src/changeset/validate.rs:396-467 | The loop over live values, created bodies and deleted zones gives the verdict that the exactness and justification theorems are about, error and zone included |
| ZoneDeletions.ScanForZone | rustunifimcp-core/src/changeset/validate.rs:445-456 | Finds a zone exactly when some projected or created resource names it on either side |
| ZoneDeletions.Overlay | rustunifimcp-core/src/changeset/validate.rs:344-355 | The check folds bodies as apply does: for every key the staged value unless it is managed, the one it had otherwise, on every pair of JSON values |
| ZoneDeletions.DeletedZoneIsCarried | rustunifimcp-core/src/changeset/validate.rs:470-490 | The zone a refused write is blamed for is a deleted one the body carries, by its source if its source carries one; none is named exactly when it carries none |
| ZoneDeletions.VerdictIsJustified | rustunifimcp-core/src/changeset/validate.rs:396-467 | A plan that deletes no zone passes; a refusal belongs to one mutation, every one before it passed, and the zone named is the one it deletes while something carries it, or a zone deleted before it that its body or its merged result carries |
| ZoneExactness.NamedIffIntersects | rustunifimcp-core/src/changeset/validate.rs:470-490 | A write is refused for a deleted zone exactly when one of the zones it names has been deleted |
| ZoneExactness.UpdatePredicted | rustunifimcp-core/src/client.rs:654-695 | After an update, what the check projects and what the controller stores are the same resource up to the `_id` the controller fills in |
| ZoneExactness.ZoneStillNamed | rustunifimcp-core/src/changeset/validate.rs:445-456 | At any step, the check sees a zone still named exactly when a touched or created resource on the controller names it at that moment |
| ZoneExactness.PrefixExact | rustunifimcp-core/src/changeset/validate.rs:416-464 | Prediction refines execution: after every applied prefix the check is still going if and only if nothing clashed so far, and its projection is the controller's state on everything touched |
| ZoneExactness.ZoneCheckExact | rustunifimcp-core/src/changeset/validate.rs:366-467 | The check passes if and only if the real execution never deletes a zone something touched still names and never writes a resource naming a deleted zone; early exit included |
| ZoneExactness.ZoneNamingAZoneEscapes | rustunifimcp-core/src/changeset/validate.rs:410-412 | A zone that names itself passes the check and clashes on the controller, so the hypothesis that zones name no zone cannot simply be dropped |
| ZoneExactness.GuardedRunPassesCheck | rustunifimcp-core/src/changeset/validate.rs:369-376 | On a controller that refuses dangling and in-use zone changes, every plan the controller takes whole passes the check: it refuses nothing such a controller accepts |
| CheckedPlans.CheckedPlanRuns | rustunifimcp-core/src/changeset/apply.rs:86-120 | Whatever prefix of a checked plan has landed, the controller accepts the next mutation; once all have, verification finds each of them |
| CheckedPlans.CheckedPlanCompletes | rustunifimcp-core/src/changeset/apply.rs:86-105 | A checked plan is accepted to the end on either kind of controller |
| CheckedPlans.CheckDecidesRun | rustunifimcp-core/src/changeset/validate.rs:366-467 | On a controller that guards zones an otherwise checked plan passes the zone check if and only if the controller takes all of it |
| WritableFieldChecks.CheckWritableFields | rustunifimcp-core/src/changeset/validate.rs:112-157 | Accepts exactly the plans whose every mutation names a writable kind and an object of allowed fields; otherwise names what is wrong with the first that does not |
| IdentityProofs.UpdateKeepsIdentityIff | rustunifimcp-core/src/client.rs:652-692 | An accepted update leaves every body carrying its own id exactly when the surface merges or the body leaves `_id` alone or repeats it |
| IdentityProofs.AcceptedRunKeepsIdentity | rustunifimcp-core/src/changeset/validate.rs:14-29 | After any prefix of a writable plan every body carries its own id, and a known id keeps its kind or is gone for good |
| ZoneReferences.FromZoneList | rustunifimcp-core/src/changeset/validate.rs:213-248 | Indexes exactly the `_id`s and exactly the external ids listed, each external id for the last entry that carries it, or fails at the first entry without an `_id` |
| ZoneReferences.AllRefsAre | rustunifimcp-core/src/changeset/validate.rs:283-305 | The references of a plan are exactly the zones the bodies of its creates and updates carry on either side |
| ZoneReferences.AllRefsInOrder | rustunifimcp-core/src/changeset/validate.rs:283-305 | They come in staging order, source before destination; deletes and restores add none |
| ZoneReferences.ReferencedZoneIds | rustunifimcp-core/src/changeset/validate.rs:283-305 | Collects the first uses of every zone the staged bodies name |
| ZoneReferences.FirstUsesKeepsOrder | rustunifimcp-core/src/changeset/validate.rs:277-282 | That collection has every id named, none twice, and keeps first-use order |
| ZoneReferences.CheckZoneReferences | rustunifimcp-core/src/changeset/validate.rs:501-542 | Passes if and only if every zone a create or update carries is an `_id` on the list; otherwise names the first in staging order that is not, and the id to use when it is an external id |
| ZoneReferences.ValidateReferences | rustunifimcp/src/server/mod.rs:1740-1785 | Skipping the fetch when nothing is collected never changes the verdict: it passes exactly when every collected id is on a readable list, or there is none |
| StoredPlans.MutationRoundTrips | rustunifimcp-core/src/changeset/preimage.rs:198-233 | Every mutation reads back as itself |
| StoredPlans.ActionRoundTrips | rustunifimcp-core/src/changeset/record.rs:27-39 | A stored action reads back unchanged if and only if its pre-image is not a bare null |
| StoredPlans.ActionReadsAs | rustunifimcp-core/src/changeset/record.rs:27-39 | A JSON value reads as a stored action exactly when it is an object with no key but `mutation` and `preimage`, the first an object whose one key is the variant over that variant's fields, the second the pre-image unless null |
| StoredPlans.RecordedIsNeverNull | rustunifimcp-core/src/changeset/record.rs:46-56 | What the plan records for a mutation is never that null |
| StoredPlans.StoredPlanRoundTrips | rustunifimcp-core/src/changeset/record.rs:41-91 | Every stored plan reads back as the same mutations in the same order |
| StoredPlans.NeverAShorterPlan | rustunifimcp-core/src/changeset/record.rs:58-79 | Reading is all or nothing: it succeeds exactly when every entry is an action, keeps their number, and otherwise names the first that is not |
| StoredPlans.ReloadedPreimageAgrees | rustunifimcp-core/src/changeset/record.rs:93-105 | The reloaded pre-image agrees with the original on every addressed id and holds nothing else |
| ReloadProofs.ReloadedPlanDecidesAlike | rustunifimcp-core/src/changeset/record.rs:93-105 | From a reloaded plan the staleness verdict, the zone verdict and every rollback value are the original's, in every state of the controller |
| ReloadProofs.ReloadedUndoesAlike | rustunifimcp-core/src/changeset/record.rs:93-105 | A rollback replayed from a reloaded plan leaves the controller exactly as the original would |
| Drafts.HoldingStaysTidy | rustunifimcp/src/server/mod.rs:659-693 | At most 32 drafts, at most one per owner and controller, through every sweep and hold |
| Drafts.SweptKeepsTheYoung | rustunifimcp/src/server/mod.rs:659-675 | A sweep keeps exactly the drafts whose window is open, each as it was |
| Drafts.DraftBook.Hold | rustunifimcp/src/server/mod.rs:659-693 | Leaves every draft inside its window as it was and drops every other; holds the new one exactly when its owner has none left on that controller and fewer than 32 are left; each refusal is justified by the map |
| Drafts.DraftBook.Lookup | rustunifimcp/src/server/mod.rs:702-720 | Returns a draft exactly to its own controller and inside the window; one found past it is forgotten, nothing else changes |
| Drafts.DraftBook.Release | rustunifimcp/src/server/mod.rs:723-727 | Forgets one id and keeps the map tidy |
| LifecycleProofs.StepKeeps | rustunifimcp/src/server/mod.rs:1467-2232 | Every step of every call keeps the lifecycle invariant |
| LifecycleProofs.RestartKeeps | rustunifimcp/src/changeset_state.rs:97-134 | A restart over the same state file keeps the invariant, whatever was in flight |
| LifecycleProofs.ReachableInv | rustunifimcp/src/server/mod.rs:1373-2232 | Every state any interleaving of any callers and restarts can reach satisfies it |
| LifecycleTheorems.EveryApprovalAttestsTheStoredPlan | rustunifimcp/src/server/mod.rs:1592-1628 | Every approval ever emitted covers the stored plan, which never changes afterwards, agrees with the digest its caller named, falls inside the window and is the only one of its set; the recorder attests exactly the stored digest if the approving process staged the set, and nothing if an earlier one did |
| LifecycleTheorems.RestoredSetIsUnattested | rustunifimcp/src/changeset_state.rs:97-134 | Staged and proposed in one process, approved by a second human in the next, at any moment of the window: the approval goes through with no attested digest, under the assumption that the recorder starts empty |
| LifecycleTheorems.ScopesHold | rustunifimcp/src/server/mod.rs:1467-1490 | On every run sets are owned, staged, approved and applied only under tokens with that right, and outside lab mode no token used to stage or approve holds both rights |
| LifecycleTheorems.OneOpenSetEach | rustunifimcp/src/server/mod.rs:1592-1628 | Of one owner's sets on one controller at most one is planned, approved or applying inside its window, and no id is staged twice |
| LifecycleTheorems.WindowCountsFromStaging | rustunifimcp/src/server/mod.rs:1560-1570 | Nothing is approved, and no apply clears its deadline, later than the approval window counted from staging |
| LifecycleTheorems.AtMostOneExecution | rustunifimcp/src/server/mod.rs:1985-2126 | Apply starts at most once per change set, restarts included, only after a claim of an approved set whose deadline had not passed at the check and whose plan is writable |
| LifecycleTheorems.ClaimsAreSettled | rustunifimcp/src/server/mod.rs:2132-2211 | Over every interleaving a set is `Applied` if and only if a settlement on outcome `Applied` or `AppliedUnverified` was recorded, `Failed` if and only if one on `Partial`, `PartialRollbackFailed`, `RefusedStale` or no outcome was, settled at most once, and `Applying` only while a call works on it or after that call was lost or could not record |
| LifecycleTheorems.SettlementIsFinal | rustunifimcp/src/server/mod.rs:2164-2211 | A set once `Applied` or `Failed` stays that, however the run goes on |
| LifecycleTheorems.EveryClaimCanSettle | rustunifimcp/src/server/mod.rs:2017-2211 | No claim is stuck: from any point, settling included, and whatever others do between its steps, the call's own steps leave its set `Applied` exactly when it starts and the outcome is `Applied` or `AppliedUnverified`, and `Failed` otherwise, provided its process lives and the settling write succeeds |
| LifecycleTheorems.SecondHumanApproved | rustunifimcp/src/server/mod.rs:1889-1930 | Outside lab mode every set that got as far as apply was approved, for its stored plan and with no waiver, under a token whose actor is a human and whose name is not the owner's |
| LifecycleTheorems.OnlyHumansApprove | rustunifimcp/src/server/mod.rs:484-495 | In lab mode or not, every approval that is no waiver was given under a human's token other than the owner's; no other caller ever counts as human |
| LifecycleTheorems.NoSelfApproval | rustunifimcp/src/server/mod.rs:1808-1930 | Outside lab mode and with fixed token scopes, no run of any callers, over any restarts and transports, lets one principal both stage and approve a set, even in another owner's draft |
| LifecycleTheorems.SelfApprovalIsWaived | rustunifimcp/src/server/mod.rs:1907-1930 | An approval by the owner is always recorded as a waiver and only in lab mode; any other never is |
| LifecycleTheorems.DraftsStayTidy | rustunifimcp/src/server/mod.rs:614-693 | In every reachable state at most 32 drafts, and no two with the same owner and controller |
| LifecycleProgress.StoredSetsFit | rustunifimcp/src/server/mod.rs:1539-1585 | Every set ever stored has at most ten mutations, all writable, and none is expired inside its window |
| LifecycleProgress.DraftedIff | rustunifimcp/src/server/mod.rs:1373-1465 | A draft is held if and only if its creator may create and has none in its window on that controller, and fewer than 32 drafts are in theirs |
| LifecycleProgress.StagedIff | rustunifimcp/src/server/mod.rs:1467-1628 | An open draft becomes a planned set if and only if the caller may stage, the plan fits and is writable, and no set of its owner is in the way; stored is the draft owner's plan, mutation by mutation, with the whole window before it |
| LifecycleProgress.ApprovedIff | rustunifimcp/src/server/mod.rs:1808-1945 | An uninterrupted approval goes through if and only if the scope, the human or lab-mode waiver, the named digest, the plan and the window all allow it; otherwise the set stays planned and nothing is recorded |
| LifecycleProgress.ApprovedSetIsApplied | rustunifimcp/src/server/mod.rs:1985-2211 | An approved set claimed and carried through ends `Applied` if and only if the claim is inside the window, the plan reads back and is writable, and the outcome says every write landed |
| Rendering.Measure | rustunifimcp/src/server/mod.rs:91-94 | The measured length is the pretty-printed one, whatever order the fields are visited in |
| RenderedText.TextMeasures | rustunifimcp/src/server/mod.rs:91-94 | The length used for the budget is the byte length of the pretty-printed text, escapes, UTF-8 and indentation included, whatever order an object's keys come in |
| Rendering.ArrayGrows | rustunifimcp/src/server/mod.rs:97-118 | A longer prefix of an array never renders shorter |
| Shrinking.LargestArrayIs | rustunifimcp/src/server/mod.rs:126-133 | The field chosen is an array no other array outnumbers, the last listed of equals; none is chosen only if no field is an array |
| Shrinking.SplitWhenArray | rustunifimcp/src/server/mod.rs:124-142 | There is nothing to cut exactly when the value is no array and has no array-valued field; otherwise the split is that field and every other one |
| Shrinking.CutGrows | rustunifimcp/src/server/mod.rs:147-163 | The rendered size never falls as more items are shown, marker digits and the saturating cursor included |
| Shrinking.LongestFit | rustunifimcp/src/server/mod.rs:165-174 | The binary search ends at the largest prefix that fits, or at none |
| Shrinking.ShrinkLargestArray | rustunifimcp/src/server/mod.rs:119-177 | Unchanged if it fits or has no array; otherwise the cut that shows the most items that fit |
| Shrinking.ShrunkIsUnique | rustunifimcp/src/server/mod.rs:119-177 | That description leaves exactly one answer |
| Shrinking.BareArrayIsWrapped | rustunifimcp/src/server/mod.rs:135-163 | A bare array over the budget becomes an object of exactly two keys: a prefix under `data` and the marker |
| Shrinking.CutKeeps | rustunifimcp/src/server/mod.rs:107-118 | Every key but the markers survives, nothing else is added, the marker says how many of how many are shown, and a prefix of the chosen array is shown exactly when that array is not itself named like a marker |
| Paging.Paginate | rustunifimcp-core/src/tools/pagination.rs:36-59 | A page is given exactly when its size is positive and at most the maximum and its offset at most the maximum, 0 and 200 by default; it is the window asked for, with the collection's total; a short page reaches the end |
| Paging.Window | rustunifimcp-core/src/tools/pagination.rs:48-50 | Skip then take: item i of the page is item from + i, as many as the size and the collection allow |
| Paging.PageAppliedOnce | rustunifimcp-core/src/tools/read.rs:252-284 | On every surface the caller gets the requested window of the collection, whichever side cut it |
| Paging.PagingTwiceLosesUnless | rustunifimcp-core/src/tools/read.rs:261-266 | Cutting twice gives the same window if and only if the offset is zero or past the end |
| Paging.StatsAnswerSays | rustunifimcp-core/src/tools/read.rs:497-507 | A statistics answer has four keys: the projected items of the window asked for, its offset, its size, and the collection's length |
| Paging.StatsCutsData | rustunifimcp-core/src/tools/read.rs:497-506 | In a statistics answer the array that is cut is always the paged one |
| Paging.CursorAdvancesIff | rustunifimcp/src/server/mod.rs:145-176 | The cursor moves on if and only if the page fits whole or a single item of it fits |
| Paging.CrawlReadsEverything | rustunifimcp/src/server/mod.rs:107-118 | Following the cursor reads every item once and in order, for every page size and budget, as long as each one-item page fits |
| Paging.OversizedItemStops | rustunifimcp/src/server/mod.rs:165-176 | When a one-item page does not fit, the caller that reaches it reads nothing further |
| Searching.FilterByQuery | rustunifimcp-core/src/tools/read.rs:848-863 | Stopping at the limit still returns the first matches of the whole list, in order: at most the limit, and all of them if fewer |
| Searching.MatchesAreTheHits | rustunifimcp-core/src/tools/read.rs:848-863 | The matches are exactly the matching items, each as often as it occurs |
| Searching.MatchesKeepOrder | rustunifimcp-core/src/tools/read.rs:848-863 | And they stand at ascending places of the list |
| Searching.ScanAndFilter | rustunifimcp-core/src/tools/read.rs:587-612 | In at most 25 fetches, the first matches of the whole collection, or of exactly its first 5000 items; capped if and only if there are 5000 or more; fails exactly when a fetch it needed failed |
| QueryStrings.DecodeInvertsEncode | rustunifimcp-core/src/client.rs:540-551 | Percent-decoding gives back every byte string |
| QueryStrings.EncodedAsItself | rustunifimcp-core/src/client.rs:540-551 | A byte stands for itself exactly when it is a letter, a digit or one of `-._~`; any other becomes a percent triplet |
| QueryStrings.QueryRoundTrips | rustunifimcp-core/src/client.rs:251-259 | Splitting an assembled query and decoding its parts gives back the very list of pairs |
| QueryStrings.QueriesAreDistinct | rustunifimcp-core/src/client.rs:251-259 | Different lists of pairs never share a query |
| QueryStrings.AssembledStaysInAlphabet | rustunifimcp-core/src/client.rs:537-551 | The query holds only unreserved characters, upper-case triplets and the two separators |

## Left out

- HTTP, TLS, credentials, site lookups, client caches and the envelope shapes of responses: a call either
  gets through with its effect or fails.
- Error texts, previews, diffs, redaction and the workflow reports: they would only add easy members.
- Hashing: fingerprints and digests are taken as injective.
- Rendering.Measure: numbers that are not integers are not values of the model, nor are the compact and
  exponent forms serde_json may print for them.
- ControllerClient.Controller.ApplyMutation: a create that landed and answered with an unreadable body is
  reported as failed although the store changed; the model assumes a failed write changed nothing.
- serde's reading of structs from arrays: stored actions are read from objects, which is how they are written.
- The lifecycle handlers are functions from state to state rather than methods of a class, because what is
  proved about them is every interleaving of their steps. The draft map is the class `Drafts.DraftBook`, and
  the lifecycle uses the same specification functions.
- The create handler's look at pending sets, which happens outside any lock: its answer is free in the model,
  so exclusion between drafts and pending sets is not claimed.
- The limits on a plan other than its ten actions, the expiry of lab-mode waivers, and cancelling a set.
- Per-controller and per-site token scopes: a token's four tool rights are fixed and hold everywhere.
- `validate_locally` and `covers`: one-branch facts next to the gate.
- Backup restore: apply always refuses it, and that is the one case modelled.
- Zone names in the zone index, which only feed messages.
- Completeness of the zone list: validation reads one default page of it, so the reference check is stated
  relative to the list given.
- The projection of statistics items is any function of one item, and the text match of a search is any
  predicate.
- ZoneExactness.ZoneCheckExact: stated for plans the controller accepts, with zones that name no zone and
  creates that carry no `_id`. For a plan the controller stops, `ZoneExactness.PrefixExact` says the same of
  every prefix it took. That update bodies of zones name no zone and creates carry no `_id` follows from the
  writable-field check; that stored zones name none is a fact about the controller.
- Paging.CrawlReadsEverything: stated for the statistics answer, whose only array is the paged one; a report
  with a larger array beside it would have that one cut instead.
- RollbackSuccess.RollbackGoesThroughIff: creates that ask for an `_id` of their own are left out, which the
  writable-field check refuses; a guarding controller is taken to start with every named zone stored, which its
  own refusals then keep.
- LifecycleTheorems.ClaimsAreSettled: a call that is lost, or whose settling write fails, leaves its set
  `Applying`, as the source says it must.
