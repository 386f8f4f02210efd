# Snapshot adapter of the integration service, in Dafny

The integration service reconciles `Snapshot` resources: sets of container
images, one per component of an application, that are to be tested together.
Its snapshot adapter (`internal/controller/snapshot/snapshot_adapter.go`) holds
the operations the snapshot reconciler runs on one snapshot. They are:

- create one integration test pipeline run per applicable
  `IntegrationTestScenario`, exactly once, recording each run in the test-status
  ledger stored on the snapshot;
- re-run the scenarios a user asks for through the rerun label;
- cancel the runs of older snapshots of the same pull request, or of the same
  pull request group, that this snapshot supersedes;
- promote a pushed or override snapshot's images to the global candidate list;
- create the automatic releases of a promotable snapshot;
- mark an override snapshot invalid when one of its components is unknown, has
  no image digest or has no git source (as documented; the code as written
  does not check the git source, see "## Findings");
- assemble a group snapshot once every component build of a pull request group
  is processed.

The model keeps the adapter's state as a Dafny class, `SnapshotAdapter.Adapter`.
Its fields are the parts of the cluster that the operations change: the ledger,
the status markers, the competing snapshots, the pipeline runs, the releases,
the global candidate list, the group notes and the group snapshots. Every
operation is a method with a `modifies` frame.

Calls into the Kubernetes client and the loader that can fail go through a
*backend*. A backend is a function from a call to an optional error: `None`
means the call went through. Within one reconcile pass a backend answers each
call the same way every time, and the model makes no assumption about those
answers: every property about one pass holds whichever calls fail. A lemma
about two passes says which backends they run against. Two of them,
`RunCreation.CreateRunsIdempotent` and `RunCreation.ReconcileTwiceCreatesOnce`,
assume that both passes see the same backend. Two others,
`RunCreation.CreateRunsRetriesOnlyFailures` and
`RunCreation.ReconcileTwiceNoDoubleRun`, allow any two backends.

Data that the loader returns, and that
the adapter does not change, is passed in as `Result` parameters.

Each loop of the source is specified by a pure recursive function over the
prefix processed so far. Examples are `RunCreation.CreateRuns`,
`Rerun.RerunUpTo`, `Supersession.SupersedeUpTo`, `Releases.ReleasesUpTo`,
`Promotion.OverrideUpTo`, `Promotion.ValidateUpTo`, `Grouping.FirstBlocker` and
`Grouping.SelectSources`. The method that runs the loop is proved equal to that
function. The properties the reconciler relies on are proved as lemmas about
the function. They include:

- exactly-once creation, and idempotence across reconciliations;
- retries only of failed creations;
- one new run, recorded in the ledger, for each re-run scenario;
- stopping at the first error;
- the newest snapshot surviving supersession;
- soundness and completeness of the selection of group components, and
  distinct names among them.

Files:

| file | module | content |
|---|---|---|
| `types.dfy` | `Types` | shared data: scenarios, snapshots, pipeline runs, components, backend calls, outcomes |
| `ledger.dfy` | `TestLedger` | the test-status ledger stored on a snapshot |
| `git_resolver.dfy` | `GitResolver` | rewriting of a scenario's git resolver for pull requests |
| `run_creation.dfy` | `RunCreation` | the loop creating integration pipeline runs |
| `rerun.dfy` | `Rerun` | the loop re-running requested scenarios |
| `supersession.dfy` | `Supersession` | cancelling older snapshots and their runs |
| `promotion.dfy` | `Promotion` | global candidate list updates and override validation |
| `releases.dfy` | `Releases` | automatic release creation |
| `grouping.dfy` | `Grouping` | pull request group readiness and group snapshot assembly |
| `adapter.dfy` | `SnapshotAdapter` | the adapter class and its operations |

## Model

All source paths are relative to the repository root.

| member | source | states |
|---|---|---|
| `TestLedger.InitStatuses` | internal/controller/snapshot/snapshot_adapter.go:247 | every scenario name gains an entry, and existing entries are kept exactly; new entries start in the initial (pending) state |
| `TestLedger.InitStatusesIdempotent` | internal/controller/snapshot/snapshot_adapter.go:247 | initialising the same names twice equals initialising them once |
| `TestLedger.UpdateTestStatusIfChanged` | internal/controller/snapshot/snapshot_adapter.go:281-283 | only the named entry changes; it gets the new state and keeps its recorded run name; an entry already in that state is left untouched |
| `TestLedger.ResetStatus` | internal/controller/snapshot/snapshot_adapter.go:166 | only the named entry changes; it becomes the initial status, with no run recorded |
| `TestLedger.UpdateTestPipelineRunName` | internal/controller/snapshot/snapshot_adapter.go:290-293 | fails with not-found exactly when the scenario has no entry; otherwise it sets that entry's run name and changes nothing else |
| `GitResolver.UrlToGitUrl` | internal/controller/snapshot/snapshot_adapter.go:700-705 | the result always ends in `.git`; a URL ending in `.git` is returned unchanged; otherwise `.git` is appended, after dropping one trailing `/` |
| `GitResolver.UrlToGitUrlIdempotent` | internal/controller/snapshot/snapshot_adapter.go:700-705 | normalising a URL twice equals normalising it once |
| `GitResolver.ParamsMapLastWins` | internal/controller/snapshot/snapshot_adapter.go:691-697 | the keys of the map are exactly the parameter names, and each name maps to the value of its last occurrence |
| `GitResolver.ResolverParamsToMap` | internal/controller/snapshot/snapshot_adapter.go:691-697 | the loop builds the same map as `ParamsMap` |
| `GitResolver.ShouldUpdateIff` | internal/controller/snapshot/snapshot_adapter.go:708-739 | the resolver is rewritten if and only if the snapshot is not from a push event, the resolver is `git`, its revision parameter equals the target branch, and a URL parameter exists whose normalised form equals the normalised repository URL |
| `GitResolver.GetGitResolverUpdateMap` | internal/controller/snapshot/snapshot_adapter.go:741-747 | the rewrite sets exactly the `url` and `revision` parameters, to the normalised source URL and the commit SHA |
| `RunCreation.ScenarioNames` | internal/controller/snapshot/snapshot_adapter.go:83-90 | one name per scenario, in order |
| `RunCreation.ScenariosNamesToList` | internal/controller/snapshot/snapshot_adapter.go:83-90 | the loop returns one name per scenario, in order |
| `RunCreation.NewRun` | internal/controller/snapshot/snapshot_adapter.go:751-772 | a new run belongs to the snapshot and the scenario, is unfinished, carries the finalizer, and gets a resolver rewrite exactly when `ShouldUpdateIntegrationTestGitResolver` holds |
| `RunCreation.CreationErrorOutcome` | internal/controller/snapshot/snapshot_adapter.go:828-831 | a validation rejection stops processing; any other error requeues with that error |
| `RunCreation.CreateRunsFrame` | internal/controller/snapshot/snapshot_adapter.go:264-298 | the loop gives an entry to every scenario processed; entries that already record a run, and entries of scenarios outside the list, are left exactly as they were |
| `RunCreation.StepEffect` | internal/controller/snapshot/snapshot_adapter.go:268-295 | one scenario changes only its own entry; a scenario with a recorded run is skipped; otherwise at most one run is created, with the next generated name, and recorded in the entry |
| `RunCreation.StepSettles` | internal/controller/snapshot/snapshot_adapter.go:268-295 | after its step a scenario has a run recorded or is marked invalid after a failed creation; scenarios already settled stay settled; only non-validation errors are kept |
| `RunCreation.CreatedWereMissing` | internal/controller/snapshot/snapshot_adapter.go:268-275 | every run created is for a listed scenario that had no run recorded before the loop, and belongs to the snapshot |
| `RunCreation.CreatedAreRecorded` | internal/controller/snapshot/snapshot_adapter.go:284-293 | every run created is recorded in its scenario's ledger entry under its name |
| `RunCreation.CreatedDistinct` | internal/controller/snapshot/snapshot_adapter.go:264-298 | no scenario gets two runs in one loop, even when a name is listed twice |
| `RunCreation.CreateRunsExactlyOnce` | internal/controller/snapshot/snapshot_adapter.go:264-298 | runs are created only for scenarios lacking one, each at most once, and each is recorded |
| `RunCreation.CreateRunsSettles` | internal/controller/snapshot/snapshot_adapter.go:264-298 | after the loop every scenario is settled; no validation rejection is kept for the requeue; there are at most as many runs plus errors as scenarios |
| `RunCreation.CreateRunsNoOpWhenSettled` | internal/controller/snapshot/snapshot_adapter.go:268-272 | when every scenario already has a run recorded or is marked invalid after a failed creation, the loop creates nothing and leaves the ledger unchanged |
| `RunCreation.CreateRunsIdempotent` | internal/controller/snapshot/snapshot_adapter.go:264-298 | against the same backend, running the loop again on the ledger it produced creates no run and changes nothing (a creation that failed fails again) |
| `RunCreation.CreateRunsRetriesOnlyFailures` | internal/controller/snapshot/snapshot_adapter.go:264-298 | a second pass, against any backend, creates runs only for scenarios whose creation failed in the first pass |
| `RunCreation.ReconcileTwiceCreatesOnce` | internal/controller/snapshot/snapshot_adapter.go:243-298 | two reconciliations (initialise the ledger, then run the loop) against the same backend create each run once: the second creates none and leaves the ledger as the first left it |
| `RunCreation.ReconcileTwiceNoDoubleRun` | internal/controller/snapshot/snapshot_adapter.go:243-298 | two reconciliations against any two backends never create a run for the same scenario in both passes: the second pass creates runs only where the first recorded none |
| `Rerun.SkipCount` | internal/controller/snapshot/snapshot_adapter.go:156-164 | the number of skipped scenarios never exceeds the number requested |
| `Rerun.SkipCountAllIff` | internal/controller/snapshot/snapshot_adapter.go:203-206 | every scenario is skipped (the count equals the total) if and only if each one is in progress or pending |
| `Rerun.CreatedLedger` | internal/controller/snapshot/snapshot_adapter.go:189-193 | a created rerun puts its scenario in progress with the run's name recorded, and changes no other entry |
| `Rerun.SupersedeAfterRun` | internal/controller/snapshot/snapshot_adapter.go:181-187 | supersession is skipped for a snapshot from a push event, and never adds or removes runs |
| `Rerun.RerunScenario` | internal/controller/snapshot/snapshot_adapter.go:176-195 | rerunning one scenario does not touch the skip count; a failed creation leaves the competing snapshots and the runs as they were (what a creation that goes through adds is stated by `Rerun.RerunScenarioAddsRun`) |
| `Rerun.RerunScenarioAddsRun` | internal/controller/snapshot/snapshot_adapter.go:176-195 | a rerun that goes on adds exactly one run, after the existing ones, for the scenario and this snapshot; the scenario is in progress with that run's name recorded and no other ledger entry changes; the existing runs keep their names, snapshots and scenarios; the competing snapshots are superseded after the new run |
| `Rerun.RerunStepLedger` | internal/controller/snapshot/snapshot_adapter.go:157-170 | one scenario changes only its own entry; an in-progress or pending one is skipped and counted with nothing else changed; one that goes through ends in progress with a run recorded |
| `Rerun.RerunStepHalts` | internal/controller/snapshot/snapshot_adapter.go:166-170 | the loop stops at a scenario if and only if it was not skipped and its creation failed; the scenario is then marked invalid, and the failure is the error reported |
| `Rerun.RerunUpToLedger` | internal/controller/snapshot/snapshot_adapter.go:155-173 | the loop only adds entries for, and only changes entries of, the scenarios processed so far; while it goes on, each processed scenario was skipped or rerun |
| `Rerun.Reran` | internal/controller/snapshot/snapshot_adapter.go:157-170 | the scenarios re-run are those the ledger does not skip, as many as the scenarios minus the skip count |
| `Rerun.ReranOnce` | internal/controller/snapshot/snapshot_adapter.go:157-170 | every scenario that is not in progress or pending is re-run, and with distinct names none is re-run twice |
| `Rerun.NewRunsRecordedAppend` | internal/controller/snapshot/snapshot_adapter.go:176-195 | one more re-run scenario adds its run after the others and records its name, keeping what was recorded for the earlier ones |
| `Rerun.NewRunsRecordedStep` | internal/controller/snapshot/snapshot_adapter.go:157-170 | one more scenario on which the loop goes on keeps the runs as `NewRunsRecorded` describes |
| `Rerun.RerunUpToRuns` | internal/controller/snapshot/snapshot_adapter.go:155-173 | while the loop goes on, the runs present before are kept, and one run for this snapshot has been added, in order, for each re-run scenario, with its name in the ledger |
| `Rerun.RerunRuns` | internal/controller/snapshot/snapshot_adapter.go:155-173 | a complete loop over distinct scenarios creates exactly one new run for each scenario that was not in progress or pending and none for the others; the ledger records each new run's name and the earlier runs are kept |
| `Rerun.RerunLedger` | internal/controller/snapshot/snapshot_adapter.go:155-173 | after a complete loop over distinct scenarios, the skip count is the number in progress or pending; those entries are unchanged; every other scenario is in progress with a run name recorded (which run is stated by `Rerun.RerunRuns`) |
| `Rerun.RerunUpToStops` | internal/controller/snapshot/snapshot_adapter.go:167-170 | once a creation failed, later scenarios are not processed |
| `Supersession.CancelRun` | internal/controller/snapshot/snapshot_adapter.go:1081-1092 | a cancelled run loses its finalizer, gets the `CancelledRunFinally` status and the cancelled annotation; everything else is kept |
| `Supersession.CancelRunIdempotent` | internal/controller/snapshot/snapshot_adapter.go:1081-1092 | cancelling a run twice equals cancelling it once |
| `Supersession.CancelRunsOf` | internal/controller/snapshot/snapshot_adapter.go:1079-1099 | exactly the unfinished runs of the target snapshots are cancelled; all other runs are unchanged |
| `Supersession.CancelRunsOfCompose` | internal/controller/snapshot/snapshot_adapter.go:1046-1063 | cancelling for one set of snapshots, then for one more, equals cancelling for their union |
| `Supersession.CancelAt` | internal/controller/snapshot/snapshot_adapter.go:1081-1096 | handling one run never adds or removes runs |
| `Supersession.CancelRunsUpTo` | internal/controller/snapshot/snapshot_adapter.go:1079-1099 | the loop never adds or removes runs |
| `Supersession.CancelRunsUpToFrame` | internal/controller/snapshot/snapshot_adapter.go:1079-1099 | whatever fails, each run is unchanged, fully cancelled, or (when the patch failed) only stripped of its finalizer; and only an unfinished run of the target is touched |
| `Supersession.CancelRunsUpToOk` | internal/controller/snapshot/snapshot_adapter.go:1079-1099 | a loop without error cancels exactly the target's unfinished runs among those processed |
| `Supersession.CancelAllRuns` | internal/controller/snapshot/snapshot_adapter.go:1068-1101 | cancelling a snapshot's runs never adds or removes runs |
| `Supersession.CancelAllRunsOk` | internal/controller/snapshot/snapshot_adapter.go:1068-1101 | without error, exactly the target's unfinished runs are cancelled |
| `Supersession.CancelAllRunsFrame` | internal/controller/snapshot/snapshot_adapter.go:1068-1101 | whatever fails, a finished run or a run of another snapshot is never touched |
| `Supersession.CancelAllRunsKeepsIds` | internal/controller/snapshot/snapshot_adapter.go:1068-1101 | cancelling keeps every run, in order, with its name, snapshot and scenario |
| `Supersession.SupersedeAt` | internal/controller/snapshot/snapshot_adapter.go:1047-1061 | handling one older snapshot never adds or removes snapshots or runs |
| `Supersession.SupersedeAtOk` | internal/controller/snapshot/snapshot_adapter.go:1047-1061 | without error, an already cancelled snapshot is skipped; any other is marked cancelled and its unfinished runs are cancelled |
| `Supersession.SupersedeUpTo` | internal/controller/snapshot/snapshot_adapter.go:1046-1063 | the loop never adds or removes snapshots or runs |
| `Supersession.Supersede` | internal/controller/snapshot/snapshot_adapter.go:1041-1064 | supersession never adds or removes snapshots or runs |
| `Supersession.MarkSuperseded` | internal/controller/snapshot/snapshot_adapter.go:1046-1063 | every snapshot but the first (the newest) is marked cancelled |
| `Supersession.SupersedeUpToOk` | internal/controller/snapshot/snapshot_adapter.go:1046-1063 | a loop without error marks every processed older snapshot cancelled, and cancels exactly the unfinished runs of those that were not yet cancelled |
| `Supersession.SupersedeOk` | internal/controller/snapshot/snapshot_adapter.go:1041-1064 | without error, fewer than two snapshots are left alone; otherwise every snapshot but the newest is cancelled, and so are the unfinished runs of those not already cancelled |
| `Supersession.SupersedeUpToKeepsNewest` | internal/controller/snapshot/snapshot_adapter.go:1046-1063 | whatever fails, the newest snapshot is untouched; the others keep their names and times; finished runs and runs of the newest snapshot are untouched |
| `Supersession.SupersedeKeepsNewest` | internal/controller/snapshot/snapshot_adapter.go:1041-1064 | whatever fails, the newest snapshot, its runs and all finished runs survive |
| `Supersession.SupersedeFewPeers` | internal/controller/snapshot/snapshot_adapter.go:1043-1045 | with fewer than two snapshots nothing changes and no call is made |
| `Supersession.SupersedeUpToAllCanceled` | internal/controller/snapshot/snapshot_adapter.go:1047-1050 | when every older snapshot is already cancelled, the loop changes nothing and reports no error |
| `Supersession.SupersedeIdempotent` | internal/controller/snapshot/snapshot_adapter.go:1041-1064 | superseding again after a successful supersession changes nothing and makes no failing call |
| `Supersession.SupersedeFor` | internal/controller/snapshot/snapshot_adapter.go:1015-1065 | only component and group snapshots supersede others; supersession never adds or removes snapshots or runs |
| `Supersession.SupersedeForKeepsNewest` | internal/controller/snapshot/snapshot_adapter.go:1015-1065 | for any snapshot kind and whatever fails, the newest competing snapshot, its runs and all finished runs survive |
| `Supersession.CancelRunsUpToStops` | internal/controller/snapshot/snapshot_adapter.go:1083-1096 | once a call failed, later runs are not touched |
| `Supersession.SupersedeUpToStops` | internal/controller/snapshot/snapshot_adapter.go:1052-1061 | once a call failed, later snapshots are not processed |
| `Supersession.SupersedeUpToKeepsOrder` | internal/controller/snapshot/snapshot_adapter.go:1046-1063 | supersession keeps every snapshot's name and creation time |
| `Supersession.SupersedeForKeepsOrder` | internal/controller/snapshot/snapshot_adapter.go:1015-1065 | supersession keeps the snapshots sorted newest first, and their names distinct |
| `Supersession.SupersedeUpToKeepsIds` | internal/controller/snapshot/snapshot_adapter.go:1046-1063 | superseding competing snapshots only cancels runs: every run is kept, in order, with its name, snapshot and scenario |
| `Supersession.SupersedeForKeepsIds` | internal/controller/snapshot/snapshot_adapter.go:1015-1065 | the same holds for the whole supersession of a snapshot |
| `Grouping.FirstBlockerNoneIff` | internal/controller/snapshot/snapshot_adapter.go:976-1010 | no build blocks the group if and only if every build is processed: it is superseded by a later build of its component, or it succeeded and has its component snapshot |
| `Grouping.FirstBlockerSound` | internal/controller/snapshot/snapshot_adapter.go:976-1010 | a reported blocker names a build that is not processed |
| `Grouping.ReadyIgnoresSuperseded` | internal/controller/snapshot/snapshot_adapter.go:979-982 | adding an older build of a component that already has a newer one does not change readiness |
| `Grouping.FirstBlockerStops` | internal/controller/snapshot/snapshot_adapter.go:985-1008 | the first blocker found ends the scan |
| `Grouping.Fallback` | internal/controller/snapshot/snapshot_adapter.go:918-944 | a component joins from the global candidate list if and only if it has a git source and a non-empty last promoted image with a valid digest; it then joins with that image, from its repository, at its last built commit when it has one and at its git source's revision otherwise |
| `Grouping.SelectSourcesSound` | internal/controller/snapshot/snapshot_adapter.go:886-945 | every selected component comes from an open pull request of a component to check, or from the candidate list fallback; every info names a component to check that has an open pull request |
| `Grouping.SelectSourcesComplete` | internal/controller/snapshot/snapshot_adapter.go:886-945 | every component to check that has an open pull request gets an info; every other component with a usable fallback is selected from the candidate list |
| `Grouping.MatchingEntry` | internal/controller/snapshot/snapshot_adapter.go:904 | an open-PR snapshot contributes its first entry named after the component, or an empty entry when it has none |
| `Grouping.SelectSourcesNames` | internal/controller/snapshot/snapshot_adapter.go:886-945 | every selected entry is named after an application component or is empty, and every info names an application component |
| `Grouping.SelectSourcesDistinct` | internal/controller/snapshot/snapshot_adapter.go:886-945 | with distinct component names, no two named entries share a name and no two infos name the same component |
| `Grouping.SelectSourcesBound` | internal/controller/snapshot/snapshot_adapter.go:886-945 | there are no more infos than selected components, and no more of those than application components |
| `Grouping.SelectSourcesStops` | internal/controller/snapshot/snapshot_adapter.go:892-901 | a failed lookup ends the selection with that error |
| `Grouping.PreparedGroup` | internal/controller/snapshot/snapshot_adapter.go:869-966 | fewer than two components to check gives no group; a prepared group has at least two members, which are exactly its infos |
| `Grouping.PreparedGroupIff` | internal/controller/snapshot/snapshot_adapter.go:947-965 | with two or more components to check, a group is prepared if and only if at least two components have an open pull request; every component in it is justified; with distinct component names, its named components have distinct names |
| `Promotion.FetchComponent` | internal/controller/snapshot/snapshot_adapter.go:358-369 | the lookup succeeds if and only if the call succeeds and the application has a component of that name, which it returns |
| `Promotion.PromoteImage` | internal/controller/snapshot/snapshot_adapter.go:851-867 | updating the last promoted image never adds or removes components |
| `Promotion.RecordCommit` | internal/controller/snapshot/snapshot_adapter.go:834-849 | updating the last built commit never adds or removes components |
| `Promotion.PromoteEntry` | internal/controller/snapshot/snapshot_adapter.go:377-386 | promoting one entry never adds or removes components |
| `Promotion.PromoteEntryEffect` | internal/controller/snapshot/snapshot_adapter.go:377-386 | only the promoted component changes, keeping its name and source; no image patch is sent when the image is already current; no commit patch is sent without a git revision; patches are only appended; on success the component has the entry's image, and the entry's revision when it has one |
| `Types.FirstNamed` | internal/controller/snapshot/snapshot_adapter.go:373-393 | finds the first element with the name (a component, or a snapshot entry), or reports that none has it |
| `Promotion.PromoteComponentEntry` | internal/controller/snapshot/snapshot_adapter.go:373-393 | promotion of a component snapshot never adds or removes components |
| `Promotion.PromoteComponentEntryEffect` | internal/controller/snapshot/snapshot_adapter.go:373-393 | only the snapshot's component changes; without a matching entry nothing changes; on success it has the first matching entry's image, and its revision when it has one |
| `Promotion.OverrideStep` | internal/controller/snapshot/snapshot_adapter.go:396-426 | promoting one override entry never adds or removes components |
| `Promotion.OverrideUpTo` | internal/controller/snapshot/snapshot_adapter.go:396-426 | the override loop never adds or removes components; what it does to each record is stated by `OverrideUpToOk` and `OverrideUpToFrame` |
| `Promotion.OverrideUpToFrame` | internal/controller/snapshot/snapshot_adapter.go:396-426 | whatever fails, components keep their names and sources; a component named by no promotable entry (known component, valid digest) is untouched |
| `Promotion.FetchSameNames` | internal/controller/snapshot/snapshot_adapter.go:399 | loading a component by name gives the same answer for any records with the same names, so promotions earlier in the loop do not change which record an entry loads |
| `Promotion.OverrideStepAt` | internal/controller/snapshot/snapshot_adapter.go:397-425 | one entry, seen from one record: without an error, an entry of another name leaves it alone, and a promotable entry that loads it sets its last promoted image and, when the entry has a revision, its last built commit |
| `Promotion.OverrideUpToOkAt` | internal/controller/snapshot/snapshot_adapter.go:396-426 | for one entry with a valid digest and the record it loads: if the loop ends without an error and no later promotable entry has the same name, the record holds that entry's image and revision |
| `Promotion.OverrideUpToOk` | internal/controller/snapshot/snapshot_adapter.go:395-426 | when the override loop ends without an error, every component loaded by a promotable entry holds that entry's image as its last promoted image, and its revision as last built commit when it has one, unless a later promotable entry of the same name takes its place |
| `Promotion.OverrideUpToStops` | internal/controller/snapshot/snapshot_adapter.go:403-404 | once a call failed, later entries are not processed |
| `Promotion.ComponentProblems` | internal/controller/snapshot/snapshot_adapter.go:520-542 | the check fails if and only if the lookup fails with an error other than not-found; otherwise it reports a missing component, an invalid digest and a missing git source, each exactly when it applies |
| `Promotion.ValidateUpToNoProblemIff` | internal/controller/snapshot/snapshot_adapter.go:520-545 | the validation finds no problem if and only if every entry is valid |
| `Promotion.ValidateUpToStops` | internal/controller/snapshot/snapshot_adapter.go:526-527 | a failed lookup ends the validation with that error |
| `Promotion.ValidateUpToNext` | internal/controller/snapshot/snapshot_adapter.go:520-543 | one more entry of the corrected validation adds that entry's problems to those found so far, or ends with its lookup error |
| `Promotion.MissingGitSourceAccepted` | internal/controller/snapshot/snapshot_adapter.go:533-542 | an entry of a known component with a valid digest and no git source passes the validation as written, but fails the corrected one |
| `Releases.ReleasesUpToFrame` | internal/controller/snapshot/snapshot_adapter.go:654-687 | whatever fails, existing releases are kept as they were, and any new release is for one of the plans processed |
| `Releases.ReleasesUpToOk` | internal/controller/snapshot/snapshot_adapter.go:654-687 | a loop without error leaves a release for every processed plan, and every new one is marked automated |
| `Releases.CreateMissingReleasesOk` | internal/controller/snapshot/snapshot_adapter.go:646-689 | without error the releases are exactly the existing ones plus one per plan; existing ones are unchanged and new ones are marked automated |
| `Releases.ReleasesUpToAllExist` | internal/controller/snapshot/snapshot_adapter.go:656-661 | when every plan already has a release, the loop makes no change and reports no error |
| `Releases.CreateMissingReleasesIdempotent` | internal/controller/snapshot/snapshot_adapter.go:646-689 | creating missing releases again after a successful run changes nothing |
| `Releases.ReleasesUpToStops` | internal/controller/snapshot/snapshot_adapter.go:664-676 | once a creation or marking failed, later plans are not processed |
| `SnapshotAdapter.NotifyAll` | internal/controller/snapshot/snapshot_adapter.go:625 | every constituent snapshot gets the note, and other snapshots keep theirs |
| `SnapshotAdapter.RequeueIfYoungerThanThreshold` | internal/controller/snapshot/snapshot_adapter.go:803-808 | never stops; requeues with the given errors exactly while the snapshot is young, and otherwise continues |
| `SnapshotAdapter.StopOutcome` | internal/controller/snapshot/snapshot_adapter.go:816-831 | processing stops if and only if the ledger write succeeded and the error is a validation rejection |
| `SnapshotAdapter.ReleaseErrorOutcome` | internal/controller/snapshot/snapshot_adapter.go:459-488 | never stops; requeues exactly while the snapshot is young, first with the original error and then with the patch error only when the status patch failed |
| `SnapshotAdapter.Adapter.constructor` | internal/controller/snapshot/snapshot_adapter.go:70-81 | the adapter starts from the snapshot as loaded: its ledger, rerun label, status markers, group notes, competitors, runs, releases, components and group snapshots are the given ones, and no component patch has been sent yet |
| `SnapshotAdapter.Adapter.CreateIntegrationPipelineRun` | internal/controller/snapshot/snapshot_adapter.go:751-797 | a failed creation returns the error and changes nothing; otherwise the new run is added and the snapshot is marked in progress unless that mark fails |
| `SnapshotAdapter.Adapter.HandlePipelineCreationError` | internal/controller/snapshot/snapshot_adapter.go:810-832 | the scenario is marked invalid and the ledger written; a failed write requeues; otherwise a validation rejection stops and any other error requeues |
| `SnapshotAdapter.Adapter.CancelAllPipelineRunsForSnapshot` | internal/controller/snapshot/snapshot_adapter.go:1068-1101 | the runs become those of `CancelAllRuns`; without error, exactly the target's unfinished runs are cancelled |
| `SnapshotAdapter.Adapter.CheckAndCancelOldSnapshotsPipelineRun` | internal/controller/snapshot/snapshot_adapter.go:1015-1065 | the competing snapshots and runs become those of `SupersedeFor`; the newest snapshot, its runs and finished runs survive; the order invariant is kept |
| `SnapshotAdapter.Adapter.EnsureRunForScenario` | internal/controller/snapshot/snapshot_adapter.go:268-295 | one step of the creation loop equals `CreateStep`; the new run, if any, is appended to the runs |
| `SnapshotAdapter.Adapter.CreateMissingPipelineRuns` | internal/controller/snapshot/snapshot_adapter.go:264-298 | the loop equals `CreateRuns`; the runs it creates are appended in order; the snapshot is in progress once a run was created and the mark went through |
| `SnapshotAdapter.Adapter.InitializeAndCreatePipelineRuns` | internal/controller/snapshot/snapshot_adapter.go:243-317 | returns exactly `InitErrors`: a failed read or initial write changes nothing, including the in-progress mark; otherwise the ledger is initialised, the loop runs, the snapshot is marked in progress once a run was created, competitors are superseded, and the final ledger is stored unless its write fails (`InitializedFrom`) |
| `SnapshotAdapter.InitErrors` | internal/controller/snapshot/snapshot_adapter.go:243-317 | the errors the run-creation part requeues with: none exactly when the read and both writes of the ledger succeed and every failed creation was a validation rejection; a failed read requeues with its error alone; with the ledger calls through, a validation rejection never causes a requeue |
| `SnapshotAdapter.Adapter.EnsureIntegrationPipelineRunsExist` | internal/controller/snapshot/snapshot_adapter.go:222-339 | finished tests change nothing and continue; otherwise the ledger, runs, competing snapshots and in-progress mark end as `InitializedFrom` says (unchanged when the scenarios cannot be loaded); when `InitErrors` is non-empty it requeues with exactly those errors, leaving the passed and error marks; otherwise the outcome and marks are those of the required-scenarios tail (`PassedTail`); unless it requeues, every scenario has a run recorded or is marked invalid |
| `SnapshotAdapter.Adapter.MarkPassedIfNothingRequired` | internal/controller/snapshot/snapshot_adapter.go:320-338 | ends as `PassedTail` says: failing to list required scenarios marks the integration status errored and stops, or requeues when that patch fails; with none required an unpassed snapshot is marked passed, or the operation requeues when that mark fails; otherwise it continues with the marks unchanged |
| `SnapshotAdapter.Adapter.RerunIntegrationPipelinerunForScenario` | internal/controller/snapshot/snapshot_adapter.go:176-195 | the state after the call is that of `RerunScenario`; it stops exactly when the creation failed, and then ends as the creation error handler says |
| `SnapshotAdapter.Adapter.HandleScenarioReruns` | internal/controller/snapshot/snapshot_adapter.go:155-173 | the loop equals `RerunUpTo` over all requested scenarios; it returns the skip count when it completes, and the error handler's outcome when it stops |
| `SnapshotAdapter.Adapter.HandleScenario` | internal/controller/snapshot/snapshot_adapter.go:157-170 | one scenario of the rerun loop equals `RerunStep` |
| `SnapshotAdapter.Adapter.CleanupRerunLabelAndUpdateStatus` | internal/controller/snapshot/snapshot_adapter.go:198-218 | returns `CleanupError`; the label is removed first, and a failure there changes nothing; when all were skipped nothing else happens; otherwise the ledger is written and the conditions are reset (clearing the passed mark), stopping at the first failure |
| `SnapshotAdapter.CleanupError` | internal/controller/snapshot/snapshot_adapter.go:198-218 | the clean-up after a re-run fails exactly when removing the label fails, or, unless every scenario was skipped, writing the ledger or resetting the conditions fails; a failed label removal is the error returned |
| `SnapshotAdapter.Adapter.GetScenariosToRerun` | internal/controller/snapshot/snapshot_adapter.go:122-152 | returns the outcome `LookupOutcome` gives: `all` asks for every applicable scenario (a listing error requeues); a name asks for that scenario; an unknown name removes the label and continues (requeues when the removal fails); any other lookup error requeues; the label changes only when an unknown name's label is removed |
| `SnapshotAdapter.LookupOutcome` | internal/controller/snapshot/snapshot_adapter.go:122-152 | looking up the requested scenarios never stops; it requeues exactly when loading them fails, or when a label naming a missing scenario cannot be removed |
| `SnapshotAdapter.Adapter.RerunRequestedScenarios` | internal/controller/snapshot/snapshot_adapter.go:104-118 | a failed ledger read requeues with that error and changes nothing; otherwise `ReranAs`: runs, competitors and in-progress mark are the loop's; a halted loop ends as the error handler says with the label and passed mark kept; a loop that went through removes the label, writes the ledger and clears the passed mark unless all were skipped, requeues with the first clean-up failure and otherwise continues; for distinct scenarios a continue leaves `RerunEffect`: skipped ones untouched, every other in progress with exactly one new run for this snapshot whose name the ledger records, the earlier runs kept |
| `SnapshotAdapter.RerunWentThrough` | internal/controller/snapshot/snapshot_adapter.go:104-118 | a loop that went through, followed by the write-back, leaves the effect `RerunEffect` describes: the ledger, runs and passed mark kept when all were skipped, otherwise one recorded new run per re-run scenario and the mark cleared |
| `SnapshotAdapter.Adapter.EnsureRerunPipelineRunsExist` | internal/controller/snapshot/snapshot_adapter.go:93-119 | without a rerun label nothing changes; when the label's scenarios are not found, the outcome is `LookupOutcome` and only an unknown name's label is removed; when they are found, a failed ledger read requeues with nothing changed and otherwise the re-run ends as `ReranAs` says; a completed rerun of distinct scenarios leaves the effect `RerunEffect` describes |
| `SnapshotAdapter.Adapter.UpdateComponentLastPromotedImage` | internal/controller/snapshot/snapshot_adapter.go:851-867 | the candidate list becomes that of `PromoteImage` |
| `SnapshotAdapter.Adapter.UpdateComponentSource` | internal/controller/snapshot/snapshot_adapter.go:834-849 | the candidate list becomes that of `RecordCommit` |
| `SnapshotAdapter.Adapter.PromoteComponentSnapshot` | internal/controller/snapshot/snapshot_adapter.go:373-393 | the loop over the snapshot's entries equals `PromoteComponentEntry` |
| `SnapshotAdapter.Adapter.PromoteOverrideSnapshot` | internal/controller/snapshot/snapshot_adapter.go:396-426 | the loop over the override entries equals `OverrideUpTo` |
| `SnapshotAdapter.Adapter.EnsureGlobalCandidateImageUpdated` | internal/controller/snapshot/snapshot_adapter.go:343-438 | never stops; only pushed component snapshots and override snapshots not yet added are promoted; a failed lookup requeues unless the component is not found; an error requeues; otherwise the snapshot is marked added |
| `SnapshotAdapter.Adapter.CreateMissingReleasesForReleasePlans` | internal/controller/snapshot/snapshot_adapter.go:646-689 | the releases become those of `CreateMissingReleases` |
| `SnapshotAdapter.Adapter.ReportReleaseError` | internal/controller/snapshot/snapshot_adapter.go:459-471 | the integration status is marked errored unless that patch fails, and the outcome is `ReleaseErrorOutcome` |
| `SnapshotAdapter.Adapter.EnsureAllReleasesExist` | internal/controller/snapshot/snapshot_adapter.go:443-503 | never stops; a snapshot that cannot be promoted, or was already auto-released, is left alone; a failure to list the plans or to create a release marks the integration status errored (unless that patch fails) and requeues while young, without marking auto-released; without error the snapshot is marked auto-released, with no plans too, and the error mark is kept |
| `SnapshotAdapter.Adapter.ValidateOverrideComponents` | internal/controller/snapshot/snapshot_adapter.go:520-543 | the loop equals the corrected `ValidateUpTo` |
| `SnapshotAdapter.Adapter.CheckNextEntry` | internal/controller/snapshot/snapshot_adapter.go:520-543 | one iteration of the validation loop takes the problems found for the first `j` entries to those for the first `j + 1` |
| `SnapshotAdapter.Adapter.CheckOverrideEntry` | internal/controller/snapshot/snapshot_adapter.go:521-542 | one entry's check equals `ComponentProblems` |
| `SnapshotAdapter.Adapter.EnsureOverrideSnapshotValid` | internal/controller/snapshot/snapshot_adapter.go:507-557 | only override snapshots not yet marked invalid are checked; a lookup error requeues; when it continues, the snapshot is marked invalid if and only if some entry is invalid |
| `SnapshotAdapter.Adapter.AnnotateSnapshot` | internal/controller/snapshot/snapshot_adapter.go:580-584 | the snapshot's group note is set, or the operation requeues with nothing changed when the annotation fails |
| `SnapshotAdapter.Adapter.HaveAllPipelineRunProcessedForPrGroup` | internal/controller/snapshot/snapshot_adapter.go:969-1011 | ready exactly when no build blocks; a running or failed build is noted on the snapshot; a build without a component snapshot only reports not ready |
| `SnapshotAdapter.FallbackAfterPromotion` | internal/controller/snapshot/snapshot_adapter.go:918-944 | a component promoted from an entry with a valid image and a revision contributes, as a fallback, exactly that image from its own repository at that revision |
| `SnapshotAdapter.Adapter.SelectGroupSources` | internal/controller/snapshot/snapshot_adapter.go:884-945 | the loop equals `SelectSources` |
| `SnapshotAdapter.Adapter.PrepareGroupSnapshot` | internal/controller/snapshot/snapshot_adapter.go:869-966 | the result equals `PreparedGroup` over the application's components |
| `SnapshotAdapter.Adapter.CreateGroupSnapshotAndNotify` | internal/controller/snapshot/snapshot_adapter.go:620-641 | `CreatedAndNotified`: the group is added exactly when its creation succeeds; the constituents are then notified with the group's index and it continues, or notified of the failure when creation is forbidden and it stops; any other failure, and a failed notification, requeues with no note |
| `SnapshotAdapter.Adapter.EnsureGroupSnapshotExist` | internal/controller/snapshot/snapshot_adapter.go:561-642 | push events, non-component snapshots and processed groups are left alone; a snapshot without group information is noted `NoGroupInfo`; a build that is still running or failed is noted `Held` with that build, and a build without a component snapshot holds the group back without a note; a group whose components cannot be found is noted `PrepareFailed`, and one with fewer than two open pull requests `TooFewComponents` with their number; each note that cannot be written requeues with nothing noted; a group snapshot is created only when its conditions hold, and then the outcome, notes and group snapshots are those `CreatedAndNotified` gives for the prepared group; it stops only when creation is forbidden |

## Left out

- Logging, audit events and metrics are not modelled. This includes the
  first-release latency metric and its `firstRelease` flag (lines 652-686).
- `retry.OnError` around the component lookup (lines 359-362) is not
  modelled. The backend's answer is taken as the outcome after retries.
- The snapshot's age is the `young` input, because the model has no wall
  clock. The threshold check `IsObjectYoungerThanThreshold` is not part of
  this model.
- Looking up a snapshot with an open pull request, `FindSnapshotWithOpenedPR`,
  calls the git provider. It is the `openPR` input: per component, a failure
  or the matching snapshot, if any.
- `SetControllerReference` (lines 774-777 and 953-957) and
  `SetAnnotationAndLabelForGroupSnapshot` (lines 959-963) are assumed to succeed.
- Group preparation errors: only not-found is treated as unrecoverable.
  `IsUnrecoverableMetadataError` (line 600) is not part of this model.
- The deferred best-effort write of the ledger (lines 252-261) is not modelled,
  because it only repeats a write the operation already made or attempted.
- Pipeline creation errors: an admission-webhook rejection (lines 822-827)
  counts as a validation rejection, `Invalid`.
- Notifications: notifying the component snapshots of a group is one backend
  call that succeeds or fails as a whole.
- Re-runs: resetting the snapshot's status conditions is modelled as
  clearing the `passed` marker.
- Promotion eligibility: `CanSnapshotBePromoted` is the `promotable` input.
- `HandleLoaderError` is modelled by its observable effect. Not-found
  continues, and any other error requeues.
- The test-status ledger's own methods are not part of this model.
  `InitStatuses`, `UpdateTestStatusIfChanged`, `ResetStatus` and
  `UpdateTestPipelineRunName` follow the documented behaviour: entries are
  never removed, an update creates a missing entry, and an update writes
  only when the state differs.
- Filtering scenarios by context, `FilterIntegrationTestScenariosWithContext`,
  is not part of this model. The scenarios passed in are those that apply.
- The PipelineRun builder chain (lines 755-772) is reduced to the fields the
  adapter relies on: name, snapshot, scenario, finalizer and resolver
  rewrite. `NewIntegrationPipelineRun` is assumed not to fail.
- Releases.ReleaseStep: a plan is skipped when a release for it exists now,
  including one created earlier in the same loop. The source matches against
  the list loaded before the loop, so the two differ only when a plan name is
  listed twice.
- `gitops.FindMatchingSnapshotComponent` (line 904) and
  `gitops.GetComponentSourceFromComponent` (line 920) are not part of this
  model. `Grouping.MatchingEntry` takes the first entry named after the
  component, or an empty entry when there is none.
  `Grouping.CandidateSource` takes the component's git source, with its
  revision replaced by the last built commit when one is recorded, and
  nothing without a git source.
- A backend answers each call the same way within one pass. A call that
  fails and then succeeds when repeated in the same pass is not modelled.
- RunCreation.CreateRunsIdempotent: holds only when both passes see the same
  backend, so a creation that failed fails again. For any two backends,
  `RunCreation.CreateRunsRetriesOnlyFailures` and
  `RunCreation.ReconcileTwiceNoDoubleRun` state what still holds.
- RunCreation.ReconcileTwiceCreatesOnce: holds only when both reconciliations
  see the same backend. For any two, `RunCreation.ReconcileTwiceNoDoubleRun`
  proves that no scenario gets a run in both.
- Run names: the cluster generates a pipeline run's name from a prefix. The
  model names the n-th run after its scenario and a counter, and
  `RunCreation.RunName` only promises that the name is not empty.

## Findings

| source | as written | input that shows it | evidently intended | confidence | as-written member | corrected member |
|---|---|---|---|---|---|---|
| internal/controller/snapshot/snapshot_adapter.go:539-541 | a missing git source joins `err`, which holds the digest check's result, so with a valid digest it joins nothing | an override snapshot entry for an existing component, with a valid `@sha256:` image digest and no git source | the entry is reported and the override snapshot is marked invalid | not executed | `Promotion.MissingGitSourceAccepted` | `Promotion.ValidateUpToNoProblemIff` |

`Promotion.ComponentProblemsAsWritten` models lines 533-542 as written, and
`Promotion.MissingGitSourceAccepted` shows that it accepts the entry above.
`Promotion.ComponentProblems` is the corrected check.
`SnapshotAdapter.Adapter.EnsureOverrideSnapshotValid` uses it, and it marks
the snapshot invalid exactly when some entry is invalid.
