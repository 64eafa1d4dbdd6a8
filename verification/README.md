# Governed local agents: a verified model

Dafny 4.11. `dafny verify dfyconfig.toml` checks the whole project.

The backend of the local-agents console is a set of state machines with stored records, guarded transitions and human
approvals. This project models five of them and proves what their guards are for.

`common` holds options, results and digests.

**The change pipeline** (`source_tree`, `source_targets`, `waves`, `waves_apply`, `waves_runs`, `waves_claims`,
`waves_calls`, `waves_sessions`, `waves_acceptance`, `waves_witness`, `waves_store`). Models are probed and approved,
plans and proposals generated and reviewed, and an approved implementation rewrites source files, undoes a partly done
apply, and can later be rolled back. The tree is a map from path to bytes that holds the sources and the backups
alike. The disk is an adversary: each write may raise before or after replacing the file, or read back differently, an
undo write may tear its file, and so may each write of a rollback. Main results: rolling back in reverse order undoes
any list of applies, shared files included, exactly when the contents fit and the restore writes land; an apply, and a
rollback, is all or nothing exactly when the disk left no other bytes behind; a half-restored implementation stays
stuck, and an accepted one is in place exactly when no rollback put a file back; every implementation has a chain of
accepted artefacts behind it.

**The resumable scan** (`scan`, `scan_stops`, `runtime`, `runtime_resumes`). Cancellation, clock and stat outcomes are
arbitrary functions, the tree is fixed. The answer of a request is defined without a loop; every chain, and every
tree, of interruptions and resumes that ends in PASS gives that answer; every interruption leaves a checkpoint from
which the request goes on where it stopped; where an execution stops, and what it has spent, can be read off the
candidates.

**Tasks, manifests, runs and reviews** (`task_board` and its `_invariant`, `_claims`, `_calls`, `_store`). The native
read-only operations and the external scanners are one machine under two configurations; the start and the end of a
run are separate steps, so runs of different tasks interleave. Main results: approvals are conserved (each bought one
run or still waits), a current draft can be carried through to its checkpoint, a returned task needs a fresh manifest,
records stay in agreement, and a run starts only in the world its manifest was prepared in.

**Tool trust and the planner** (`tool_ids`, `tool_spellings`, `tool_trust` and its `_invariant`, `_claims`, `_calls`,
`_store`; `planner`, `planner_claims`, `planner_choices`, `planner_capabilities`, `planner_witness`, `planner_run`).
The quality lab's logs with the index, baselines and quarantines derived from them, the admission records, the gates,
and the planner that reads them. Main results: index and baselines agree with the logs; selectable means unquarantined
under every spelling and accepted under approval, with a last run of that very result; a scanner runs exactly if its
last probe was good and found the same executable; quarantine and suspension are absorbing; a plan is ready exactly
when every step has an eligible candidate, and picks the highest score.

**The live probe** (`json_values`, `openapi_schema`, `request_body` and its `_nesting`, `_claims`, `_laws`;
`probe_settings`, `live_probe` and its `_verdicts`, `_readings`, `_outcome`, `_claims`, `_plan`, `_settings`,
`_witness`, `_run`). Schema resolution with its termination measure, the request builder, the search for settings, the
verdicts on replies, and the procedure with its guarded part and its closing part, written as scripts of requests and
checks. Replies are arbitrary, and every verdict is computed from them. Main results: a schema is built exactly when
it does not nest in itself; when a run is recorded as PASS and when it exits with zero, in terms of its replies alone,
and what that proves, down to the seven settings read before and after.

The modules ending in `_calls`, `_stops`, `_resumes`, `_choices`, `_laws`, `_plan`, `_readings` and `_settings` say
exactly when each call goes through, which refusal it gets otherwise, and what it leaves, in terms of the records and
names it starts from.

Operations that update stored records are methods of classes (`Store`, `AgenticRuntime`, `TaskStore`, `TrustStore`,
`SettingsFinder`, `Finder`, `Harness`), loops are loops, and the planner's sort works in place on an array; each is
proved equal to a function, and the claims are about runs of those functions.

## Conventions

A call is one atomic step; writes of state files and logs do not fail except where stated. Identifiers made by `uuid4`
are parameters that are never already in use. SHA-256 is an injective datatype constructor, the JSON and UTF-8
encodings of stored records and files are identities, scores are reals. Where a call into foreign code decides
something (a model, a scanner, a disk, an HTTP reply), its outcome is a parameter. So are, in the probe, the number a
text reads as and the paths of its API: the claims hold for any.

## Where the code falls short of what one would expect

Each point is proved, with the exact condition under which the expectation does hold.

- A file whose read-back raises after it was replaced keeps its new bytes: the undo list does not have it yet
  (`ReadBackFailureLeavesItsFile`, `ApplyIsAllOrNothingIff`).
- The restore loop of a rollback is not undone when a write fails: files before it are restored, the later ones are not
  (`RollbackExactly`, `RollbackIsAllOrNothingIff`), and every later rollback is refused until somebody edits the files
  (`StoppedRollbackIsStuckIff`, `HalfRestoredIsStuck`, `RollbackStopsHalfWay`).
- Acceptance looks at no file: a half-restored implementation can still be accepted and counts for progress
  (`HalfRestoredCanBeAccepted`, `HalfRestoredIsAccepted`); an accepted one is in place exactly when a rollback in its stead
  would have succeeded (`AcceptedIsInPlaceIff`).
- A proposal may carry 700,000 bytes, a target only 220,000: larger contents are applied and can never be rolled back
  (`OversizedChangePassesValidation`, `SessionRoundTrip`, `OversizedIsNeverRolledBack`).
- A quarantine whose write to the admission record fails leaves the direct scan endpoint open
  (`QuarantineStopsScansIff`); the planner normalises ids and is not fooled by another spelling (`QuarantineForbidsForGood`).
- A worse benchmark after acceptance reaches the planner but not the gates (`GatesOutliveTheBenchmark`,
  `SecondBenchmarkDividesThem`).
- An approved run that is no longer among the last 500 cannot be accepted (`AcceptSucceedsIff`, `PushedOutOfTheWindow`).
- A score of zero sorts as minus one (`SortPicksHighestIff`, `ZeroLosesToANegativeScore`); lab scores never meet the case
  (`PlansPickTheHighestScore`).
- A required name that is not declared is not missed (`RequiredIsPresentIffDeclared`); a required property whose value is null
  is dropped from the body (`RequiredReachesTheBodyIff`, `NullDefaultIsDropped`); a schema that nests in itself through
  unknown properties, directly or in a round, is never built (`BuiltIffAcyclic`, `SelfReferenceIsNeverBuilt`,
  `MutualReferenceIsNeverBuilt`).
- The gates of the probe do not belong to the candidate: a positive field anywhere in the run list proves one, beside a FAIL
  in the generation reply (`GatesAreExistential`, `AnotherRunProvesTheGate`), and the name of a field counts as a phrase
  even if its value denies it (`DenialProvesTheGates`).
- A null settings reply lets a live PASS leave the settings changed (`PassWritesSettingsBackIff`,
  `NullSettingsAreLeftChanged`); a settings write without a confirmed answer is not restored
  (`UnconfirmedWriteIsNotRestored`, against `AcceptedWriteIsRestored`); a run cut short by the operator is recorded as PASS
  (`PassWithoutProofIff`, `InterruptAtFirstRequestIsRecordedAsPass`), although its exit code is not zero (`LiveExitZeroIff`);
  a preflight run exits with zero whatever its record says of the source (`PreflightExitIff`).

## Model

| member | source | states |
|---|---|---|
| `SourceTree.SafeTarget` | backend/src/palwakf_local_agents/full_stack_operational_waves_3_to_8_v1.py:604-614 | a path may be a target exactly when it exists, is in no excluded or hidden folder, has no blocked name or suffix, has a text extension and at most 220,000 bytes; then it reads as its content |
| `SourceTargets.TargetIff` | backend/src/palwakf_local_agents/full_stack_operational_waves_3_to_8_v1.py:604-614 | a path may be a target exactly if it leads through no hidden, version-control, build or state folder to a text file of at most 220,000 bytes that does not look like a secret; the refusals come in the order missing, blocked, no text, too large |
| `SourceTargets.SuffixIs` | backend/src/palwakf_local_agents/full_stack_operational_waves_3_to_8_v1.py:604-614 | the suffix of a name is what follows its last dot, with something before and after it |
| `SourceTargets.NoSuffixIff` | backend/src/palwakf_local_agents/full_stack_operational_waves_3_to_8_v1.py:604-614 | and there is none exactly without a dot, with the only dot in front, or with a dot at the end |
| `SourceTree.BackupsNeverAlias` | backend/src/palwakf_local_agents/full_stack_operational_waves_3_to_8_v1.py:793-801 | no admissible target lies among the backups, and two backups share a file only if they are of the same implementation and path |
| `Waves.CheckTargetsMeaning` | backend/src/palwakf_local_agents/full_stack_operational_waves_3_to_8_v1.py:786-791 | the checking loops pass exactly when every file is an admissible target holding its wanted hash |
| `Waves.ReadyToApply` | backend/src/palwakf_local_agents/full_stack_operational_waves_3_to_8_v1.py:768-791 | an apply that gets past its checks found the implementation approved and not yet applied, the token it was prepared with, its proposal accepted with the pinned hash, and every file with its preimage hash |
| `WavesRuns.NormalizeEditsMeaning` | backend/src/palwakf_local_agents/full_stack_operational_waves_3_to_8_v1.py:617-656 | validation succeeds exactly when every edit names a requested target, no path comes twice and the bytes fit, and then gives for each edit the current hash, the content and its hash |
| `WavesRuns.ValidatedIsWellFormed` | backend/src/palwakf_local_agents/full_stack_operational_waves_3_to_8_v1.py:617-656 | every validated proposal has at least one change, no path twice, and postimages that hash its contents |
| `WavesApply.SlotsAreSeparate` | backend/src/palwakf_local_agents/full_stack_operational_waves_3_to_8_v1.py:786-801 | during one apply no backup is a target and no two targets or backups coincide |
| `WavesApply.WriteFromEffect` | backend/src/palwakf_local_agents/full_stack_operational_waves_3_to_8_v1.py:797-805 | what every target and backup holds when the write loop stops, for any behaviour of the disk |
| `WavesApply.WriteFromFrame` | backend/src/palwakf_local_agents/full_stack_operational_waves_3_to_8_v1.py:797-805 | the write loop changes nothing but its targets and backups |
| `WavesApply.UndoEffect` | backend/src/palwakf_local_agents/full_stack_operational_waves_3_to_8_v1.py:806-810 | what every target holds after the undo loop, also when an undo write raises |
| `WavesApply.FailedWrites` | backend/src/palwakf_local_agents/full_stack_operational_waves_3_to_8_v1.py:796-810 | whatever the disk does, the exact contents a raising write loop and its undo leave behind |
| `WavesApply.ApplyIsAllOrNothingIff` | backend/src/palwakf_local_agents/full_stack_operational_waves_3_to_8_v1.py:786-821 | an apply let through fails exactly at the first change whose write raises or reads back differently, and then restores every source file exactly when neither that file nor an undo write was left with new bytes; records are untouched |
| `WavesApply.HonestApplyIsAllOrNothing` | backend/src/palwakf_local_agents/full_stack_operational_waves_3_to_8_v1.py:786-821 | if a completed write reads back as written and undo writes work, an apply that raises anywhere leaves every source file as before |
| `WavesApply.ReadBackFailureLeavesItsFile` | backend/src/palwakf_local_agents/full_stack_operational_waves_3_to_8_v1.py:802-809 | a file that was replaced but whose read-back raises is not undone: the promise fails there |
| `WavesApply.AppliedTree` | backend/src/palwakf_local_agents/full_stack_operational_waves_3_to_8_v1.py:786-821 | success changes exactly the distinct paths of the proposal to their new contents, with a backup hashing to each preimage |
| `WavesApply.RollbackIsRefused` | backend/src/palwakf_local_agents/full_stack_operational_waves_3_to_8_v1.py:839-844 | a rollback that does not find every applied content is refused and changes nothing, whatever the disk does |
| `WavesApply.RollbackExactly` | backend/src/palwakf_local_agents/full_stack_operational_waves_3_to_8_v1.py:839-856 | with whole backups a rollback succeeds exactly when every target still holds the applied bytes and every restore write lands; otherwise the exact contents it leaves behind |
| `WavesApply.RollbackIsAllOrNothingIff` | backend/src/palwakf_local_agents/full_stack_operational_waves_3_to_8_v1.py:839-856 | a rollback that the disk stops leaves the sources as they were exactly when the changes before the stop were no changes and the file it stopped at still has its applied bytes |
| `WavesApply.RestoreFromEffect` | backend/src/palwakf_local_agents/full_stack_operational_waves_3_to_8_v1.py:845-852 | what every target holds when the restore loop stops, for any behaviour of the disk |
| `WavesRuns.StepGrows` | backend/src/palwakf_local_agents/full_stack_operational_waves_3_to_8_v1.py:578-601 | no call alters a recorded body, hash, provenance or terminal status |
| `WavesRuns.RunGrows` | backend/src/palwakf_local_agents/full_stack_operational_waves_3_to_8_v1.py:578-601 | nor does any run of calls |
| `WavesRuns.ApplyFrame` | backend/src/palwakf_local_agents/full_stack_operational_waves_3_to_8_v1.py:796-810 | an apply, failed or not, changes only its own targets and backups |
| `WavesRuns.ApplyKeepsBackups` | backend/src/palwakf_local_agents/full_stack_operational_waves_3_to_8_v1.py:793-810 | applying one implementation never touches the backups of another, even with shared targets |
| `WavesRuns.RollbackKeepsBackups` | backend/src/palwakf_local_agents/full_stack_operational_waves_3_to_8_v1.py:839-856 | neither does a rollback, however it ends |
| `WavesRuns.ReviewRefusalKeepsRecords` | backend/src/palwakf_local_agents/full_stack_operational_waves_3_to_8_v1.py:839-875 | an implementation review that raises changes no record, though a rollback may leave source files half restored |
| `WavesRuns.StepKeeps` | backend/src/palwakf_local_agents/full_stack_operational_waves_3_to_8_v1.py:318-875 | every call keeps the pipeline invariant: exact model approval, accepted provenance, equal hashes, whole backups of what is in force, one apply event per implementation |
| `WavesRuns.ReachableInv` | backend/src/palwakf_local_agents/full_stack_operational_waves_3_to_8_v1.py:318-875 | the invariant holds after every run of calls and outside edits from an initial state |
| `WavesClaims.EveryImplementationHasProvenance` | backend/src/palwakf_local_agents/full_stack_operational_waves_3_to_8_v1.py:578-784 | every implementation has an accepted proposal with an equal hash, an accepted plan, and model digests a person approved |
| `WavesClaims.AppliedAtMostOnce` | backend/src/palwakf_local_agents/full_stack_operational_waves_3_to_8_v1.py:772-821 | the evidence log never shows an implementation applied twice |
| `WavesClaims.ApplyNeverMissesItsProposal` | backend/src/palwakf_local_agents/full_stack_operational_waves_3_to_8_v1.py:779-784 | the accepted-proposal and hash-mismatch refusals of apply are unreachable |
| `WavesClaims.PlanningApprovalIsExact` | backend/src/palwakf_local_agents/full_stack_operational_waves_3_to_8_v1.py:318-370 | a model is approved for planning exactly when its digest is non-empty and the one a person approved; the revalidation error is unreachable |
| `WavesClaims.ProgressNeverDrops` | backend/src/palwakf_local_agents/full_stack_operational_waves_3_to_8_v1.py:878-891 | recomputed progress stays within 0..100 and never decreases over any run, rollbacks included |
| `WavesClaims.ReachableRollback` | backend/src/palwakf_local_agents/full_stack_operational_waves_3_to_8_v1.py:827-875 | in every reachable state and for any disk a rollback is refused with nothing changed, or restores the preimages up to the first write that does not land and leaves the later targets applied; its backups are never missing or wrong |
| `WavesClaims.HalfRestoredIsStuck` | backend/src/palwakf_local_agents/full_stack_operational_waves_3_to_8_v1.py:839-856 | a pending implementation with a target that no longer holds its applied bytes cannot be rolled back, now or after any run in which nothing else may write that file |
| `WavesClaims.StoppedRollbackIsStuckIff` | backend/src/palwakf_local_agents/full_stack_operational_waves_3_to_8_v1.py:839-856 | a rollback that the disk stopped can be repeated with success exactly when it had put nothing back, and otherwise leaves the implementation stuck |
| `WavesCalls.ProbedIs` | backend/src/palwakf_local_agents/full_stack_operational_waves_3_to_8_v1.py:318-340 | a probe never touches an approval, and leaves a model approved for planning exactly if the digest listed is not empty and the approved one |
| `WavesCalls.ModelApprovedIff` | backend/src/palwakf_local_agents/full_stack_operational_waves_3_to_8_v1.py:343-358 | a model is approved exactly if it is available with a digest |
| `WavesCalls.PlanRecordedIff` | backend/src/palwakf_local_agents/full_stack_operational_waves_3_to_8_v1.py:539-575 | a plan is recorded exactly for a model that may generate and a valid body, and awaits review |
| `WavesCalls.PlanReviewedIff` | backend/src/palwakf_local_agents/full_stack_operational_waves_3_to_8_v1.py:578-601 | a plan is reviewed exactly while it awaits it, and only its status changes |
| `WavesCalls.ProposalReviewedIff` | backend/src/palwakf_local_agents/full_stack_operational_waves_3_to_8_v1.py:578-601 | so is a proposal |
| `WavesCalls.ProposalRecordedIff` | backend/src/palwakf_local_agents/full_stack_operational_waves_3_to_8_v1.py:659-711 | a proposal is recorded exactly under an accepted plan, for distinct files that are targets, by a model that may generate, with acceptable edits |
| `WavesCalls.ProposalRecords` | backend/src/palwakf_local_agents/full_stack_operational_waves_3_to_8_v1.py:687-711 | and pins for each edit the file as it is and as it will be, and all hashes together |
| `WavesCalls.ImplementationPreparedIff` | backend/src/palwakf_local_agents/full_stack_operational_waves_3_to_8_v1.py:714-765 | an implementation is prepared exactly for an accepted proposal that is not applied and whose files are as they were; it pins the proposal and the token by hash |
| `WavesCalls.ApplyIsLetThroughIff` | backend/src/palwakf_local_agents/full_stack_operational_waves_3_to_8_v1.py:768-791 | in every reachable state an apply gets past its checks exactly if the implementation is approved and not yet applied, the token is the one it was prepared with and every file still holds its preimage; otherwise nothing changes, and the error says which |
| `WavesCalls.OnlyItsTokenApplies` | backend/src/palwakf_local_agents/full_stack_operational_waves_3_to_8_v1.py:772-791 | over any run after an implementation is prepared: a call with another token is refused and changes nothing, and it is applied by a call with its own token or not at all |
| `WavesCalls.ApplyRecords` | backend/src/palwakf_local_agents/full_stack_operational_waves_3_to_8_v1.py:811-821 | what a successful apply records, and nothing else |
| `WavesCalls.AcceptedIff` | backend/src/palwakf_local_agents/full_stack_operational_waves_3_to_8_v1.py:827-875 | an implementation is accepted exactly while it awaits a review, and only its status changes |
| `WavesCalls.ReviewRefusal` | backend/src/palwakf_local_agents/full_stack_operational_waves_3_to_8_v1.py:828-837 | whatever the verdict, unknown and not awaiting a review are refused as such, and a missing proposal never is the reason |
| `WavesCalls.RollbackRecords` | backend/src/palwakf_local_agents/full_stack_operational_waves_3_to_8_v1.py:853-875 | what a successful rollback records |
| `WavesSessions.Bracket` | backend/src/palwakf_local_agents/full_stack_operational_waves_3_to_8_v1.py:768-875 | an apply, anything that leaves its implementation pending and its files as applied, and its rollback: the rollback succeeds exactly when every applied content fits and every restore write lands, and restores the sources |
| `WavesSessions.SessionKeepsPending` | backend/src/palwakf_local_agents/full_stack_operational_waves_3_to_8_v1.py:768-875 | a well-nested session takes away no pending review of an implementation it does not review itself |
| `WavesSessions.SessionRoundTrip` | backend/src/palwakf_local_agents/full_stack_operational_waves_3_to_8_v1.py:768-875 | every well-nested session of applies and rollbacks, on shared files too, with any other calls in between (acceptances, failed applies and edits included) that leave the open implementations and their files alone: all rollbacks succeed exactly when every applied content is within the target limit and every restore write lands, and then the sources are what they were but for those the other calls changed |
| `WavesSessions.ReverseRollbackRestoresTheSources` | backend/src/palwakf_local_agents/full_stack_operational_waves_3_to_8_v1.py:768-875 | any list of implementations applied in order and rolled back in reverse: all rollbacks succeed exactly when the contents fit and the restore writes land, and then the sources are restored |
| `WavesSessions.OversizedChangePassesValidation` | backend/src/palwakf_local_agents/full_stack_operational_waves_3_to_8_v1.py:636-638 | the two limits disagree: a change that can never be rolled back passes validation |
| `WavesAcceptance.AcceptanceLooksAtNoFile` | backend/src/palwakf_local_agents/full_stack_operational_waves_3_to_8_v1.py:827-875 | a pending implementation is accepted whatever its files hold: the tree stays as it is, the record becomes accepted and counts |
| `WavesAcceptance.AppliedIsInPlaceIff` | backend/src/palwakf_local_agents/full_stack_operational_waves_3_to_8_v1.py:768-821 | right after a successful apply the targets are admissible files with the applied bytes exactly when every content is within the target limit |
| `WavesAcceptance.AcceptedIsInPlaceIff` | backend/src/palwakf_local_agents/full_stack_operational_waves_3_to_8_v1.py:827-875 | from a state where an implementation stands applied, through any calls of which only its own reviews may write its files: while pending it can be accepted, and is then in place exactly when every rollback of it in between was stopped before it put anything back, which is when a rollback in place of the acceptance would have succeeded |
| `WavesAcceptance.HalfRestoredCanBeAccepted` | backend/src/palwakf_local_agents/full_stack_operational_waves_3_to_8_v1.py:827-891 | so one that a stopped rollback left half restored is accepted, stays half restored, and adds its 35 points to the progress, up to 100 |
| `WavesWitness.EveryEditCanBeApplied` | backend/src/palwakf_local_agents/full_stack_operational_waves_3_to_8_v1.py:318-824 | from any tree and for any edits within the limits, eight calls from the initial registry lead to an implementation that is applied and pending |
| `WavesWitness.OversizedIsNeverRolledBack` | backend/src/palwakf_local_agents/full_stack_operational_waves_3_to_8_v1.py:604-856 | if one of those edits is beyond the target limit, the rollback is refused for the size alone, whatever the disk does |
| `WavesWitness.SomeChangeIsOversized` | backend/src/palwakf_local_agents/full_stack_operational_waves_3_to_8_v1.py:604-638 | and such a tree and edit exist |
| `WavesWitness.RollbackStopsHalfWay` | backend/src/palwakf_local_agents/full_stack_operational_waves_3_to_8_v1.py:839-856 | with two or more files and a disk that puts the first back and raises at the second, the rollback fails with the first file as before the apply and the second as applied |
| `WavesWitness.HalfRestoredIsAccepted` | backend/src/palwakf_local_agents/full_stack_operational_waves_3_to_8_v1.py:827-891 | that state is reachable; from it every rollback fails on every disk, while an acceptance succeeds and takes the progress from 35 to 70 with the first file still not in place |
| `WavesWitness.SomeRollbackIsHalvable` | backend/src/palwakf_local_agents/full_stack_operational_waves_3_to_8_v1.py:604-638 | and such a tree and such edits exist |
| `WavesStore.Store.ProbeModels` | backend/src/palwakf_local_agents/full_stack_operational_waves_3_to_8_v1.py:318-340 | on the stored maps and files: the models probed; new state and error are those of the specification the claims are about |
| `WavesStore.Store.ApproveModel` | backend/src/palwakf_local_agents/full_stack_operational_waves_3_to_8_v1.py:343-358 | on the stored maps and files: a person approves a model; new state and error are those of the specification the claims are about |
| `WavesStore.Store.GeneratePlan` | backend/src/palwakf_local_agents/full_stack_operational_waves_3_to_8_v1.py:539-575 | on the stored maps and files: a plan recorded for review; new state and error are those of the specification the claims are about |
| `WavesStore.Store.ReviewPlan` | backend/src/palwakf_local_agents/full_stack_operational_waves_3_to_8_v1.py:578-601 | on the stored maps and files: a plan reviewed once; new state and error are those of the specification the claims are about |
| `WavesStore.Store.ReviewProposal` | backend/src/palwakf_local_agents/full_stack_operational_waves_3_to_8_v1.py:578-601 | on the stored maps and files: a proposal reviewed once; new state and error are those of the specification the claims are about |
| `WavesStore.Store.GenerateProposal` | backend/src/palwakf_local_agents/full_stack_operational_waves_3_to_8_v1.py:659-711 | on the stored maps and files: a proposal recorded for review; new state and error are those of the specification the claims are about |
| `WavesStore.Store.PrepareImplementation` | backend/src/palwakf_local_agents/full_stack_operational_waves_3_to_8_v1.py:714-765 | on the stored maps and files: an implementation prepared; new state and error are those of the specification the claims are about |
| `WavesStore.Store.ApplyImplementation` | backend/src/palwakf_local_agents/full_stack_operational_waves_3_to_8_v1.py:768-824 | on the stored maps and files: the file transaction; new state and error are those of the specification the claims are about |
| `WavesStore.Store.ReviewImplementation` | backend/src/palwakf_local_agents/full_stack_operational_waves_3_to_8_v1.py:827-875 | on the stored maps and files: the acceptance or the rollback; new state and error are those of the specification the claims are about |
| `WavesStore.Store.WriteAll` | backend/src/palwakf_local_agents/full_stack_operational_waves_3_to_8_v1.py:796-810 | the write loop with its list of applied files, and the undo over that list |
| `WavesStore.Store.RestoreAll` | backend/src/palwakf_local_agents/full_stack_operational_waves_3_to_8_v1.py:845-852 | the restore loop of a rollback |
| `WavesStore.Validate` | backend/src/palwakf_local_agents/full_stack_operational_waves_3_to_8_v1.py:617-656 | the validation loop with its set of seen paths and running byte count |
| `WavesStore.FirstStale` | backend/src/palwakf_local_agents/full_stack_operational_waves_3_to_8_v1.py:786-791 | the loop over targets and their hashes |
| `Scan.StatWithRetry` | backend/src/palwakf_local_agents/agentic_core_v1/runtime.py:258-271 | the attempts of one stat: all failed before the one that succeeded, and no more retries than allowed |
| `Scan.AnswerIsUnique` | backend/src/palwakf_local_agents/agentic_core_v1/runtime.py:436-497 | a request over a fixed tree has one answer: manifest and byte total |
| `Scan.ScanStep` | backend/src/palwakf_local_agents/agentic_core_v1/runtime.py:436-497 | one turn of the loop goes on from the advanced cursor, stops as the budgets say, or is interrupted where it stood |
| `Scan.ScanIsFaithful` | backend/src/palwakf_local_agents/agentic_core_v1/runtime.py:397-510 | from any cursor the uninterrupted scan passes, an execution ends in the answer or at such a cursor, never at a lower index |
| `Scan.ScanRetries` | backend/src/palwakf_local_agents/agentic_core_v1/runtime.py:258-271 | one execution spends at most max_retries on each candidate it deals with |
| `Scan.CalmScanPasses` | backend/src/palwakf_local_agents/agentic_core_v1/runtime.py:436-510 | without cancellation, timeout or exhausted stat the scan passes |
| `ScanStops.ScanEnds` | backend/src/palwakf_local_agents/agentic_core_v1/runtime.py:258-510 | every execution stops at the first candidate that interrupts it or exhausts a budget: interrupted there if it is cancelled, out of time or lacks a stat, in this order, and passed otherwise; manifest, bytes and retries are those of the candidates before it, exactly |
| `ScanStops.InterruptedIff` | backend/src/palwakf_local_agents/agentic_core_v1/runtime.py:436-455 | an execution is interrupted exactly if it reaches a candidate that interrupts it |
| `Scan.RegularsAreASubsequence` | backend/src/palwakf_local_agents/agentic_core_v1/runtime.py:456-497 | the manifest keeps the order of the sorted candidates |
| `Scan.ChainWithinBudgets` | backend/src/palwakf_local_agents/agentic_core_v1/runtime.py:436-510 | however a chain of executions ends, one execution included, and wherever it is interrupted, what it has taken is at most max_files entries and max_bytes bytes, the total is the sum of the sizes, and it is a subsequence of the candidates |
| `Scan.ChainRefinesOneShot` | backend/src/palwakf_local_agents/agentic_core_v1/runtime.py:397-510 | any chain of interruptions, each resumed from its checkpoint, that passes gives the answer, and its index never decreases |
| `Scan.ChainRetries` | backend/src/palwakf_local_agents/agentic_core_v1/runtime.py:258-271 | after k retryable failures a chain has spent at most max_retries times (candidates + k) |
| `Scan.ChainEndsLikeOneShot` | backend/src/palwakf_local_agents/agentic_core_v1/runtime.py:397-510 | a chain whose last execution is calm passes with the manifest and bytes of the uninterrupted scan |
| `Runtime.Begin` | backend/src/palwakf_local_agents/agentic_core_v1/runtime.py:417-434 | an execution that starts does so within the candidates |
| `Runtime.AgenticRuntime.Execute` | backend/src/palwakf_local_agents/agentic_core_v1/runtime.py:397-510 | one execution: checkpoints and receipts afterwards are those of the specification |
| `Runtime.AgenticRuntime.ScanLoop` | backend/src/palwakf_local_agents/agentic_core_v1/runtime.py:436-497 | the loop that updates manifest, bytes and retries |
| `Runtime.AgenticRuntime.Stat` | backend/src/palwakf_local_agents/agentic_core_v1/runtime.py:258-271 | the retry loop around stat |
| `RuntimeResumes.StartsIff` | backend/src/palwakf_local_agents/agentic_core_v1/runtime.py:198-231 | a new execution starts with nothing taken or spent; one that resumes starts exactly from a checkpoint of this runtime, for this request, with a manifest and an index in range |
| `RuntimeResumes.ResumeRefusal` | backend/src/palwakf_local_agents/agentic_core_v1/runtime.py:198-231 | which of the eight refusals a resume gets |
| `RuntimeResumes.InterruptionLeavesItsCheckpoint` | backend/src/palwakf_local_agents/agentic_core_v1/runtime.py:285-309 | an execution that starts leaves its receipt, and exactly if it was interrupted a checkpoint under its own id that says why and from which this request, and no other, goes on where it stopped; nothing else changes |
| `RuntimeResumes.ResumesAreTheChain` | backend/src/palwakf_local_agents/agentic_core_v1/runtime.py:397-510 | executions that each resume the checkpoint the one before left carry the request on as the chain of scans does in memory |
| `RuntimeResumes.InterruptedRequestsEndLikeOneShot` | backend/src/palwakf_local_agents/agentic_core_v1/runtime.py:285-510 | a request interrupted any number of times, resumed each time from the checkpoint it left and calm at last, ends with a PASS on record that has the manifest and bytes of the uninterrupted scan |
| `RuntimeResumes.ResumingIsARun` | backend/src/palwakf_local_agents/agentic_core_v1/runtime.py:397-510 | resuming is a run like any other, so what holds over all runs holds of it |
| `Runtime.EveryPassIsTheAnswer` | backend/src/palwakf_local_agents/agentic_core_v1/runtime.py:397-510 | for any tree of executions and resumes, with checkpoints reused at will, every PASS receipt holds the one answer of its request |
| `Runtime.RecordsAreWithinBudgets` | backend/src/palwakf_local_agents/agentic_core_v1/runtime.py:397-510 | over any tree of executions and resumes every checkpoint and every PASS receipt on record is within the budgets of its request, adds up, and keeps the order of the candidates |
| `Runtime.SameRequestSameAnswer` | backend/src/palwakf_local_agents/agentic_core_v1/runtime.py:397-510 | two PASS receipts of one request agree, so resuming one checkpoint twice gives the same answer |
| `Runtime.ResumeRequiresTheSameBinding` | backend/src/palwakf_local_agents/agentic_core_v1/runtime.py:198-231 | a written checkpoint resumes exactly where it stopped under the request that wrote it, and under no other |
| `TaskBoardInvariant.StepKeeps` | backend/src/palwakf_local_agents/quality_gated_read_only_operations_wave1_v1.py:288-726 | every call of either machine keeps the invariant tying tasks, manifests, runs and checkpoints together |
| `TaskBoardInvariant.OthersStay` | backend/src/palwakf_local_agents/quality_gated_external_scanners_wave2_v1.py:317-711 | a call about one task disturbs the records of no other, however runs interleave |
| `TaskBoardInvariant.AfterKeeps` | backend/src/palwakf_local_agents/quality_gated_external_scanners_wave2_v1.py:317-711 | the invariant holds after every interleaving of calls |
| `TaskBoardClaims.StepMoves` | backend/src/palwakf_local_agents/quality_gated_read_only_operations_wave1_v1.py:802-815 | every task moves along the documented diagram only, by the call the diagram names, exactly when that call goes through, and its request never changes |
| `TaskBoardClaims.TerminalIsForever` | backend/src/palwakf_local_agents/quality_gated_read_only_operations_wave1_v1.py:676-726 | an accepted, rejected or failed task keeps its status for ever |
| `TaskBoardClaims.ApprovedManifestRunsOnce` | backend/src/palwakf_local_agents/quality_gated_read_only_operations_wave1_v1.py:382-412 | no two runs share a manifest, every manifest run was approved, and the manifest of an approved task is unused |
| `TaskBoardClaims.ApprovalsAreConserved` | backend/src/palwakf_local_agents/quality_gated_external_scanners_wave2_v1.py:457-647 | over any run, the approvals given equal the runs started plus the approved tasks not yet run |
| `TaskBoardClaims.ReturnedNeedsFreshManifest` | backend/src/palwakf_local_agents/quality_gated_external_scanners_wave2_v1.py:365-495 | after its result is returned a task cannot be approved until a manifest is prepared for it, whatever else happens |
| `TaskBoardClaims.AwaitedResultIsCurrent` | backend/src/palwakf_local_agents/quality_gated_read_only_operations_wave1_v1.py:645-712 | a run awaiting review is the only such run of its task and the current one, under the current manifest, and its task awaits it too |
| `TaskBoardClaims.CheckpointsMatchAcceptedRuns` | backend/src/palwakf_local_agents/quality_gated_read_only_operations_wave1_v1.py:700-721 | checkpoints and accepted runs correspond one to one, with the hashes of the run and of its manifest |
| `TaskBoardClaims.CheckpointRecordsTheResult` | backend/src/palwakf_local_agents/quality_gated_external_scanners_wave2_v1.py:581-693 | a checkpoint carries the hash of the very result its run returned, however many calls lie between |
| `TaskBoardClaims.StartNeverFindsTheRequestChanged` | backend/src/palwakf_local_agents/quality_gated_read_only_operations_wave1_v1.py:414-427 | the stale-request, missing-manifest and unapproved-manifest refusals of a start are unreachable |
| `TaskBoardClaims.StartedRunsCanLand` | backend/src/palwakf_local_agents/quality_gated_read_only_operations_wave1_v1.py:617-726 | a started run can always finish, and a review succeeds exactly for a result that awaits it |
| `TaskBoardClaims.CoreAndRequestStay` | backend/src/palwakf_local_agents/quality_gated_external_scanners_wave2_v1.py:380-454 | what a manifest pins and what a task asks for never change |
| `TaskBoardClaims.TasksAreProper` | backend/src/palwakf_local_agents/quality_gated_external_scanners_wave2_v1.py:317-362 | after any calls every task is for a known tool that is not held back, with the hash of local rules exactly if the tool needs them |
| `TaskBoardClaims.StartRunsWhatWasPrepared` | backend/src/palwakf_local_agents/quality_gated_external_scanners_wave2_v1.py:498-516 | a task starts only if the baseline and, for scanners, version, binary and local rules are those of the moment its manifest was prepared |
| `TaskBoardCalls.CreatedIff` | backend/src/palwakf_local_agents/quality_gated_external_scanners_wave2_v1.py:317-362 | a task is created exactly for a tool of the machine that is not held, with its scope, for scanners with the gate open and local rules for semgrep only; it is a draft that records the request |
| `TaskBoardCalls.CreationRefusal` | backend/src/palwakf_local_agents/quality_gated_external_scanners_wave2_v1.py:317-339 | which of the refusals it is |
| `TaskBoardCalls.SubmittedIff` | backend/src/palwakf_local_agents/quality_gated_read_only_operations_wave1_v1.py:315-327 | a task is submitted exactly while it is a draft or returned |
| `TaskBoardCalls.PreparedIff` | backend/src/palwakf_local_agents/quality_gated_external_scanners_wave2_v1.py:380-454 | a manifest is prepared exactly in the states the machine allows, with the gate open, the scope resolved and the rules as recorded; it pins task, gate, request and rules |
| `TaskBoardCalls.PreparationRefusal` | backend/src/palwakf_local_agents/quality_gated_external_scanners_wave2_v1.py:380-400 | which of the refusals it is |
| `TaskBoardCalls.ApprovedIff` | backend/src/palwakf_local_agents/quality_gated_read_only_operations_wave1_v1.py:382-412 | on every reachable board a task is approved exactly if it awaits review with a manifest not approved before |
| `TaskBoardCalls.StartedIff` | backend/src/palwakf_local_agents/quality_gated_read_only_operations_wave1_v1.py:414-427 | on every reachable board a run starts exactly for an approved task whose gate is open on the pinned baseline and, for scanners, with the pinned version, binary and rules; it flies under the hash of that manifest |
| `TaskBoardCalls.StartRefusal` | backend/src/palwakf_local_agents/quality_gated_external_scanners_wave2_v1.py:498-516 | which of the refusals it is, in the order baseline, version, binary, rules |
| `TaskBoardCalls.FinishedIff` | backend/src/palwakf_local_agents/quality_gated_read_only_operations_wave1_v1.py:623-674 | a started run ends with a record of its result that awaits review, or with a failed task and none |
| `TaskBoardCalls.ReviewedIff` | backend/src/palwakf_local_agents/quality_gated_read_only_operations_wave1_v1.py:676-726 | a result is reviewed exactly while it awaits it: run and task get the same verdict, and an acceptance its checkpoint |
| `TaskBoardCalls.DraftsCanBeAccepted` | backend/src/palwakf_local_agents/quality_gated_read_only_operations_wave1_v1.py:329-726 | from any reachable board a draft whose gate stays open and whose scope and rules stay can be prepared, submitted, approved, run and accepted, with a checkpoint of the result and of what the gate reported |
| `TaskBoardStore.TaskStore.CreateTask` | backend/src/palwakf_local_agents/quality_gated_read_only_operations_wave1_v1.py:288-313 | on the stored maps: a draft, or one of the refusals of either machine; new state and error are those of the specification the claims are about |
| `TaskBoardStore.TaskStore.SetTaskStatus` | backend/src/palwakf_local_agents/quality_gated_read_only_operations_wave1_v1.py:315-327 | on the stored maps: a status write; new state and error are those of the specification the claims are about |
| `TaskBoardStore.TaskStore.SubmitTask` | backend/src/palwakf_local_agents/quality_gated_read_only_operations_wave1_v1.py:825-830 | on the stored maps: the submission; new state and error are those of the specification the claims are about |
| `TaskBoardStore.TaskStore.PrepareManifest` | backend/src/palwakf_local_agents/quality_gated_read_only_operations_wave1_v1.py:329-380 | on the stored maps: the pinned manifest; new state and error are those of the specification the claims are about |
| `TaskBoardStore.TaskStore.ApproveTask` | backend/src/palwakf_local_agents/quality_gated_read_only_operations_wave1_v1.py:382-412 | on the stored maps: the approval of task and manifest; new state and error are those of the specification the claims are about |
| `TaskBoardStore.TaskStore.StartRun` | backend/src/palwakf_local_agents/quality_gated_read_only_operations_wave1_v1.py:602-621 | on the stored maps: the start of a run; new state and error are those of the specification the claims are about |
| `TaskBoardStore.TaskStore.FinishRun` | backend/src/palwakf_local_agents/quality_gated_read_only_operations_wave1_v1.py:623-674 | on the stored maps: its end, with or without a result; new state and error are those of the specification the claims are about |
| `TaskBoardStore.TaskStore.ReviewResult` | backend/src/palwakf_local_agents/quality_gated_read_only_operations_wave1_v1.py:676-726 | on the stored maps: the review, with its checkpoint; new state and error are those of the specification the claims are about |
| `ToolIds.NormalizeIdempotent` | backend/src/palwakf_local_agents/quality_accepted_tools_goal_planner_binding_v1.py:146-149 | a normalised tool id normalises to itself |
| `ToolSpellings.KeptStays` | backend/src/palwakf_local_agents/quality_accepted_tools_goal_planner_binding_v1.py:146-149 | a stretch of letters, digits, underscores, dots and dashes stays, in small letters |
| `ToolSpellings.OthersBecomeADash` | backend/src/palwakf_local_agents/quality_accepted_tools_goal_planner_binding_v1.py:146-149 | a stretch of other characters becomes one dash |
| `ToolSpellings.CleanIs` | backend/src/palwakf_local_agents/quality_accepted_tools_goal_planner_binding_v1.py:146-149 | and dashes at either end do not count |
| `ToolSpellings.AliasIs` | backend/src/palwakf_local_agents/quality_accepted_tools_goal_planner_binding_v1.py:48-56 | eight spellings are aliases of four ids, every other id stands for itself |
| `ToolIds.CatalogIdsStayApart` | backend/src/palwakf_local_agents/quality_accepted_tools_goal_planner_binding_v1.py:48-56 | the ids of the quality catalog normalise to distinct canonical ids |
| `ToolTrustInvariant.FindRunMeaning` | backend/src/palwakf_local_agents/tool_quality_lab_wave1_v1.py:649-660 | a run is found exactly when it is among the last lines searched |
| `ToolTrustInvariant.StepKeeps` | backend/src/palwakf_local_agents/tool_quality_lab_wave1_v1.py:559-759 | every call of the lab and of the admission keeps the invariant of logs, index, baselines and records |
| `ToolTrustInvariant.ReachableInv` | backend/src/palwakf_local_agents/tool_quality_lab_wave1_v1.py:559-759 | it holds after any sequence of calls |
| `ToolTrustClaims.IndexAgreesWithLogs` | backend/src/palwakf_local_agents/tool_quality_lab_wave1_v1.py:559-683 | a tool has a card exactly when it has a logged run; the card projects the last one, and its review status is the latest logged review of that run or pending |
| `ToolTrustClaims.BaselinesWereApproved` | backend/src/palwakf_local_agents/tool_quality_lab_wave1_v1.py:699-730 | every baseline is of a logged, eligible run of its tool whose latest review approved it at some moment of the review log |
| `ToolTrustClaims.AcceptSucceedsIff` | backend/src/palwakf_local_agents/tool_quality_lab_wave1_v1.py:699-730 | acceptance succeeds exactly when the tool's last run is eligible, approved by its latest review, and among the last 500 runs |
| `ToolTrustClaims.PushedOutOfTheWindow` | backend/src/palwakf_local_agents/tool_quality_lab_wave1_v1.py:649-730 | a concrete history for every n: a good and approved run followed by n benchmarks of another tool is accepted as long as n is below 500, and refused as not found from then on |
| `ToolTrustClaims.ClassifyIsMonotone` | backend/src/palwakf_local_agents/tool_quality_lab_wave1_v1.py:181-192 | a failed gate alone decides; otherwise eligible means a score of at least 80, and a better score is never worse |
| `ToolTrustCalls.ClassificationIff` | backend/src/palwakf_local_agents/tool_quality_lab_wave1_v1.py:181-192 | each of the six results, exactly: a failed gate decides alone, no score means not assessed, and accepted needs at least 90 and no limitation |
| `ToolTrustCalls.BenchmarkedIff` | backend/src/palwakf_local_agents/tool_quality_lab_wave1_v1.py:580-646 | a benchmark is logged and carded exactly if its suite exists and its runner reports; a failed gate, and nothing else, quarantines its tool |
| `ToolTrustCalls.ReviewedIff` | backend/src/palwakf_local_agents/tool_quality_lab_wave1_v1.py:663-683 | a run is reviewed exactly if it is among the last 500, and shown on its tool's card exactly if it is the last run of that tool |
| `ToolTrustCalls.AcceptanceKeeps` | backend/src/palwakf_local_agents/tool_quality_lab_wave1_v1.py:699-730 | an accepted baseline is that of the tool's last run with the limitations given, and every refusal has its own reason |
| `ToolTrustCalls.QuarantinedIs` | backend/src/palwakf_local_agents/tool_quality_lab_wave1_v1.py:733-759 | what a quarantine writes: its reason, and the admission record of a tool it reaches |
| `ToolTrustCalls.ProbedIs` | backend/src/palwakf_local_agents/open_source_tools_operational_admission_wave1_v1.py:507-550 | a probe leaves a suspended record suspended and a deferred tool deferred; otherwise a missing executable or a failed version probe holds the tool, and only a good probe takes it where it belongs |
| `ToolTrustCalls.SuspendedIs` | backend/src/palwakf_local_agents/open_source_tools_operational_admission_wave1_v1.py:799-812 | a suspension of a known record |
| `ToolTrustCalls.ScanStartsIff` | backend/src/palwakf_local_agents/open_source_tools_operational_admission_wave1_v1.py:643-675 | a scan starts exactly for a scanner that is registered, admitted and not suspended, with its scope, its rules if it is semgrep, and the executable last probed |
| `ToolTrustCalls.ScanRefusalIs` | backend/src/palwakf_local_agents/open_source_tools_operational_admission_wave1_v1.py:643-664 | which of the ten refusals it is |
| `ToolTrustCalls.ScanFinishes` | backend/src/palwakf_local_agents/open_source_tools_operational_admission_wave1_v1.py:710-721 | only a timeout suspends, and only the tool of the scan |
| `ToolTrustCalls.ScannerGateIff` | backend/src/palwakf_local_agents/quality_gated_external_scanners_wave2_v1.py:208-258 | the scanner gate opens exactly for an admitted scanner under no quarantine with a good baseline, and shows that baseline |
| `ToolTrustCalls.NativeGateIff` | backend/src/palwakf_local_agents/quality_gated_read_only_operations_wave1_v1.py:228-240 | the native gate opens exactly for a good baseline under no quarantine |
| `ToolTrustCalls.ScannerRunsIff` | backend/src/palwakf_local_agents/open_source_tools_operational_admission_wave1_v1.py:519-675 | after any history a registered scanner scans exactly if nothing suspended it, its last probe found an executable with a good version, and that executable, by hash, is the one found now |
| `ToolTrustClaims.QuarantineIsForever` | backend/src/palwakf_local_agents/tool_quality_lab_wave1_v1.py:733-759 | no later call lifts a quarantine |
| `ToolTrustClaims.SuspensionIsForever` | backend/src/palwakf_local_agents/open_source_tools_operational_admission_wave1_v1.py:507-550 | no later call, probes included, lifts a suspension |
| `ToolTrustClaims.ClosedForGoodIffSuspended` | backend/src/palwakf_local_agents/open_source_tools_operational_admission_wave1_v1.py:643-662 | no later sequence of calls lets a registered scanner scan exactly when its record is suspended |
| `ToolTrustClaims.QuarantineStopsScansIff` | backend/src/palwakf_local_agents/tool_quality_lab_wave1_v1.py:745-757 | a quarantine stops a scanner's direct scans for good exactly when its write to the admission record lands or had nothing left to do |
| `ToolTrustClaims.TimeoutStopsScans` | backend/src/palwakf_local_agents/open_source_tools_operational_admission_wave1_v1.py:710-721 | a scan that timed out stops them just as permanently |
| `ToolTrustClaims.QuarantineClosesTheGates` | backend/src/palwakf_local_agents/quality_gated_external_scanners_wave2_v1.py:208-218 | whether or not the admission write lands, a quarantined tool never passes a project gate again, and no task resting on it is prepared or started |
| `ToolTrustClaims.OpenGateMeansApproved` | backend/src/palwakf_local_agents/quality_gated_external_scanners_wave2_v1.py:238-243 | a gate opens only on a baseline approved when it was accepted |
| `ToolTrustClaims.OpenGateMeansAdmitted` | backend/src/palwakf_local_agents/quality_gated_external_scanners_wave2_v1.py:232-258 | a scanner that passes the project gate is not suspended, and is refused a scan only for its scope, its rules or its binary |
| `ToolTrustStore.FindRun` | backend/src/palwakf_local_agents/tool_quality_lab_wave1_v1.py:656-660 | the reverse search of the last log lines |
| `ToolTrustStore.LatestReview` | backend/src/palwakf_local_agents/tool_quality_lab_wave1_v1.py:686-696 | the forward scan of the review log |
| `ToolTrustStore.TrustStore.PersistRun` | backend/src/palwakf_local_agents/tool_quality_lab_wave1_v1.py:559-577 | on the stored logs and maps: a logged run and its card; new state and error are those of the specification the claims are about |
| `ToolTrustStore.TrustStore.QuarantineTool` | backend/src/palwakf_local_agents/tool_quality_lab_wave1_v1.py:733-759 | on the stored logs and maps: the quarantine and its write to the admission record; new state and error are those of the specification the claims are about |
| `ToolTrustStore.TrustStore.RunSuite` | backend/src/palwakf_local_agents/tool_quality_lab_wave1_v1.py:580-646 | on the stored logs and maps: a finished benchmark, with automatic quarantine; new state and error are those of the specification the claims are about |
| `ToolTrustStore.TrustStore.ReviewRun` | backend/src/palwakf_local_agents/tool_quality_lab_wave1_v1.py:663-683 | on the stored logs and maps: a logged review; new state and error are those of the specification the claims are about |
| `ToolTrustStore.TrustStore.AcceptBaseline` | backend/src/palwakf_local_agents/tool_quality_lab_wave1_v1.py:699-730 | on the stored logs and maps: an accepted baseline; new state and error are those of the specification the claims are about |
| `ToolTrustStore.TrustStore.ApplyProbe` | backend/src/palwakf_local_agents/open_source_tools_operational_admission_wave1_v1.py:519-550 | on the stored logs and maps: a probed record; new state and error are those of the specification the claims are about |
| `ToolTrustStore.TrustStore.Suspend` | backend/src/palwakf_local_agents/open_source_tools_operational_admission_wave1_v1.py:799-812 | on the stored logs and maps: a suspension; new state and error are those of the specification the claims are about |
| `ToolTrustStore.TrustStore.StartScan` | backend/src/palwakf_local_agents/open_source_tools_operational_admission_wave1_v1.py:643-675 | on the stored logs and maps: the checks before a scan; new state and error are those of the specification the claims are about |
| `ToolTrustStore.TrustStore.FinishScan` | backend/src/palwakf_local_agents/open_source_tools_operational_admission_wave1_v1.py:710-721 | on the stored logs and maps: its end; new state and error are those of the specification the claims are about |
| `PlannerClaims.SortedIsAPermutation` | backend/src/palwakf_local_agents/quality_accepted_tools_goal_planner_binding_v1.py:375-382 | the sort loses and invents no row |
| `PlannerClaims.SortedDescends` | backend/src/palwakf_local_agents/quality_accepted_tools_goal_planner_binding_v1.py:375-382 | it is descending by the key |
| `PlannerClaims.SortedHeadIsFirstBest` | backend/src/palwakf_local_agents/quality_accepted_tools_goal_planner_binding_v1.py:375-382 | the row it puts first is the first, in candidate order, of those with the greatest key |
| `PlannerClaims.SortPicksHighestIff` | backend/src/palwakf_local_agents/quality_accepted_tools_goal_planner_binding_v1.py:375-382 | that row has the highest score exactly when no zero score is outranked by one in (-1, 0), or by an earlier -1, the key of zero being -1 |
| `PlannerClaims.ZeroLosesToANegativeScore` | backend/src/palwakf_local_agents/quality_accepted_tools_goal_planner_binding_v1.py:375-382 | two concrete rows where the tool with the lower score is chosen |
| `PlannerClaims.ReadyIffEveryStepHasACandidate` | backend/src/palwakf_local_agents/quality_accepted_tools_goal_planner_binding_v1.py:349-408 | a plan is ready exactly when every step has an accepted candidate, or a limited one under a referenced approval |
| `PlannerClaims.LimitedApprovalOnlyAdds` | backend/src/palwakf_local_agents/quality_accepted_tools_goal_planner_binding_v1.py:353-384 | limited approval never blocks a ready plan, never changes a step with an accepted tool, and adds limited tools only |
| `PlannerClaims.ChosenIsEligible` | backend/src/palwakf_local_agents/quality_accepted_tools_goal_planner_binding_v1.py:371-384 | a chosen tool is a candidate, in the state its basis names, first best among those, and limited only if no candidate is accepted |
| `PlannerClaims.LatestByToolMeaning` | backend/src/palwakf_local_agents/quality_accepted_tools_goal_planner_binding_v1.py:193-199 | the entry kept for a tool comes from a row whose id normalises to it |
| `PlannerClaims.SelectableIff` | backend/src/palwakf_local_agents/quality_accepted_tools_goal_planner_binding_v1.py:215-309 | after any history of the lab a tool is selectable exactly when no quarantine names it under any spelling and its card matches its baseline by hash |
| `PlannerChoices.SelectableRunIff` | backend/src/palwakf_local_agents/quality_accepted_tools_goal_planner_binding_v1.py:215-309 | after any history of the lab a tool is accepted exactly if it is under no quarantine, its last logged run failed no gate and scored at least 90 without any limitation, and that run has the hash of its baseline; limited exactly if that run scored at least 80 and fell short of this |
| `PlannerChoices.LatestIsLast` | backend/src/palwakf_local_agents/quality_accepted_tools_goal_planner_binding_v1.py:193-199 | of all rows that name a tool under any spelling the last one counts |
| `PlannerChoices.DecisionIs` | backend/src/palwakf_local_agents/quality_accepted_tools_goal_planner_binding_v1.py:248-309 | the decision on any records: an active quarantine forbids, a good result without a baseline of the same fingerprint is to be revalidated, every other stands |
| `PlannerChoices.DecisionReasons` | backend/src/palwakf_local_agents/quality_accepted_tools_goal_planner_binding_v1.py:248-282 | a reason is given exactly if it stood in the way |
| `PlannerChoices.CandidatesIff` | backend/src/palwakf_local_agents/quality_accepted_tools_goal_planner_binding_v1.py:334-346 | the candidates of a step are the tools it names, or else the canonical tools with every required capability, and none if it requires nothing |
| `PlannerCapabilities.CapabilityIff` | backend/src/palwakf_local_agents/quality_accepted_tools_goal_planner_binding_v1.py:37-46 | a tool has a capability exactly if it is one of the tools that serve it |
| `PlannerChoices.ExplicitOrder` | backend/src/palwakf_local_agents/quality_accepted_tools_goal_planner_binding_v1.py:334-337 | named candidates come once, in the order in which they are first named |
| `PlannerChoices.StepChoiceIff` | backend/src/palwakf_local_agents/quality_accepted_tools_goal_planner_binding_v1.py:349-408 | each step gets a tool exactly if an accepted candidate is in the snapshot, or a limited one that may be used under a referenced approval; the basis says which, and the plan is ready exactly if every step gets one |
| `PlannerClaims.SelectableWasApproved` | backend/src/palwakf_local_agents/tool_quality_lab_wave1_v1.py:699-730 | and then its latest result is, by hash, that of a run accepted while its latest review approved it |
| `PlannerClaims.UncataloguedIsNeverSelectable` | backend/src/palwakf_local_agents/quality_accepted_tools_goal_planner_binding_v1.py:231-309 | a canonical tool without a catalog id is never selectable |
| `PlannerClaims.QuarantineForbidsForGood` | backend/src/palwakf_local_agents/quality_accepted_tools_goal_planner_binding_v1.py:248-253 | a quarantine of any spelling forbids the tool to every later plan, whether or not its admission write landed |
| `PlannerClaims.GatesOutliveTheBenchmark` | backend/src/palwakf_local_agents/quality_gated_external_scanners_wave2_v1.py:238-243 | after a benchmark with another result, short of a quarantine, the gates answer as before while the planner drops the tool |
| `PlannerWitness.SecondBenchmarkDividesThem` | backend/src/palwakf_local_agents/quality_gated_external_scanners_wave2_v1.py:238-243 | such a history for any good result and any other that fails no safety gate: first gate and planner both admit the tool, after the second benchmark only the gate does |
| `PlannerClaims.SelectableScores` | backend/src/palwakf_local_agents/tool_quality_lab_wave1_v1.py:181-192 | over any history an accepted tool scored at least 90 and a limited one at least 80 |
| `PlannerClaims.ChosenToolsWereApproved` | backend/src/palwakf_local_agents/quality_accepted_tools_goal_planner_binding_v1.py:349-408 | every tool any plan chooses after any history is under no quarantine and went through acceptance and approval |
| `PlannerClaims.PlansPickTheHighestScore` | backend/src/palwakf_local_agents/quality_accepted_tools_goal_planner_binding_v1.py:371-384 | over any history of the lab the chosen tool has the highest score among the eligible ones |
| `PlannerRun.LatestByTool` | backend/src/palwakf_local_agents/quality_accepted_tools_goal_planner_binding_v1.py:193-199 | the loop that keeps the last row of each tool, computing the planner function the claims are about |
| `PlannerRun.LoadSnapshot` | backend/src/palwakf_local_agents/quality_accepted_tools_goal_planner_binding_v1.py:215-309 | the loop over canonical tools, computing the planner function the claims are about |
| `PlannerRun.ExplicitIds` | backend/src/palwakf_local_agents/quality_accepted_tools_goal_planner_binding_v1.py:334-337 | normalised candidates without repetition, computing the planner function the claims are about |
| `PlannerRun.CandidateIds` | backend/src/palwakf_local_agents/quality_accepted_tools_goal_planner_binding_v1.py:334-346 | explicit candidates or those with the capabilities, computing the planner function the claims are about |
| `PlannerRun.SortInPlace` | backend/src/palwakf_local_agents/quality_accepted_tools_goal_planner_binding_v1.py:376-380 | the stable descending sort in place, computing the planner function the claims are about |
| `PlannerRun.Insert` | backend/src/palwakf_local_agents/quality_accepted_tools_goal_planner_binding_v1.py:376-380 | one insertion of the sort, computing the planner function the claims are about |
| `PlannerRun.ChooseTool` | backend/src/palwakf_local_agents/quality_accepted_tools_goal_planner_binding_v1.py:371-384 | the choice for one step, computing the planner function the claims are about |
| `PlannerRun.EvaluatePlan` | backend/src/palwakf_local_agents/quality_accepted_tools_goal_planner_binding_v1.py:349-408 | the loop over steps, computing the planner function the claims are about |
| `OpenapiSchema.Resolve` | scripts/run_governed_live_probe_v1.py:197-224 | resolution ends on every document, cyclic references included, by references not yet seen and then schema size, and leaves no component reference at the top |
| `OpenapiSchema.SelfReferenceIsEmpty` | scripts/run_governed_live_probe_v1.py:203-204 | a component that only refers to itself resolves to nothing |
| `RequestBodyLaws.ReferenceIsFollowed` | scripts/run_governed_live_probe_v1.py:202-210 | a schema with a reference not met before is its component with the schema's own keys on top |
| `RequestBodyLaws.ResolvesAtOnce` | scripts/run_governed_live_probe_v1.py:198-204 | what is no object resolves to nothing, as does a reference met before; what neither refers nor combines is as it is |
| `RequestBodyLaws.SegmentIs` | scripts/run_governed_live_probe_v1.py:206 | the name of a component is what follows the last slash of the reference |
| `RequestBodyLaws.LastPartDecides` | scripts/run_governed_live_probe_v1.py:211-223 | in an allOf the last part that has a property, or any other key, decides it |
| `RequestBodyLaws.RequiredNamesAscend` | scripts/run_governed_live_probe_v1.py:222 | the required names of a combination come in order and once each |
| `OpenapiSchema.AllOfUnitesItsParts` | scripts/run_governed_live_probe_v1.py:211-223 | an allOf has exactly the properties of its parts and requires exactly what some part requires |
| `RequestBody.FillMeaning` | scripts/run_governed_live_probe_v1.py:519-537 | the property loop puts exactly the assigned values and reports exactly what is lacking |
| `RequestBodyLaws.BeforeIff` | scripts/run_governed_live_probe_v1.py:222 | in the order of their first different characters, a prefix first |
| `RequestBodyLaws.TypeIs` | scripts/run_governed_live_probe_v1.py:512-517 | the type of a schema is the one it states, or object for one with properties, or array for one with items |
| `RequestBodyLaws.SimpleBuildIs` | scripts/run_governed_live_probe_v1.py:540-545 | what is built of a schema that is no object: its default or an empty list, its first option, or its default, missing without one |
| `RequestBodyLaws.MissingPathsAre` | scripts/run_governed_live_probe_v1.py:517-539 | the missing paths are exactly those of required properties with neither a known value nor a default, at any level |
| `RequestBodyLaws.BodyIs` | scripts/run_governed_live_probe_v1.py:548-561 | no body without a schema or for one that is no object; otherwise what is built, less the top-level keys whose value is null |
| `RequestBodyNesting.BuildIffNests` | scripts/run_governed_live_probe_v1.py:506-545 | a schema is built at a recursion depth exactly when its unknown object properties nest no deeper |
| `RequestBodyNesting.BuiltIffAcyclic` | scripts/run_governed_live_probe_v1.py:506-545 | a schema is built at some recursion depth exactly when no schema at or below it nests in itself |
| `RequestBodyNesting.SelfReferenceIsNeverBuilt` | scripts/run_governed_live_probe_v1.py:525-531 | an object schema, declared or recognised by its properties, with an unknown property that resolves back to it is built at no depth |
| `RequestBodyNesting.MutualReferenceIsNeverBuilt` | scripts/run_governed_live_probe_v1.py:525-531 | nor are two that lead to each other |
| `RequestBodyNesting.RecursiveComponentIsNeverBuilt` | scripts/run_governed_live_probe_v1.py:197-224 | a concrete family: a component whose one property refers to the component |
| `RequestBodyClaims.NothingMissingMeansComplete` | scripts/run_governed_live_probe_v1.py:506-545 | a schema that does not nest in itself is built, and the same, at every recursion depth from some depth on; and if nothing is reported missing, every object built at every level has each of its required, declared properties |
| `RequestBodyClaims.RequiredIsPresentIffDeclared` | scripts/run_governed_live_probe_v1.py:517-537 | with nothing missing, a required name is present exactly if it is among the declared properties |
| `RequestBodyClaims.BuiltHoldsAssigned` | scripts/run_governed_live_probe_v1.py:519-537 | every property of a built object has its assigned value, and the missing list is empty exactly if nothing is lacking |
| `RequestBodyClaims.RequiredReachesTheBodyIff` | scripts/run_governed_live_probe_v1.py:548-561 | with nothing missing, a required, declared property reaches the request exactly unless its known value is null, or its default is, or the first option of a nested schema that is neither object nor array is; it is then dropped without being reported |
| `RequestBodyClaims.NullDefaultIsDropped` | scripts/run_governed_live_probe_v1.py:535-561 | such a schema: one required property with a null default gives an empty body with nothing missing |
| `RequestBodyClaims.DeeperBuildsTheSame` | scripts/run_governed_live_probe_v1.py:506-545 | allowing more recursion never changes a body that could be built |
| `ProbeSettings.FoundSettingsAreFirstBest` | scripts/run_governed_live_probe_v1.py:282-298 | the settings of a reply are its first object, outermost first, with the highest score |
| `ProbeSettings.FoundSettingsAreFoundAgain` | scripts/run_governed_live_probe_v1.py:323-338 | searching found settings again gives them back, so restoration reads the fields that were found |
| `ProbeSettings.SettingsFinder.Visit` | scripts/run_governed_live_probe_v1.py:282-298 | the recursive visit that updates the best object so far finds what the search over all objects finds |
| `ProbeSettings.FindSettings` | scripts/run_governed_live_probe_v1.py:282-298 | the search of one reply |
| `LiveProbeSettings.ScoreIsCount` | scripts/run_governed_live_probe_v1.py:288 | the score of an object is the number of the seven tell-tale names that some key of it spells |
| `LiveProbeSettings.ReadingIs` | scripts/run_governed_live_probe_v1.py:323-393 | what a comparison reads of each of the seven values: the last scalar field under the best name there is, or the field of its own name in an object that has no other names |
| `LiveProbeSettings.MatchIff` | scripts/run_governed_live_probe_v1.py:370-393 | settings match exactly if all seven values do, where only the API-key variable may be redacted |
| `LiveProbeSettings.RestoredIff` | scripts/run_governed_live_probe_v1.py:937-968 | settings count as restored exactly if each value reads as in the settings object found first |
| `LiveProbeSettings.WriteIsDueIff` | scripts/run_governed_live_probe_v1.py:800-815 | a live run writes the settings exactly if some value read first is not the one its arguments ask for |
| `LiveProbeSettings.LivePassRestoresEveryValue` | scripts/run_governed_live_probe_v1.py:937-971 | a live PASS that changed settings which were not null, no planned request interrupted: the write back was accepted, the read after it answered with 200, and mode, base URL, model, timeout, maximum output and temperature of that reply equal those first read, the API-key variable equal or redacted |
| `LiveProbeReadings.PositiveIff` | scripts/run_governed_live_probe_v1.py:638-652 | a status is positive exactly if it is true, or a text with one of five whole words and none of nine |
| `LiveProbeReadings.DeniesIff` | scripts/run_governed_live_probe_v1.py:657-664 | a denial is false or one of four texts, spaces and case aside |
| `LiveProbeReadings.MentionsIff` | scripts/run_governed_live_probe_v1.py:667-668 | a value mentions a word exactly if one of its keys or strings does |
| `LiveProbeReadings.EscapeIs` | scripts/run_governed_live_probe_v1.py:667-668 | what JSON text makes of a character: quotes, backslashes and control characters are escaped, nothing else |
| `LiveProbeReadings.ProbeProvenIff` | scripts/run_governed_live_probe_v1.py:673-686 | the provider is proved exactly by a positive status, a positive loopback field, a denied secret field and a mention of its name, anywhere in one reply |
| `LiveProbeReadings.GatesIff` | scripts/run_governed_live_probe_v1.py:882-913 | the eight gates by the field names and phrases they look for |
| `LiveProbeReadings.NewCandidateIff` | scripts/run_governed_live_probe_v1.py:689-694 | a candidate is new exactly if the first id named differs from the one named before, if any was |
| `LiveProbeReadings.SchemaIsAt` | scripts/run_governed_live_probe_v1.py:548-552 | where in the document the schema of a post is found |
| `LiveProbeReadings.NoApplyPathIff` | scripts/run_governed_live_probe_v1.py:753-760 | no path of the document lies under the coding model and applies, commits or writes source |
| `LiveProbeReadings.WithinLimitsIff` | scripts/run_governed_live_probe_v1.py:395-470 | one model, timeout, output size and temperature are authorised, and the bounds of the document must allow them |
| `LiveProbeReadings.LocalModelIff` | scripts/run_governed_live_probe_v1.py:575-619 | the last row of the inventory that names the model has no remote host or model, and completion among its abilities if it lists any |
| `LiveProbeVerdicts.FoundIffShown` | scripts/run_governed_live_probe_v1.py:622-635 | the recursive search finds exactly the values that some object of the document, however deep, has under a matching key |
| `LiveProbeVerdicts.GatesAreExistential` | scripts/run_governed_live_probe_v1.py:882-913 | each of the eight gates, exactly: structured output is the shape of the generation reply; the test, safety and review statuses are one positive field in any of the three replies, beside any contradictory one; the diff gate is a key alone; source apply is a denial or one of two phrases, and prompt, model and review a phrase, in any key or string |
| `LiveProbeVerdicts.DenialProvesTheGates` | scripts/run_governed_live_probe_v1.py:667-668 | a generation reply that says source_apply_blocked: false and human_review_required: false proves both gates, by the names of its fields |
| `LiveProbeVerdicts.AnotherRunProvesTheGate` | scripts/run_governed_live_probe_v1.py:882-905 | a gate may be proved by the run list's record of another candidate, whatever the generation reply says |
| `LiveProbeVerdicts.CandidateOfCombined` | scripts/run_governed_live_probe_v1.py:689-698 | the candidate of the three replies is the one named by the first of them that names any |
| `LiveProbeVerdicts.RecursiveFind` | scripts/run_governed_live_probe_v1.py:622-635 | the recursive visit that appends to the list of found values |
| `LiveProbeVerdicts.AnyDenial` | scripts/run_governed_live_probe_v1.py:657-664 | the loop that looks for a denial |
| `LiveProbeVerdicts.FindCandidate` | scripts/run_governed_live_probe_v1.py:689-694 | the loop that looks for the first candidate id |
| `LiveProbeVerdicts.SelectRow` | scripts/run_governed_live_probe_v1.py:594-610 | the loop that selects the inventory row of the model |
| `LiveProbeOutcome.StopIsFirst` | scripts/run_governed_live_probe_v1.py:736-931 | the action where a script stops is the first whose reply is not the wanted one or whose check fails |
| `LiveProbeOutcome.ScriptOutcome` | scripts/run_governed_live_probe_v1.py:736-931 | whatever the replies, a script sends its requests in order up to that action, and ends there, cut short exactly if the reply is an interruption |
| `LiveProbeOutcome.RestoreIs` | scripts/run_governed_live_probe_v1.py:937-971 | what a restoration sends, and when it goes through or is cut short, read off the next two replies |
| `LiveProbeOutcome.RecordIs` | scripts/run_governed_live_probe_v1.py:926-997 | record and exit code of any run as a function of the replies and the two snapshots |
| `LiveProbeClaims.SentFollowsThePlan` | scripts/run_governed_live_probe_v1.py:736-936 | the guarded part sends a prefix of its plan, all of it when it completes, with the settings write only when the settings do not match already |
| `LiveProbeClaims.PostsAreBounded` | scripts/run_governed_live_probe_v1.py:816-861 | a run asks for at most one generation and one provider probe and writes the settings at most twice; a preflight run posts nothing |
| `LiveProbeClaims.CompletedIff` | scripts/run_governed_live_probe_v1.py:736-915 | a run goes through its plan exactly when every reply is the wanted one and the replies prove the limits, the local model, the absence of an apply endpoint and, if live, the provider, a new candidate and all eight gates |
| `LiveProbePlan.PlanIs` | scripts/run_governed_live_probe_v1.py:736-883 | the requests of a run written out in order, with the bodies of its posts and the replies it wants |
| `LiveProbePlan.KnownIs` | scripts/run_governed_live_probe_v1.py:743-770 | which replies the document, the first settings and the earlier candidates are |
| `LiveProbePlan.BodiesResolveIff` | scripts/run_governed_live_probe_v1.py:774-788 | the bodies of all three posts can be built with nothing missing |
| `LiveProbePlan.SourceUnchangedIff` | scripts/run_governed_live_probe_v1.py:979-987 | both snapshots were taken, they agree, and there was something to take |
| `LiveProbePlan.CompletedByReplies` | scripts/run_governed_live_probe_v1.py:736-915 | a run goes through exactly when the replies at each place of the list have the status needed there and prove everything |
| `LiveProbeClaims.LivePassIff` | scripts/run_governed_live_probe_v1.py:736-997 | a live run is recorded as PASS exactly when no source changed, any settings to restore were restored and read back equal, and it went through its plan or the operator interrupted it |
| `LiveProbeClaims.PassWithoutProofIff` | scripts/run_governed_live_probe_v1.py:926-992 | the record is PASS without everything having gone through exactly when a request of the plan was interrupted, no source changed and any settings to restore were restored; the exit code is then not zero |
| `LiveProbeClaims.LivePassMeans` | scripts/run_governed_live_probe_v1.py:736-992 | a live PASS in which no planned request was interrupted proves by its replies the limits, the model, the missing apply endpoint, the provider, a new candidate and all eight gates; it sent exactly its plan, changed no source, and restored the settings it had changed unless those first read were null |
| `LiveProbeClaims.LivePassIsAnswered` | scripts/run_governed_live_probe_v1.py:743-883 | and every post in it was answered with success, every required read with 200 |
| `LiveProbeClaims.PassWritesSettingsBackIff` | scripts/run_governed_live_probe_v1.py:937-971 | after such a PASS that changed the settings they were written back exactly if the settings first read were not null |
| `LiveProbeWitness.NullSettingsAreLeftChanged` | scripts/run_governed_live_probe_v1.py:736-997 | a concrete run with a provider, a model, a document and replies that the procedure accepts, for any known values and any reading of numbers: recorded as PASS with exit code zero, it writes the settings once and never writes them back |
| `LiveProbeClaims.AcceptedWriteIsRestored` | scripts/run_governed_live_probe_v1.py:816-971 | however a run ends, an accepted settings write is followed by an attempt to restore settings that were not null, and one that does not go through is never recorded as PASS |
| `LiveProbeClaims.UnconfirmedWriteIsNotRestored` | scripts/run_governed_live_probe_v1.py:816-825 | a settings write that is not answered by success is never followed by a restoration, whatever the server did with it |
| `LiveProbeClaims.InterruptAtFirstRequestIsRecordedAsPass` | scripts/run_governed_live_probe_v1.py:926-992 | a run cut short at its very first request is recorded as PASS, although neither the provider, a candidate nor the gates can be proved from what it saw |
| `LiveProbeClaims.LiveExitZeroIff` | scripts/run_governed_live_probe_v1.py:991-997 | a live run exits with zero exactly when it went through its plan, no source changed and any settings to restore were restored; the record is then PASS |
| `LiveProbeClaims.PreflightExitIff` | scripts/run_governed_live_probe_v1.py:790-799 | a preflight run exits with zero exactly when it went through, so against its record exactly when the source then turns out changed or unreadable |
| `LiveProbeRun.Harness.Perform` | scripts/run_governed_live_probe_v1.py:740-746 | one request or check, stopping the run when it fails |
| `LiveProbeRun.Harness.RunScript` | scripts/run_governed_live_probe_v1.py:761-787 | a list of them |
| `LiveProbeRun.Harness.Attempt` | scripts/run_governed_live_probe_v1.py:736-936 | the guarded part, which notes whether the settings were changed |
| `LiveProbeRun.Harness.Restore` | scripts/run_governed_live_probe_v1.py:937-976 | the restoration |
| `LiveProbeRun.Harness.Run` | scripts/run_governed_live_probe_v1.py:701-997 | the whole procedure; its outcome is the one the claims are about |

## Left out

- HTTP routes, request validation by Pydantic, error-to-status mapping, dashboards, evidence listings and read-only views.
- Context packs, prompts, redaction and the parsing of model replies: a generated plan body or edit list is a parameter.
- Ill-typed model replies and hand-edited state files.
- A crash between two writes of state files, and races on reads outside the locks: calls are atomic.
- Symbolic links, directories, case-insensitive file systems and newline translation: a tree maps normalised paths to bytes.
- Faults of the state files during an apply or a rollback.
- The readiness check and the descriptive parts of the project state: counts and risks that nothing else reads.
- Authority validation of a scan request, the glob matching that selects candidates, and cancellation reasons: a request has a sorted list of candidates.
- Catalog and contract versions compared before a run: constants of the code that a running system cannot change.
- The notes and the timeout of a task, and its other fields that no later call reads.
- The execution of native tools and scanners, their command lines, outputs and stored reports: a run's result is a parameter.
- The benchmark runners: a suite reports a score, gates, limitations and detail; a scan inside a benchmark is a scan of its own.
- The displayed list of allowed operations of a tool, which nothing enforces.
- PlannerRun.LoadSnapshot: does not model planner rows whose state, score or fingerprint are read from alternative keys: a row has a state, an optional score and an optional fingerprint; NaN scores.
- Lower-casing of letters outside ASCII in tool ids and schema keys: such characters count as foreign to the alphabet.
- OpenAPI documents with ill-typed allOf, properties or required, where the source raises: they read as empty.
- The table of known values that fills request bodies: a parameter. Upper and lower case, and spaces, of letters outside ASCII in reply texts.
- Loopback and authorization checks before a probe run starts, request headers, timeouts, and evidence files; writing evidence does not fail.
- Equality of JSON numbers and booleans across types, as in 1 == true.
