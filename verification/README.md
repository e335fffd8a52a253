# The release control plane, in Dafny

A verified model of the scripts that move a trading kernel from one release to the next, and of the deterministic
algorithms they certify with. `dafny verify dfyconfig.toml` checks all of it.

**Cutover.** `run_cutover` drives seventeen phases through a durable journal. `CutoverMachine` is the run as a state
machine, one step an await, every answer of the environment a parameter: returned, raised, died before the effect,
died after it. `CutoverSafety` proves what each step keeps, `CutoverHistory` takes it to every interleaving of any
number of runs, `CutoverConvergence` shows that an uninterrupted run against a lawful world finishes, and
`CutoverRun` is the code itself, over a journal object with fields, proved to take the machine's steps. The phases a
run observed, the verifications it passed and the effects it applied are read from one append-only log; `CutoverTrace`
is that log as a protocol, event by event, without the machine, and `CutoverRecord` what the journal's rows say of it.

**Deployment.** `TokyoHost` is the host a deployment changes, every call able to raise before, after or within its
effect. `CompatibleUpgrade` and `RegularDeployment` are the two paths with their local flags and handlers;
`UpgradeState` and `RegularState` are what the flags tell of the host and what the handler makes of a failure,
`UpgradeRecord` what the calls of an upgrade say, `UpgradeGates` its checks, `UpgradeExits` the exits that are not the
designed ones. Every state the host passes is recorded, proved to follow the one before it lawfully and to be one a
rerun can start from; every effect is recorded with whether its call returned, every certification, probe and
confirming reading with what it saw. From these records the flags, the refusals and the exits are characterised.
`DeploymentPlans` is the validation in front of both, and the optional drain. `EntryPromotion` and `DeploymentDrain`
are the two protocols beside them.

**Selection and preservation.** `SorFeatures`, `SorRanking` and `SorSession` are the dynamic-selection golden:
window, true ranges, ranking in place, digests, and the verifier of the result. `CanonicalValue`, `Preservation` and
`Normalisation` are the preservation manifest and the reconstruction across migration 0008. `NumericWindow` is the
hourly series and its tail-slice window. `Ordering` and `Wrappers` are shared.

Digests are functions: a free datatype in `SorSession`, a function parameter in `Preservation` (injective where a
statement needs it). Prices and ratios are exact reals.

## What the proofs found

- The design reads as though the first application of the schema migration always followed a clean final
  verification of its own run. It does not: a crash between the migration's first journal row
  (scripts/trading_kernel/cutover_tokyo.py:713-720) and its effect makes the next run skip verification, and if the
  schema then reports unsatisfied that run is the first to apply it. `MigrationWithoutVerification` builds the
  history; `MigrationAppliedAfterClearance` gives the exact condition.
- A failed upgrade is meant to end with the source running, the target running or nothing running. With no fault in
  the handler that holds if and only if the current release was not already the target, or nothing ran
  (`DesignedExitsExactly`). Resumed on a running target, a stop that raises part of the way through and a refused
  recovery certification (scripts/trading_kernel/deploy_tokyo_release.py:645-652, 786-801) leave part of the target's
  services (`PartialStopRefused`).
- Nothing running is meant to say that a migration, or the storing of the fact, was tried and not confirmed. It can
  also say that the recovery certification was refused before the fact was tried (`StoppedBeforeTheFact`);
  `NothingRunsExactly` lists all the reasons.
- Recovery can leave the target running over the source's identity row: the fact is stored before the identity is
  rotated, and the handler activates on the fact alone
  (scripts/trading_kernel/deploy_tokyo_release.py:714-744 and 809-831). `TargetOverSourceIdentity` gives the calls,
  `IdentityExactly` the condition: the row is the target's exactly if a rotation took effect.
- Every failure of a promotion is meant to leave ENTRY fenced. An exception leaves it unfenced exactly if a removal took
  effect and the restoration, whose commands ignore their own failures
  (scripts/trading_kernel/promote_entry.py:222-224), never reached the fence (`ExceptionLeavesEntryUnfenced`).
- The session verifier checks how many ranks and selections there are, not their order (`VerifierIgnoresTheOrder`);
  `AcceptedIsRankedExactly` says what it would have to check.
- Release directories are keyed by twelve digits of the commit (`ReleaseSharing`).

## Model

| member | source | states |
|---|---|---|
| `FlatCutover.BlockersExact` | scripts/trading_kernel/verify_flat_cutover.py:194-266 | the gate reports no blocker exactly when every identity is equal, every count is zero and, if the writer fence is required, no writer is active and the fence is present |
| `FlatCutover.BlockersMean` | scripts/trading_kernel/verify_flat_cutover.py:194-266 | each blocker is reported exactly when its own comparison fails |
| `FlatCutover.BlockersAscend` | scripts/trading_kernel/verify_flat_cutover.py:194-266 | none twice, and all in the order of the table |
| `FlatCutover.VerifyCutoverFacts` | scripts/trading_kernel/verify_flat_cutover.py:194-266 | the blocker list is that of the ordered check table plus the fence checks, and passing means flat and identical |
| `FlatCutover.CollectFailed` | scripts/trading_kernel/verify_flat_cutover.py:194-253 | one blocker per failed check, in table order |
| `CutoverMachine.EveryStepDescends` | scripts/trading_kernel/cutover_tokyo.py:625-743 | whatever any await answers, a run comes nearer to its end; every run is bounded |
| `CutoverSafety.StepKeeps` | scripts/trading_kernel/cutover_tokyo.py:625-821 | one await, with any answer or a crash on either side of its effect, keeps the durable invariant and the runner invariant, and is licensed by the history before it |
| `CutoverSafety.StartDurable` | scripts/trading_kernel/cutover_tokyo.py:432-482 | starting a phase whose turn it is keeps journal and history in agreement, the row shape and the migration boundary |
| `CutoverSafety.UpdateDurable` | scripts/trading_kernel/cutover_tokyo.py:484-514 | completing or failing a phase keeps them too |
| `CutoverSafety.ApplyLicensed` | scripts/trading_kernel/cutover_tokyo.py:713-735 | an effect the loop reaches is one its run has earned |
| `CutoverSafety.StackedShape` | scripts/trading_kernel/cutover_tokyo.py:658-737 | the inductive shape means: no rows, the staged release alone, or an initial stretch of at least two phases |
| `CutoverHistory.HistoryConsistent` | scripts/trading_kernel/cutover_tokyo.py:625-743 | over every interleaving of launched, blocked, failed, crashed and resumed runs the invariant holds and the whole log is licensed |
| `CutoverHistory.AtMostOneRunner` | scripts/trading_kernel/cutover_tokyo.py:237-257 | two processes are never past the lock together |
| `CutoverHistory.OneIdentity` | scripts/trading_kernel/cutover_tokyo.py:259-360 | all runs and all effects under one cutover id used the same ten identities |
| `CutoverHistory.MigrationBoundary` | scripts/trading_kernel/cutover_tokyo.py:634-665 | a row from the migration onward means the six earlier phases are completed; the incomplete-after-upgrade guard never fires and no update ever misses its row |
| `CutoverHistory.MigrationBoundaryStays` | scripts/trading_kernel/cutover_tokyo.py:634-665 | and they stay completed through every continuation |
| `CutoverHistory.JournalShape` | scripts/trading_kernel/cutover_tokyo.py:384-530 | row set shape, `phase_order` as position, `attempt_count` as number of starts, `completed_at_ms` exactly when completed, `last_error` exactly when failed |
| `CutoverHistory.FirstMigrationRowIsCleared` | scripts/trading_kernel/cutover_tokyo.py:681-718 | the first journal row from the migration onward is its own and follows fence, stop and a clean final verification of the same run |
| `CutoverHistory.MigrationAppliedAfterClearance` | scripts/trading_kernel/cutover_tokyo.py:637-735 | an application of the migration follows, in its own run, the fence, the stop and a clean final verification if and only if no journal event from the migration onward lies before the beginning of that run; and a run had begun under the plan that is applied |
| `CutoverHistory.NothingEarlierAfterMigration` | scripts/trading_kernel/cutover_tokyo.py:658-665 | no pre-migration effect once the migration is journalled |
| `CutoverHistory.UnfenceIsLast` | scripts/trading_kernel/cutover_tokyo.py:658-735 | ENTRY is unfenced only when the last word of the log on each of the sixteen earlier phases is its completion and every phase from the migration to the postflight was seen satisfied in that run |
| `CutoverHistory.ClearedMeans` | scripts/trading_kernel/cutover_tokyo.py:791-821 | "cleared" is exactly: the log has, in the current run and in order, the fence and the stop seen satisfied and a clean final verification |
| `CutoverHistory.EarlyExactly` | scripts/trading_kernel/cutover_tokyo.py:637-644 | "early" is exactly: no journal event from the migration onward lies before the beginning of the current run |
| `CutoverHistory.CompletedMeans` | scripts/trading_kernel/cutover_tokyo.py:484-514 | a completed row is one whose last event in the log is its completion |
| `CutoverHistory.RunExtendsHistory` | scripts/trading_kernel/cutover_tokyo.py:625-743 | a run of the machine started on a free lock continues any history as a history |
| `CutoverTrace.TraceIsLawful` | scripts/trading_kernel/cutover_tokyo.py:625-821 | over every history, each event of the raw log is the beginning of a run or the one its run owes: preflight, phases, records, effects and checks follow each other exactly as the loop orders them, and an inspection counts as clean exactly when the gate finds the world flat and identical |
| `CutoverTrace.PreflightGoverns` | scripts/trading_kernel/cutover_tokyo.py:645-665 | in a run that began unmigrated, every row and effect outside the staging step follows a preflight of the same run that found the world flat and identical |
| `CutoverTrace.NothingAfterDirtyPreflight` | scripts/trading_kernel/cutover_tokyo.py:652-656 | nothing follows a preflight that is not clean until another run begins |
| `CutoverTrace.RunsEndFor` | scripts/trading_kernel/cutover_tokyo.py:632-743 | how every run ends: completed after the mark; refused for another plan, a dirty preflight or a failed final verification; raising what a read raised, or what it journalled last; cut off; after any other await it goes on |
| `CutoverTrace.RaisedEffectIsJournalled` | scripts/trading_kernel/cutover_tokyo.py:719-730 | an effect or check that raised is journalled as the failure of its phase, with the text it raised, and ends the run |
| `CutoverTrace.StepIsLawful` | scripts/trading_kernel/cutover_tokyo.py:625-821 | one await adds what the run owes, whatever the environment answers |
| `CutoverRecord.JournalRecord` | scripts/trading_kernel/cutover_tokyo.py:384-530 | in every history a row's start, completion and error are those of the last start, completion and failure in the log, and the run row is completed exactly if some run was marked, at the time of the last |
| `CutoverResumeGap.MigrationWithoutVerification` | scripts/trading_kernel/cutover_tokyo.py:691-735 | the counterexample history: a crash right after the first migration row, and a resumed run that is the first to apply the migration with no clearance anywhere in its log |
| `CutoverConvergence.ResumeConverges` | scripts/trading_kernel/cutover_tokyo.py:632-743 | from whatever any history left, one uninterrupted run against a lawful world ends with all seventeen phases and the run completed |
| `CutoverConvergence.CompletedRunIsQuiet` | scripts/trading_kernel/cutover_tokyo.py:632-743 | over a completed journal, while every phase from the migration onward is satisfied, a further run applies nothing and changes no row |
| `CutoverConvergence.OnTrackStep` | scripts/trading_kernel/cutover_tokyo.py:658-737 | each await of such a run keeps it on track |
| `CutoverRun.RunCutover` | scripts/trading_kernel/cutover_tokyo.py:625-743 | the code over fields: turned away without a trace, or journal, log and outcome are those of the machine on the answers given; the lock is free after every exit; the journal stays one of a history, its log a lawful trace and its rows the record of that log |
| `CutoverRun.RunPhase` | scripts/trading_kernel/cutover_tokyo.py:658-735 | one turn of the phase loop takes the steps of the machine |
| `CutoverRun.RunEffectPhase` | scripts/trading_kernel/cutover_tokyo.py:691-735 | the forced effect of the migration, the satisfied phase, the applied phase |
| `CutoverRun.ApplyJournalled` | scripts/trading_kernel/cutover_tokyo.py:713-735 | start, apply, check the postcondition, complete or fail; a return after exactly these events |
| `CutoverRun.TryEffect` | scripts/trading_kernel/cutover_tokyo.py:719-722 | the body of the try: completed after the effect and a satisfied check, failed for an unsatisfied one or with the text raised |
| `CutoverRun.FailPhase` | scripts/trading_kernel/cutover_tokyo.py:723-730 | the handler journals the failure and raises it again |
| `CutoverRun.StageReleaseBeforePreflight` | scripts/trading_kernel/cutover_tokyo.py:746-788 | the staging step before preflight |
| `CutoverRun.RunFinalVerification` | scripts/trading_kernel/cutover_tokyo.py:791-821 | the fresh final verification, its journalled refusal, and a return only after a flat, fenced and identical world |
| `CutoverRun.ScanMigration` | scripts/trading_kernel/cutover_tokyo.py:634-644 | true exactly when some phase from the migration onward has a row |
| `CutoverRun.PlanCutover` | scripts/trading_kernel/cutover_tokyo.py:652-656 | it returns exactly for a flat and identical world, is blocked for any other, and otherwise has seen nothing |
| `CutoverRun.RunIsHistorical` | scripts/trading_kernel/cutover_tokyo.py:625-743 | a run begun where a history ended ends where a history ends, and one that returns completed everything |
| `CutoverRun.PostgresCutoverJournal.EnsureRun` | scripts/trading_kernel/cutover_tokyo.py:259-360 | first writer wins; a different plan is refused |
| `CutoverRun.PostgresCutoverJournal.MarkPhaseStarted` | scripts/trading_kernel/cutover_tokyo.py:432-482 | insert with one attempt, or restart and count one more, for every fate of the call |
| `CutoverRun.PostgresCutoverJournal.UpdatePhase` | scripts/trading_kernel/cutover_tokyo.py:484-514 | completion or failure of a row; a missing row raises and writes nothing |
| `CutoverRun.PostgresCutoverJournal.MarkRunCompleted` | scripts/trading_kernel/cutover_tokyo.py:516-530 | the run row is completed, or its absence raises |
| `CompatibleUpgrade.DeployCompatibleUpgrade` | scripts/trading_kernel/deploy_tokyo_release.py:538-844 | every state of an upgrade follows the last lawfully and is one an upgrade can start from, recovery included; success is the target running at its identity and markers, certified throughout, after exactly the effects of the script; an exception is the one the try was left with, raised by a recorded call or refused on grounds in what was seen; its flags are those its calls earned; and with no fault in the handler the host is exactly what the handler makes of the failure, certified by itself exactly where it must be, at the target's identity exactly if a rotation took effect, and one of the three designed exits if the target was not already running |
| `CompatibleUpgrade.Upgrade.Transition` | scripts/trading_kernel/deploy_tokyo_release.py:645-769 | the body of the try keeps the relation between flags and host through any fault, and records the exception it is left with |
| `CompatibleUpgrade.Upgrade.EnterTransition` | scripts/trading_kernel/deploy_tokyo_release.py:645-652 | fence, stop, and nothing left that could write |
| `CompatibleUpgrade.Upgrade.MigrateConfirmed` | scripts/trading_kernel/deploy_tokyo_release.py:676-697 | the migration, and after an exception the one inspection that may still confirm it; both on record |
| `UpgradeRecord.MigrationOutcome` | scripts/trading_kernel/deploy_tokyo_release.py:676-697 | a migration that raised counts exactly if the inspection made after it found the target schema; one tried and not confirmed ends its try, inspected in vain |
| `UpgradeRecord.StoringOutcome` | scripts/trading_kernel/deploy_tokyo_release.py:714-720 | a fact tried and not counted as stored was read back in vain |
| `UpgradeRecord.CompletedScript` | scripts/trading_kernel/deploy_tokyo_release.py:645-760 | a successful upgrade, effect by effect: fence, stop, baseline, migration, fact, identity, activation, start |
| `UpgradeRecord.TryKeeps` | scripts/trading_kernel/deploy_tokyo_release.py:645-769 | each effect in its turn keeps record, script and flags together |
| `CompatibleUpgrade.Upgrade.RecordBaseline` | scripts/trading_kernel/deploy_tokyo_release.py:654-675 | the stopped source is certified and probed afresh, under the identity read before, and what it showed is recorded as the baseline |
| `UpgradeGates.VerifyPreservation` | scripts/trading_kernel/deploy_tokyo_release.py:698-713 | the migrated, still stopped database shows the same preservation digest, or the refusal has its grounds |
| `CompatibleUpgrade.Upgrade.PersistFact` | scripts/trading_kernel/deploy_tokyo_release.py:714-720 | persistence is marked tried before and confirmed after |
| `UpgradeGates.PersistExact` | scripts/trading_kernel/deploy_tokyo_release.py:847-860 | an exception of the write is forgiven exactly when the exact fact is read back |
| `CompatibleUpgrade.Upgrade.ActivateTarget` | scripts/trading_kernel/deploy_tokyo_release.py:721-752 | certification, identity rotation, activation and markers, in this order |
| `CompatibleUpgrade.Upgrade.Postflight` | scripts/trading_kernel/deploy_tokyo_release.py:956-1007 | the activated target, still stopped, holds the exact fact and identity, and shows the universe of a baseline of exactly this step |
| `UpgradeGates.RequireRunningPostflight` | scripts/trading_kernel/deploy_tokyo_release.py:922-953 | the running target is certified and probed under its identity, with the preserved universe, or the refusal has its grounds |
| `CompatibleUpgrade.Upgrade.StartTarget` | scripts/trading_kernel/deploy_tokyo_release.py:756-769 | target services start after the postflight and all run |
| `CompatibleUpgrade.Upgrade.Recover` | scripts/trading_kernel/deploy_tokyo_release.py:770-834 | a handler without faults leaves exactly `Handled` of the host and the flags at the failure |
| `CompatibleUpgrade.Upgrade.RecoverSource` | scripts/trading_kernel/deploy_tokyo_release.py:774-785 | nothing migrated: the source runs again, unchanged |
| `CompatibleUpgrade.Upgrade.RecoverMigrated` | scripts/trading_kernel/deploy_tokyo_release.py:786-831 | migrated: fact, symlink and services exactly as far as flags and certification allow |
| `UpgradeState.HandledByFlags` | scripts/trading_kernel/deploy_tokyo_release.py:770-834 | what the handler leaves, case by case of the flags and of its own certification; the identity row and ENTRY it never touches |
| `UpgradeState.DesignedExits` | scripts/trading_kernel/deploy_tokyo_release.py:770-834 | with another release current, or nothing running, at the start: source running, target running or nothing running |
| `UpgradeExits.DesignedExitsExactly` | scripts/trading_kernel/deploy_tokyo_release.py:770-834 | those are all the exits if and only if the current release was not the target, or nothing ran |
| `UpgradeExits.PartialStopRefused` | scripts/trading_kernel/deploy_tokyo_release.py:645-652 | the other direction: for every host that resumes a running target, the calls that end in none of the three |
| `UpgradeExits.NothingRunsExactly` | scripts/trading_kernel/deploy_tokyo_release.py:786-831 | nothing runs exactly when migration or persistence was tried and not confirmed, or the certification before the handler's own attempt was refused, or the fact's id was taken |
| `UpgradeExits.StoppedBeforeTheFact` | scripts/trading_kernel/deploy_tokyo_release.py:786-801 | the calls that leave nothing running with the migration confirmed and the fact never tried |
| `UpgradeState.IdentityExactly` | scripts/trading_kernel/deploy_tokyo_release.py:809-831 | after the handler the identity row is the target's exactly if a rotation took effect before the failure, or it was so all along |
| `UpgradeExits.TargetOverSourceIdentity` | scripts/trading_kernel/deploy_tokyo_release.py:714-744 | the calls that leave the target running over the source's identity row, where no regular deployment can start |
| `UpgradeExits.AllThreeHappen` | scripts/trading_kernel/deploy_tokyo_release.py:645-834 | the three at one concrete plan and host |
| `UpgradeState.EveryStateRestarts` | scripts/trading_kernel/deploy_tokyo_release.py:546-834 | an upgrade cut off anywhere leaves a host another one can start from |
| `UpgradeState.StartKeeps` | scripts/trading_kernel/deploy_tokyo_release.py:757-831 | services may start from the source on the source schema, or from the target with schema, fact and symlink in place |
| `UpgradeState.ActivateKeeps` | scripts/trading_kernel/deploy_tokyo_release.py:738-744 | the activation cut off anywhere is lawful with the fact stored and nothing running |
| `UpgradeState.MigrateKeeps` | scripts/trading_kernel/deploy_tokyo_release.py:676-697 | changing the schema is lawful only while nothing runs |
| `UpgradeState.NotYetActivated` | scripts/trading_kernel/deploy_tokyo_release.py:809-823 | with the database at the target and the symlink elsewhere nothing can be running |
| `CompatibleUpgrade.Preflight` | scripts/trading_kernel/deploy_tokyo_release.py:546-636 | before the fence only the target is installed, if it is missing and ENTRY is held; what passes is ready for the flags, from the certified and marked source or an interrupted upgrade of the same fact; a refusal has its grounds |
| `CompatibleUpgrade.CheckInterrupted` | scripts/trading_kernel/deploy_tokyo_release.py:597-636 | resuming demands the same fact, and an active target only with the fact stored |
| `RegularDeployment.DeployTokyoRelease` | scripts/trading_kernel/deploy_tokyo_release.py:321-454 | services only ever run from the current release with the database at its commit, and every state is one a deployment can start from; success leaves the certified target and a held ENTRY after exactly the effects of the script, or resumed exactly as the baseline preserved it; a handled failure raises the original exception, or that of the handler's own call, and leaves source, target or, between identity and activation, nothing running; a refusal has its grounds |
| `RegularDeployment.Deployment.Transition` | scripts/trading_kernel/deploy_tokyo_release.py:355-436 | the body of the try keeps the relation between flags and host through any fault, and records the exception it is left with |
| `RegularDeployment.Deployment.Recover` | scripts/trading_kernel/deploy_tokyo_release.py:437-444 | the handler fences, and starts services only before the identity was tried or after the activation returned; it stops at a call that raises |
| `RegularDeployment.Deployment.TakeOver` | scripts/trading_kernel/deploy_tokyo_release.py:383-416 | identity first, then the symlink, then their verification |
| `RegularDeployment.Deployment.StopSource` | scripts/trading_kernel/deploy_tokyo_release.py:356-382 | everything stopped and fenced, the source certified again under its identity, and what it showed recorded as the baseline, whose absence is refused |
| `RegularDeployment.Deployment.Postflight` | scripts/trading_kernel/deploy_tokyo_release.py:417-422 | the target passes its postflight, showing exactly what the baseline preserved, before observation is started |
| `RegularDeployment.RequireTargetPostflight` | scripts/trading_kernel/deploy_tokyo_release.py:975-1017 | the exact identity, and, unless the handover is closure-only, a baseline of exactly this step with runtime and posture unchanged |
| `RegularDeployment.RequireRunningPostflight` | scripts/trading_kernel/deploy_tokyo_release.py:922-949 | the running target shows the preserved universe and control posture |
| `RegularState.StartKeeps` | scripts/trading_kernel/deploy_tokyo_release.py:419-443 | a start is lawful exactly where the code starts |
| `RegularState.CompletedScript` | scripts/trading_kernel/deploy_tokyo_release.py:355-436 | a successful deployment, effect by effect: stop, fence, baseline, identity, activation, two services, all three |
| `RegularDeployment.ResumeRegularDeployment` | scripts/trading_kernel/deploy_tokyo_release.py:457-503 | a target that is already current is awaited, certified under its identity and markers, and shown to be what the baseline of exactly this step preserved; nothing is changed; a refusal has its grounds |
| `RegularDeployment.Preflight` | scripts/trading_kernel/deploy_tokyo_release.py:334-350 | the target is installed, and the certified current release is the one the database knows and its markers name |
| `DeploymentGates.RequireMarked` | scripts/trading_kernel/deploy_tokyo_release.py:411-416 | passes only when the three markers name the release |
| `DeploymentGates.RequireMarker` | scripts/trading_kernel/deploy_tokyo_release.py:1521-1528 | passes exactly on the expected marker |
| `DeploymentPlans.AcceptedUpgradeIsValid` | scripts/trading_kernel/deploy_tokyo_release.py:108-184 | an accepted upgrade carries a compatible fact of exactly this step and really changes the schema |
| `DeploymentPlans.AcceptedExactly` | scripts/trading_kernel/deploy_tokyo_release.py:108-184 | exactly which plans exist |
| `DeploymentPlans.EnablingEntryIsPlainRegular` | scripts/trading_kernel/deploy_tokyo_release.py:108-184 | only a plain regular plan can ask for ENTRY, and that path refuses it |
| `DeploymentPlans.ReleaseSharing` | scripts/trading_kernel/deploy_tokyo_release.py:111-115 | two accepted plans share a directory exactly when their commits agree in twelve digits |
| `DeploymentPlans.RunOptionalDeploymentDrain` | scripts/trading_kernel/deploy_tokyo_release.py:506-535 | fenced ENTRY, active source services, and a drain to flat; the host otherwise unchanged; each failure with what it saw |
| `DeploymentPlans.DeployAccepted` | scripts/trading_kernel/deploy_tokyo_release.py:321-330 | the drain if asked for, then the path of the mode: a returned deployment left the target running and ENTRY held after a flat drain; a failed drain is all that happens; one that enables ENTRY is refused without a call; and however it ends its path can start again |
| `TokyoHost.TokyoReleaseBackend.ActivateRelease` | scripts/trading_kernel/deploy_tokyo_release.py:1841-1882 | three markers, two lines of the runtime environment, the unit files and last the symlink, cut off after any of them |
| `TokyoHost.TokyoReleaseBackend.PersistCompatibilityFact` | scripts/trading_kernel/persist_runtime_release_fact.py:67-95 | an id that owns another fact is refused and kept |
| `TokyoHost.TokyoReleaseBackend.MigrationWritersStoppedAndEntryFenced` | scripts/trading_kernel/deploy_tokyo_release.py:1679-1693 | no worker, no Owner API, fence present, ENTRY disabled |
| `EntryPromotion.PromoteEntry` | scripts/trading_kernel/promote_entry.py:61-115 | the fence is removed only cleared; called fenced, an exception leaves it absent exactly if a removal took effect and the restoration never reached it; a return means ENTRY active and unfenced; called unfenced nothing changes; ENTRY is started exactly if it was found inactive; a failed try is restored; and every exception has its grounds, so with good observations and no raised call it returns |
| `EntryPromotion.AdmitFinally` | scripts/trading_kernel/promote_entry.py:99-108 | the second admission on the same basis digest, and the last expiry check after the last probe |
| `EntryPromotion.Admit` | scripts/trading_kernel/promote_entry.py:82-93 | authority, external match and stable workers, each refused for its own reason and on its own observation |
| `EntryPromotion.Approach` | scripts/trading_kernel/promote_entry.py:64-81 | which certification to admit, that there is nothing left to do, or the look that shows neither |
| `EntryPromotion.Guarded` | scripts/trading_kernel/promote_entry.py:94-115 | on an exception of the try the fence is absent exactly if a removal took effect and its restoration missed |
| `EntryPromotion.ExceptionLeavesEntryUnfenced` | scripts/trading_kernel/promote_entry.py:94-114 | the calls of a promotion that ends in an exception with ENTRY active and unfenced |
| `EntryPromotion.UnfencedOnlyOn` | scripts/trading_kernel/promote_entry.py:97-110 | field by field, the certification a removal of the fence rests on, and its expiry directly before |
| `EntryPromotion.AuthorityExactly` | scripts/trading_kernel/promote_entry.py:118-140 | exactly which certifications have authority |
| `DeploymentDrain.RunDeploymentDrain` | scripts/trading_kernel/deployment_control.py:31-77 | its calls follow the protocol exactly: the one request directly after the first "eligible", a sleep to the deadline of five seconds at most after every further wait; total sleep within the timeout, inspections within ceil(timeout/5)+2; each ending exactly at its own observation, the time-out only at the deadline and never before an eligible source was asked |
| `DeploymentDrain.RequestedIffEligible` | scripts/trading_kernel/deployment_control.py:59-71 | an eligible source not yet asked is asked next |
| `DeploymentDrain.AtMostOneRequest` | scripts/trading_kernel/deployment_control.py:54-71 | never a second request, and none unasked |
| `DeploymentDrain.SleepInside` | scripts/trading_kernel/deployment_control.py:74-77 | a sleep never passes the deadline and uses up one of the turns left |
| `DeploymentDrain.Sleeps` | scripts/trading_kernel/deployment_control.py:74-77 | the number of five-second sleeps that fit: the ceiling of a fifth of what remains |
| `SorFeatures.ExactWindow` | scripts/trading_kernel/verify_sor_dynamic_selection_golden.py:329-334 | every bar of the window, or the first open time missing |
| `SorFeatures.CollectTrueRanges` | scripts/trading_kernel/verify_sor_dynamic_selection_golden.py:366-376 | the loop computes the true ranges with the running previous close |
| `SorFeatures.TrueRangeMeans` | scripts/trading_kernel/verify_sor_dynamic_selection_golden.py:368-374 | a true range is the span of the bar's prices and the previous close |
| `SorFeatures.TrueRangesAt` | scripts/trading_kernel/verify_sor_dynamic_selection_golden.py:366-376 | one true range a bar, each against the close of the bar before |
| `SorFeatures.SumSplits` | scripts/trading_kernel/verify_sor_dynamic_selection_golden.py:381 | the sum of the true ranges adds up part by part |
| `SorFeatures.VolumeSplits` | scripts/trading_kernel/verify_sor_dynamic_selection_golden.py:382 | the activity adds up bar by bar |
| `SorFeatures.OpeningInFull` | scripts/trading_kernel/verify_sor_dynamic_selection_golden.py:378-379 | the opening range is that of the last four bars, and attained |
| `SorFeatures.SpanBound` | scripts/trading_kernel/verify_sor_dynamic_selection_golden.py:366-384 | true ranges together cover the span between the extremes of previous close, highs and lows |
| `SorFeatures.ZeroIffFlat` | scripts/trading_kernel/verify_sor_dynamic_selection_golden.py:366-384 | they vanish exactly when all those prices coincide |
| `SorFeatures.Extremes` | scripts/trading_kernel/verify_sor_dynamic_selection_golden.py:366-384 | what highest and lowest mean |
| `SorFeatures.MemberForSession` | scripts/trading_kernel/verify_sor_dynamic_selection_golden.py:353-427 | succeeds exactly on ninety-six quarter hours from 23 hours before the session, the last opening 45 minutes into it, and describes them; else names a missing bar or the drifted cutoff |
| `SorFeatures.AtrSpans` | scripts/trading_kernel/verify_sor_dynamic_selection_golden.py:366-384 | fourteen times the average is at least the span, and it is invalid exactly when no price moved |
| `SorFeatures.AtrIgnoresOtherBars` | scripts/trading_kernel/verify_sor_dynamic_selection_golden.py:360-384 | the average ignores the opening range and everything before the previous close |
| `SorFeatures.WindowIsLocal` | scripts/trading_kernel/verify_sor_dynamic_selection_golden.py:329-334 | bars outside the window change nothing |
| `SorFeatures.DescriptionIsUnique` | scripts/trading_kernel/verify_sor_dynamic_selection_golden.py:353-427 | the description determines the features |
| `Ordering.PlaceIsCount` | scripts/trading_kernel/verify_sor_dynamic_selection_golden.py:434-440 | the place of an element in the stable sort is the number of kept elements before it |
| `Ordering.SortedIsOrdered` | scripts/trading_kernel/verify_sor_dynamic_selection_golden.py:434-440 | the stable sort lists exactly the kept elements in order |
| `Ordering.StringLessMeans` | scripts/trading_kernel/verify_sor_dynamic_selection_golden.py:434-440 | strings are ordered by their first difference |
| `SorRanking.RanksAreABijection` | scripts/trading_kernel/verify_sor_dynamic_selection_golden.py:433-449 | ranks are a bijection from the ready members to 1..r |
| `SorRanking.RanksFollowTheKey` | scripts/trading_kernel/verify_sor_dynamic_selection_golden.py:434-441 | the smaller ratio has the smaller rank; of equal ratios the larger volume; of both equal the id that differs first by a smaller letter |
| `SorRanking.SelectedExactly` | scripts/trading_kernel/verify_sor_dynamic_selection_golden.py:441-449 | ranks one to seven are selected, which are the first seven of the sort, eight to fourteen near the threshold, later ones not selected, and members not ready ineligible |
| `SorRanking.RankingIgnoresOrder` | scripts/trading_kernel/verify_sor_dynamic_selection_golden.py:430-449 | the same members in any order get the same decisions |
| `SorSession.RankSession` | scripts/trading_kernel/verify_sor_dynamic_selection_golden.py:430-497 | in place, every member ends with the row, and the session with the snapshot, of the features alone; refused exactly unless there are twenty-four |
| `SorSession.RankReady` | scripts/trading_kernel/verify_sor_dynamic_selection_golden.py:441-449 | the loop over the sorted ready members |
| `SorSession.SessionIsCanonical` | scripts/trading_kernel/verify_sor_dynamic_selection_golden.py:430-497 | rows, source digest and selection digest do not depend on the input order |
| `SorSession.SelectionDigestExact` | scripts/trading_kernel/verify_sor_dynamic_selection_golden.py:457-485 | two sessions have one selection digest exactly when they have the same members |
| `SorSession.SnapshotInFull` | scripts/trading_kernel/verify_sor_dynamic_selection_golden.py:457-497 | the numbers and lists a snapshot and its digest are taken of |
| `SorSession.RankedSessionVerifies` | scripts/trading_kernel/verify_sor_dynamic_selection_golden.py:933-961 | the verifier accepts every session the ranking produces |
| `SorSession.RanksAreTheRange` | scripts/trading_kernel/verify_sor_dynamic_selection_golden.py:939-947 | the ranks written are exactly 1..r, each once |
| `SorSession.VerifiesExactly` | scripts/trading_kernel/verify_sor_dynamic_selection_golden.py:933-961 | what the checks accept, place by place: each rank from one to the number of ready rows on exactly one row, as many selected as ready but seven at most, counts and digests that agree |
| `SorSession.VerifierIgnoresTheOrder` | scripts/trading_kernel/verify_sor_dynamic_selection_golden.py:933-961 | the checks do not see the order: exchanging the decisions of two ready members is accepted too |
| `SorSession.AcceptedIsRankedExactly` | scripts/trading_kernel/verify_sor_dynamic_selection_golden.py:933-961 | an accepted session is the ranked one if and only if its ranks ascend by ratio, then by volume downward, then by id, only ready rows have one, and each state and selection is that of its rank |
| `CanonicalValue.CanonicalInjective` | scripts/trading_kernel/verify_schema.py:2686-2700 | within one column type the canonical form determines the value |
| `CanonicalValue.FixedPointInjective` | scripts/trading_kernel/verify_schema.py:2689-2690 | fixed-point text determines a decimal and its scale |
| `CanonicalValue.FixedPointReads` | scripts/trading_kernel/verify_schema.py:2689-2690 | the text reads as the number: sign, whole part without superfluous zeros, as many digits after the point as the scale |
| `CanonicalValue.HexReads` | scripts/trading_kernel/verify_schema.py:2698-2699 | two lower-case hexadecimal digits a byte, the higher first |
| `CanonicalValue.CanonicalCollides` | scripts/trading_kernel/verify_schema.py:2686-2700 | across types it does not: a decimal, a byte string and a text with one form |
| `Preservation.BuildRow` | scripts/trading_kernel/verify_schema.py:2630-2651 | the row manifest, refused exactly on an unsupported value |
| `Preservation.BuildManifest` | scripts/trading_kernel/verify_schema.py:1950-1987 | the loops over tables and rows, the running total and the final digest |
| `Preservation.RowInFull` | scripts/trading_kernel/verify_schema.py:2630-2651 | a digest a column, of its name and canonical value, and the digest of them all |
| `Preservation.EntryInFull` | scripts/trading_kernel/verify_schema.py:1964-1978 | name, columns, number of rows, the row entries ascending by digest, and the digest of it all |
| `Preservation.ManifestInFull` | scripts/trading_kernel/verify_schema.py:1950-1987 | an entry a table in schema order, and how many tables and rows there are |
| `Preservation.EntryExact` | scripts/trading_kernel/verify_schema.py:1964-1978 | a table entry determines its rows up to order, and they determine it |
| `Preservation.DigestExact` | scripts/trading_kernel/verify_schema.py:1950-1987 | equal digests exactly when every table holds the same canonical rows, with multiplicity, in any order |
| `Preservation.TypedDigestExact` | scripts/trading_kernel/verify_schema.py:1950-1987 | with one value type a column: exactly when every table holds the same rows |
| `Preservation.RetypedColumnKeepsDigest` | scripts/trading_kernel/verify_schema.py:2686-2700 | without it: a retyped column keeps its digest |
| `Ordering.SortedIffSame` | scripts/trading_kernel/verify_schema.py:1966-1969 | sorting by digest forgets the input order and nothing else |
| `Normalisation.RowRoundTrip` | scripts/trading_kernel/verify_schema.py:2041-2057 | projecting a normalised row, its event rows in any order, gives the source row |
| `Normalisation.RejectedExactly` | scripts/trading_kernel/verify_schema.py:2053-2055 | a parent is rejected exactly when it has not one long and one short event row |
| `Normalisation.OwnMatching` | migrations/trading_kernel/versions/0008_generic_dynamic_selection_v1.py:2323-2333 | after the migration each parent finds exactly its own two event rows |
| `Normalisation.NormalisedRow` | scripts/trading_kernel/verify_schema.py:2003-2034 | two columns are renamed, the pair leaves the row, everything else stays |
| `Normalisation.NormalisedBindings` | migrations/trading_kernel/versions/0008_generic_dynamic_selection_v1.py:2323-2333 | each row leaves two event rows, its long reference and its short one |
| `Normalisation.TableRoundTrip` | scripts/trading_kernel/verify_schema.py:2040-2058 | a migrated table projects to its source rows |
| `Normalisation.BuildGenericManifest` | scripts/trading_kernel/verify_schema.py:1990-2074 | the manifest loop on either side of the migration, refused exactly when a parent has not its two event rows or a value is of an unsupported type |
| `Normalisation.MigrationKeepsDigest` | scripts/trading_kernel/verify_schema.py:1990-2074 | the digest is the same on both sides |
| `NumericWindow.LoadSeries` | scripts/trading_kernel/verify_generic_selection_numeric_parity.py:253-269 | accepted exactly when every candle is a whole hour with a positive close and none repeats; each close stands at the end of its hour, the series sorted, aligned and complete; else the first candle at fault decides the error |
| `NumericWindow.WindowExact` | scripts/trading_kernel/verify_generic_selection_numeric_parity.py:506-520 | the tail slice succeeds exactly when all hours ending at the cutoff have a close |
| `NumericWindow.RefusedFor` | scripts/trading_kernel/verify_generic_selection_numeric_parity.py:506-520 | too few closes or none at the cutoff are incomplete; a missing hour among enough is a gap |
| `NumericWindow.WindowIsLookup` | scripts/trading_kernel/verify_generic_selection_numeric_parity.py:506-520 | and each place holds the close of its hour |
| `NumericWindow.LaterClosesIgnored` | scripts/trading_kernel/verify_generic_selection_numeric_parity.py:506-520 | closes after the cutoff change nothing |
| `NumericWindow.EmptyWindowRefused` | scripts/trading_kernel/verify_generic_selection_numeric_parity.py:506-514 | a count of zero is always refused |

## Left out

- Cutover adapter: the production adapter's phases are calls into SSH, systemd and the database; a world is anything that satisfies the stated laws. `ResumeConverges` asks only what one run needs: each effect establishes its own postcondition, and effects up to the stop disturb neither fence, stop nor calm.
- Cutover journal errors: a journal write that raises is treated like a crash at that await, before or after the write; either ends the run at once, as the code does.
- Cutover journal: the schema bootstrap, the snapshot reader, error sanitising and truncation; `last_error` keeps the failure and `ErrorText` gives its text.
- Advisory lock: loss of the lock while its process keeps running, and hash collisions between two cutover ids.
- Cutover plan validators: the character checks of identities and commits.
- Deployment certifications: their many payload fields are one verdict; the identity, the revision, markers, stored facts and service states they read are truthful. What the gates compare by value is kept: identity, fact, preservation digest, universe, preserved runtime and control posture, and the baseline recorded beside the target.
- Deployment host: releases are told apart by commit and schema revision, not by the directory they share; the unit files are written as one, and the daemon reload is not state. The Owner API does not change state during a deployment.
- Deployment refusals: a refusal carries what it compared in place of the script's message.
- Migration of the upgrade: one transaction, done or not done.
- TokyoHost.TokyoReleaseBackend.MigrationWritersStoppedAndEntryFenced: answers truthfully or raises, although the script reads any failed remote command, an SSH failure included, as an inactive service; that nothing runs while the schema changes rests on this answer.
- TokyoHost.TokyoReleaseBackend.ServicesActive: as for the stopped writers.
- TokyoHost.TokyoReleaseBackend.FenceEntry: promises only that it tightens, because the script ignores the failures of its commands; that the fence is there is known from the checks after it.
- CompatibleUpgrade.DeployCompatibleUpgrade: speaks of the exits only when no call raises inside the handler; the lawfulness of every state is proved with faults there too.
- RegularDeployment.DeployTokyoRelease: as for the upgrade; an exception of the handler takes the place of the original one, as in the script.
- EntryPromotion: payload shapes of certifications beyond the fields the gate reads, and the owner-resume subcommand's surroundings.
- DeploymentDrain.Runtime: a clock that runs backwards or a sleep that returns early.
- SorFeatures: rounding to thirty-eight digits and the decimal text of numbers; the window digest is the window itself.
- SorSession.RankSession: the file artifacts, manifest, replay counts and event metrics around the sessions.
- SorSession.VerifySession: the comparison of a session's symbols with the candidate panel, a constant set.
- CanonicalValue: non-string mapping keys, decimals with positive exponents and negative zero, none of which a numeric column yields.
- Preservation: reading the tables; the column inventories are parameters. The per-revision manifests that project differently.
- Normalisation: the foreign keys that make migration 0008 refuse a parent with an absent reference; the event columns that do not enter the projection.
- NumericWindow: archive digests and member inventories, and the strategy formulas with their rank histories, which would repeat the ranking results.
- Historical constants, the owner-console release, worker launchers, launch scripts and the migration shape tables.
