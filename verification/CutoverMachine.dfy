/** scripts/trading_kernel/cutover_tokyo.py as a state machine: one step per await.

    A configuration is the durable journal, the history of everything done under the cutover id, and the
    local state of one runner. The environment's answer to an await is a parameter of the step, so any
    sequence of answers is one run: completed, failed, or cut off by a crash before or after an effect. */
module CutoverMachine {
  import opened Wrappers
  import opened FlatCutover

  /** A phase is its position in CUTOVER_PHASES. */
  type Phase = p: nat | p < 17

  const PLAN_IDENTITIES: Phase := 0
  const STAGE_EXACT_RELEASE: Phase := 1
  const FENCE_EXCHANGE_WRITES: Phase := 2
  const STOP_RUNTIME_WRITERS: Phase := 3
  const VERIFY_FINAL_FLAT: Phase := 4
  const CAPTURE_HISTORY_MANIFEST: Phase := 5
  const MIGRATE_APPLICATION_SCHEMA: Phase := 6
  const VERIFY_HISTORY_PRESERVATION: Phase := 7
  const SEED_CURRENT_AUTHORITY: Phase := 8
  const DEPLOY_EXACT_RELEASE: Phase := 9
  const CERTIFY_SCHEMA_AND_READONLY: Phase := 10
  const START_READONLY_WORKERS: Phase := 11
  const COMPLETE_TARGET_CERTIFICATION: Phase := 12
  const START_LIFECYCLE: Phase := 13
  const START_ENTRY_FENCED: Phase := 14
  const FINAL_POSTFLIGHT: Phase := 15
  const UNFENCE_ENTRY: Phase := 16

  /** The stored name of a phase. */
  function PhaseValue(phase: Phase): string {
    [ "plan_identities", "stage_exact_release", "fence_exchange_writes", "stop_runtime_writers",
      "verify_final_flat", "capture_history_manifest", "migrate_application_schema",
      "verify_history_preservation", "seed_current_authority", "deploy_exact_release",
      "certify_schema_and_readonly", "start_readonly_workers", "complete_target_certification",
      "start_lifecycle", "start_entry_fenced", "final_postflight", "unfence_entry" ][phase]
  }

  /** Why a phase failed; the journal stores its text, ErrorText. */
  datatype Failure =
    | AdapterError(text: string)
    | PostconditionFailed(phase: Phase)
    | VerificationBlocked(plan: Identities, facts: CutoverFacts)

  function ErrorText(failure: Failure): string {
    match failure
    case AdapterError(text) => text
    case PostconditionFailed(phase) => "cutover postcondition failed: " + PhaseValue(phase)
    case VerificationBlocked(plan, facts) => BlockerText(Blockers(plan, facts, true))
  }

  // ----- the journal -----

  datatype Status = Started | Completed | Failed

  datatype PhaseRow = PhaseRow(
    phaseOrder: int,
    status: Status,
    attemptCount: int,
    startedAtMs: int,
    completedAtMs: Option<int>,
    lastError: Option<Failure>)

  datatype RunRow = RunRow(identities: Identities, completed: bool, updatedAtMs: int)

  /** The journal rows of one cutover id. */
  datatype Journal = Journal(run: Option<RunRow>, rows: map<Phase, PhaseRow>) {

    function PhaseStatus(phase: Phase): Option<Status> {
      if phase in rows then Some(rows[phase].status) else None
    }

    /** INSERT ... ON CONFLICT DO NOTHING. */
    function EnsureRun(identities: Identities, nowMs: int): Journal {
      if run.None? then this.(run := Some(RunRow(identities, false, nowMs))) else this
    }

    /** `_upsert_phase`: inserts with one attempt, or restarts the row and counts one more. */
    function UpsertStarted(phase: Phase, phaseOrder: int, nowMs: int): Journal {
      var attempts := if phase in rows then rows[phase].attemptCount + 1 else 1;
      this.(rows := rows[phase := PhaseRow(phaseOrder, Started, attempts, nowMs, None, None)])
    }

    /** `_update_phase`; without a row the source raises, and nothing is written. */
    function UpdatePhase(phase: Phase, status: Status, nowMs: int, error: Option<Failure>): Journal {
      if phase !in rows then this
      else
        var completedAt := if status == Completed then Some(nowMs) else None;
        this.(rows := rows[phase := rows[phase].(status := status, completedAtMs := completedAt, lastError := error)])
    }

    /** `mark_run_completed`. */
    function CompleteRun(nowMs: int): Journal {
      if run.None? then this else this.(run := Some(run.value.(completed := true, updatedAtMs := nowMs)))
    }
  }

  // ----- history, answers, runners -----

  datatype Event =
    | RunBegan(identities: Identities, nowMs: int)
    | PhaseStarted(phase: Phase)
    | PhaseCompleted(phase: Phase)
    | PhaseFailed(phase: Phase, error: Failure)
    | Observed(phase: Phase, satisfied: bool)
    | AppliedTo(phase: Phase, plan: Identities)
    | Inspected(clean: bool, requireWriterFence: bool, facts: CutoverFacts)
    | GuardFired(phase: Phase)
    | RowMissing
    | RunMarkedCompleted

  /** What became of one await: it returned, it raised, or the process died around its effect. */
  datatype Fate = Returned | Raised(error: string) | DiedBefore | DiedAfter

  datatype Answer = Answer(fate: Fate, satisfied: bool, facts: CutoverFacts)

  datatype Outcome = Done | Blocked | Errored | Died

  /** The caller a journalled effect returns to: the staging step before preflight, or the phase loop. */
  datatype Caller = Staging | Loop

  datatype Pc =
    | EnsureRunAt
    | ScanAt(phase: Phase)
    | StageStatusAt
    | StageCheckAt(wasCompleted: bool)
    | PreflightAt
    | StatusAt(phase: Phase)
    | CheckAt(phase: Phase, status: Option<Status>)
    | StartSatisfiedAt(phase: Phase, caller: Caller)
    | StartEffectAt(phase: Phase, caller: Caller)
    | ApplyAt(phase: Phase, caller: Caller)
    | PostcheckAt(phase: Phase, caller: Caller)
    | FailAt(phase: Phase, error: Failure)
    | CompleteAt(phase: Phase, caller: Caller)
    | StartVerifyAt
    | VerifyAt
    | FailVerifyAt(error: Failure)
    | MarkRunAt
    | Ended(outcome: Outcome)

  datatype Runner = Runner(plan: Identities, nowMs: int, migrationStarted: bool, pc: Pc)

  /** What one await does: the journal after it, the event it adds to the history, the runner after it. */
  datatype Move = Move(journal: Journal, event: Option<Event>, runner: Runner)

  function Silent(j: Journal, r: Runner, pc: Pc): Move {
    Move(j, None, r.(pc := pc))
  }

  function Emit(j: Journal, r: Runner, event: Event, pc: Pc): Move {
    Move(j, Some(event), r.(pc := pc))
  }

  function NewRunner(plan: Identities, nowMs: int): Runner {
    Runner(plan, nowMs, false, EnsureRunAt)
  }

  function AfterPhase(phase: Phase): Pc {
    if phase == UNFENCE_ENTRY then MarkRunAt else StatusAt(phase + 1)
  }

  function AfterComplete(phase: Phase, caller: Caller): Pc {
    if caller == Staging then PreflightAt else AfterPhase(phase)
  }

  /** Where the phase loop goes once it has read the status of its phase. */
  function AfterStatus(phase: Phase, status: Option<Status>, migrationStarted: bool): Pc {
    if migrationStarted && phase < MIGRATE_APPLICATION_SCHEMA then
      if status == Some(Completed) then AfterPhase(phase) else Ended(Blocked)
    else if phase == PLAN_IDENTITIES then
      if status == Some(Completed) then AfterPhase(phase) else StartSatisfiedAt(phase, Loop)
    else if phase == VERIFY_FINAL_FLAT then StartVerifyAt
    else if phase == MIGRATE_APPLICATION_SCHEMA && status.None? then StartEffectAt(phase, Loop)
    else CheckAt(phase, status)
  }

  /** A journal write: it takes effect when the await returns or the process dies after it; any other fate,
      an exception included, ends the run at once because no handler surrounds it. */
  function JournalWrite(j: Journal, r: Runner, fate: Fate, j': Journal, event: Event, pc: Pc): Move {
    match fate
    case Returned => Emit(j', r, event, pc)
    case DiedAfter => Emit(j', r, event, Ended(Died))
    case _ => Silent(j, r, Ended(Died))
  }

  /** `mark_phase_completed` and `mark_phase_failed`: an update that meets no row raises. */
  function JournalUpdate(j: Journal, r: Runner, fate: Fate, phase: Phase, error: Option<Failure>, pc: Pc): Move {
    var status := if error.None? then Completed else Failed;
    if phase !in j.rows then
      if fate.DiedBefore? || fate.Raised? then Silent(j, r, Ended(Died)) else Emit(j, r, RowMissing, Ended(Errored))
    else
      JournalWrite(j, r, fate, j.UpdatePhase(phase, status, r.nowMs, error),
        if error.None? then PhaseCompleted(phase) else PhaseFailed(phase, error.value), pc)
  }

  /** `mark_phase_started`, with the phase's one-based position as its order. */
  function StartPhase(j: Journal, r: Runner, fate: Fate, phase: Phase, pc: Pc): Move {
    JournalWrite(j, r, fate, j.UpsertStarted(phase, phase + 1, r.nowMs), PhaseStarted(phase), pc)
  }

  /** A read outside any try: an exception ends the run. */
  function ReadFailed(j: Journal, r: Runner, fate: Fate): Move {
    Silent(j, r, Ended(if fate.Raised? then Errored else Died))
  }

  /** One await of `run_cutover`. */
  function MoveOf(j: Journal, r: Runner, a: Answer): Move {
    match r.pc
    case EnsureRunAt =>
      var j' := j.EnsureRun(r.plan, r.nowMs);
      if a.fate.DiedBefore? || a.fate.Raised? then Silent(j, r, Ended(Died))
      else if a.fate.DiedAfter? then Silent(j', r, Ended(Died))
      else if j'.run.value.identities != r.plan then Silent(j', r, Ended(Blocked))
      else Emit(j', r, RunBegan(r.plan, r.nowMs), ScanAt(MIGRATE_APPLICATION_SCHEMA))
    case ScanAt(p) =>
      if !a.fate.Returned? then ReadFailed(j, r, a.fate)
      else if j.PhaseStatus(p).Some? then Silent(j, r.(migrationStarted := true), StatusAt(PLAN_IDENTITIES))
      else Silent(j, r, if p == UNFENCE_ENTRY then StageStatusAt else ScanAt(p + 1))
    case StageStatusAt =>
      if !a.fate.Returned? then ReadFailed(j, r, a.fate)
      else Silent(j, r, StageCheckAt(j.PhaseStatus(STAGE_EXACT_RELEASE) == Some(Completed)))
    case StageCheckAt(wasCompleted) =>
      if !a.fate.Returned? then ReadFailed(j, r, a.fate)
      else
        Emit(j, r, Observed(STAGE_EXACT_RELEASE, a.satisfied),
          if !a.satisfied then StartEffectAt(STAGE_EXACT_RELEASE, Staging)
          else if wasCompleted then PreflightAt
          else StartSatisfiedAt(STAGE_EXACT_RELEASE, Staging))
    case PreflightAt =>
      if !a.fate.Returned? then ReadFailed(j, r, a.fate)
      else
        var clean := FlatAndIdentical(r.plan, a.facts, false);
        Emit(j, r, Inspected(clean, false, a.facts), if clean then StatusAt(PLAN_IDENTITIES) else Ended(Blocked))
    case StatusAt(p) =>
      if !a.fate.Returned? then ReadFailed(j, r, a.fate)
      else
        var pc := AfterStatus(p, j.PhaseStatus(p), r.migrationStarted);
        if pc.Ended? then Emit(j, r, GuardFired(p), pc) else Silent(j, r, pc)
    case CheckAt(p, status) =>
      if !a.fate.Returned? then ReadFailed(j, r, a.fate)
      else
        Emit(j, r, Observed(p, a.satisfied),
          if !a.satisfied then StartEffectAt(p, Loop)
          else if status == Some(Completed) then AfterPhase(p)
          else StartSatisfiedAt(p, Loop))
    case StartSatisfiedAt(p, caller) => StartPhase(j, r, a.fate, p, CompleteAt(p, caller))
    case StartEffectAt(p, caller) => StartPhase(j, r, a.fate, p, ApplyAt(p, caller))
    case ApplyAt(p, caller) =>
      (match a.fate
       case DiedBefore => Silent(j, r, Ended(Died))
       case DiedAfter => Emit(j, r, AppliedTo(p, r.plan), Ended(Died))
       case Raised(error) => Emit(j, r, AppliedTo(p, r.plan), FailAt(p, AdapterError(error)))
       case Returned => Emit(j, r, AppliedTo(p, r.plan), PostcheckAt(p, caller)))
    case PostcheckAt(p, caller) =>
      (match a.fate
       case Raised(error) => Silent(j, r, FailAt(p, AdapterError(error)))
       case Returned =>
         Emit(j, r, Observed(p, a.satisfied),
           if a.satisfied then CompleteAt(p, caller) else FailAt(p, PostconditionFailed(p)))
       case _ => Silent(j, r, Ended(Died)))
    case FailAt(p, error) => JournalUpdate(j, r, a.fate, p, Some(error), Ended(Errored))
    case CompleteAt(p, caller) => JournalUpdate(j, r, a.fate, p, None, AfterComplete(p, caller))
    case StartVerifyAt => StartPhase(j, r, a.fate, VERIFY_FINAL_FLAT, VerifyAt)
    case VerifyAt =>
      if !a.fate.Returned? then ReadFailed(j, r, a.fate)
      else
        var clean := FlatAndIdentical(r.plan, a.facts, true);
        Emit(j, r, Inspected(clean, true, a.facts),
          if clean then CompleteAt(VERIFY_FINAL_FLAT, Loop) else FailVerifyAt(VerificationBlocked(r.plan, a.facts)))
    case FailVerifyAt(error) => JournalUpdate(j, r, a.fate, VERIFY_FINAL_FLAT, Some(error), Ended(Blocked))
    case MarkRunAt =>
      if j.run.None? then Silent(j, r, Ended(Errored))
      else JournalWrite(j, r, a.fate, j.CompleteRun(r.nowMs), RunMarkedCompleted, Ended(Done))
    case Ended(_) => Silent(j, r, r.pc)
  }

  datatype Config = Config(journal: Journal, log: seq<Event>, runner: Runner)

  function Next(c: Config, a: Answer): Config {
    var m := MoveOf(c.journal, c.runner, a);
    Config(m.journal, if m.event.Some? then c.log + [m.event.value] else c.log, m.runner)
  }

  /** The steps left at most, whatever the environment answers. */
  function Rank(pc: Pc): (n: nat)
    ensures n == 0 <==> pc.Ended?
  {
    match pc
    case EnsureRunAt => 150
    case ScanAt(p) => 132 + (16 - p)
    case StageStatusAt => 131
    case StageCheckAt(_) => 130
    case PreflightAt => 125
    case MarkRunAt => 1
    case Ended(_) => 0
    case StatusAt(p) => 2 + 7 * (17 - p)
    case CheckAt(p, _) => 1 + 7 * (17 - p)
    case StartVerifyAt => 1 + 7 * (17 - VERIFY_FINAL_FLAT)
    case VerifyAt => 7 * (17 - VERIFY_FINAL_FLAT)
    case FailVerifyAt(_) => 2
    case FailAt(_, _) => 2
    case StartEffectAt(p, caller) => if caller == Staging then 129 else 7 * (17 - p)
    case ApplyAt(p, caller) => if caller == Staging then 128 else 7 * (17 - p) - 1
    case PostcheckAt(p, caller) => if caller == Staging then 127 else 7 * (17 - p) - 2
    case StartSatisfiedAt(p, caller) => if caller == Staging then 127 else 7 * (17 - p) - 2
    case CompleteAt(p, caller) => if caller == Staging then 126 else 7 * (17 - p) - 3
  }

  lemma StatusDescends(j: Journal, r: Runner, a: Answer)
    requires r.pc.StatusAt?
    ensures Rank(MoveOf(j, r, a).runner.pc) < Rank(r.pc)
  {
    hide FlatAndIdentical;
  }

  /** Every run is bounded: whatever the environment answers, each await brings the end nearer. */
  lemma EveryStepDescends(j: Journal, r: Runner, a: Answer)
    requires !r.pc.Ended?
    ensures Rank(MoveOf(j, r, a).runner.pc) < Rank(r.pc)
  {
    hide FlatAndIdentical, ErrorText, PhaseValue, AfterStatus, Journal.UpsertStarted, Journal.UpdatePhase,
      Journal.CompleteRun, Journal.EnsureRun, Journal.PhaseStatus;
    if r.pc.StatusAt? {
      StatusDescends(j, r, a);
    }
  }

  /** A run under a given sequence of answers. */
  function Exec(c: Config, answers: seq<Answer>): Config {
    if answers == [] then c else Next(Exec(c, answers[..|answers| - 1]), answers[|answers| - 1])
  }

  lemma ExecStep(c: Config, answers: seq<Answer>, a: Answer)
    ensures Exec(c, answers + [a]) == Next(Exec(c, answers), a)
  {
    assert (answers + [a])[..|answers|] == answers;
  }
}
