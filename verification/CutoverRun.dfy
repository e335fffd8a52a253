/** `run_cutover` as it is written, over a journal and an adapter that may fail or die at any await, proved to
    take exactly the steps of the machine: what is proved of every history therefore holds of this code. */
module CutoverRun {
  import opened Wrappers
  import opened FlatCutover
  import opened CutoverMachine
  import opened CutoverSafety
  import opened CutoverHistory
  import opened CutoverTrace
  import opened CutoverRecord

  /** What ended the run early: a refusal, an error, or a crash (a journal write that raises is one). */
  datatype Stop = CutoverBlocked | Failure(error: string) | Interrupted

  function OutcomeOf(stop: Stop): Outcome {
    match stop
    case CutoverBlocked => Blocked
    case Failure(_) => Errored
    case Interrupted => Died
  }

  /** A witness beside the run: the answer of every await, where the machine is after them, and what the
      journal and the adapter really did. */
  class Ledger {
    ghost var start: Config
    ghost var answers: seq<Answer>
    ghost var config: Config
    ghost var events: seq<Event>

    ghost predicate Valid() reads this {
      config == Exec(start, answers)
    }

    ghost method Begin(c: Config)
      modifies this
      ensures Valid() && start == config == c && answers == [] && events == old(events)
    {
      start, answers, config := c, [], c;
    }

    ghost method Answered(a: Answer)
      requires Valid()
      modifies this`answers, this`config
      ensures Valid() && config == Next(old(config), a) && answers == old(answers) + [a]
    {
      hide Exec, MoveOf;
      ExecStep(start, answers, a);
      answers, config := answers + [a], Next(config, a);
    }

    ghost method Note(e: Event)
      modifies this`events
      ensures events == old(events) + [e]
    {
      events := events + [e];
    }

    /** One more await was answered. */
    twostate predicate Heard(a: Answer)
      reads this
    {
      && Valid() && start == old(start)
      && config == Next(old(config), a) && answers == old(answers) + [a]
    }
  }

  /** The last await was answered so. */
  ghost predicate Answered(ledger: Ledger, fate: Fate)
    reads ledger
  {
    ledger.answers != [] && ledger.answers[|ledger.answers| - 1].fate == fate
  }

  predicate TookEffect(fate: Fate) {
    fate.Returned? || fate.DiedAfter?
  }

  class PostgresCutoverJournal {
    const ledger: Ledger
    var run: Option<RunRow>
    var rows: map<Phase, PhaseRow>
    var locked: bool

    constructor (ledger: Ledger)
      ensures this.ledger == ledger && State() == Journal(None, map[]) && !locked
      ensures ledger.events == [] ==> Historical(this)
    {
      this.ledger := ledger;
      run, rows, locked := None, map[], false;
      new;
      assert History([]) == START;
    }

    function State(): Journal
      reads this
    {
      Journal(run, rows)
    }

    /** `pg_try_advisory_lock`. */
    method TryLock() returns (acquired: bool)
      modifies this`locked
      ensures acquired == !old(locked) && locked
    {
      acquired := !locked;
      locked := true;
    }

    method Unlock()
      modifies this`locked
      ensures !locked
    {
      locked := false;
    }

    method EnsureRun(plan: Identities, nowMs: int) returns (r: Result<(), Stop>, ghost a: Answer)
      requires ledger.Valid()
      modifies this`run, ledger
      ensures ledger.Heard(a)
      ensures State() == if TookEffect(a.fate) then old(State()).EnsureRun(plan, nowMs) else old(State())
      ensures r == if !a.fate.Returned? then Err(Interrupted)
                   else if run.value.identities != plan then Err(CutoverBlocked) else Ok(())
      ensures ledger.events == old(ledger.events) + if r.Ok? then [RunBegan(plan, nowMs)] else []
    {
      var answer: Answer := *;
      a := answer;
      ledger.Answered(a);
      if TookEffect(answer.fate) && run.None? {
        run := Some(RunRow(plan, false, nowMs));
      }
      if !answer.fate.Returned? {
        return Err(Interrupted), a;
      }
      if run.value.identities != plan {
        return Err(CutoverBlocked), a;
      }
      ledger.Note(RunBegan(plan, nowMs));
      return Ok(()), a;
    }

    method PhaseStatus(phase: Phase) returns (r: Result<Option<Status>, Stop>, ghost a: Answer)
      requires ledger.Valid()
      modifies ledger
      ensures ledger.Heard(a) && ledger.events == old(ledger.events)
      ensures if a.fate.Returned? then r == Ok(State().PhaseStatus(phase))
              else r.Err? && OutcomeOf(r.error) == if a.fate.Raised? then Errored else Died
    {
      var answer: Answer := *;
      a := answer;
      ledger.Answered(a);
      r := match answer.fate
           case Returned => Ok(if phase in rows then Some(rows[phase].status) else None)
           case Raised(error) => Err(Failure(error))
           case _ => Err(Interrupted);
    }

    method MarkPhaseStarted(phase: Phase, phaseOrder: int, nowMs: int) returns (r: Result<(), Stop>, ghost a: Answer)
      requires ledger.Valid()
      modifies this`rows, ledger
      ensures ledger.Heard(a)
      ensures r == if a.fate.Returned? then Ok(()) else Err(Interrupted)
      ensures State() == if TookEffect(a.fate) then old(State()).UpsertStarted(phase, phaseOrder, nowMs) else old(State())
      ensures ledger.events == old(ledger.events) + if TookEffect(a.fate) then [PhaseStarted(phase)] else []
    {
      var answer: Answer := *;
      a := answer;
      ledger.Answered(a);
      if TookEffect(answer.fate) {
        var attempts := if phase in rows then rows[phase].attemptCount + 1 else 1;
        rows := rows[phase := PhaseRow(phaseOrder, Started, attempts, nowMs, None, None)];
        ledger.Note(PhaseStarted(phase));
      }
      r := if answer.fate.Returned? then Ok(()) else Err(Interrupted);
    }

    /** Both closing updates: completed without an error, failed with one. An update that meets no row raises. */
    method UpdatePhase(phase: Phase, error: Option<CutoverMachine.Failure>, nowMs: int)
      returns (r: Result<(), Stop>, ghost a: Answer)
      requires ledger.Valid()
      modifies this`rows, ledger
      ensures ledger.Heard(a)
      ensures
        var status := if error.None? then Completed else Failed;
        var event := if error.None? then PhaseCompleted(phase) else PhaseFailed(phase, error.value);
        && State() == (if TookEffect(a.fate) then old(State()).UpdatePhase(phase, status, nowMs, error) else old(State()))
        && ledger.events == old(ledger.events) +
             (if !TookEffect(a.fate) then [] else if phase in old(rows) then [event] else [RowMissing])
        && (if TookEffect(a.fate) && phase !in old(rows) then r.Err? && r.error.Failure?
            else r == if a.fate.Returned? then Ok(()) else Err(Interrupted))
    {
      var answer: Answer := *;
      a := answer;
      ledger.Answered(a);
      if !TookEffect(answer.fate) {
        return Err(Interrupted), a;
      }
      if phase !in rows {
        ledger.Note(RowMissing);
        return Err(Failure("cutover phase journal row is missing")), a;
      }
      if error.None? {
        rows := rows[phase := rows[phase].(status := Completed, completedAtMs := Some(nowMs), lastError := None)];
        ledger.Note(PhaseCompleted(phase));
      } else {
        rows := rows[phase := rows[phase].(status := Failed, completedAtMs := None, lastError := error)];
        ledger.Note(PhaseFailed(phase, error.value));
      }
      r := if answer.fate.Returned? then Ok(()) else Err(Interrupted);
    }

    method MarkRunCompleted(nowMs: int) returns (r: Result<(), Stop>, ghost a: Answer)
      requires ledger.Valid()
      modifies this`run, ledger
      ensures ledger.Heard(a)
      ensures State() == if TookEffect(a.fate) then old(State()).CompleteRun(nowMs) else old(State())
      ensures ledger.events == old(ledger.events) +
                if TookEffect(a.fate) && old(run).Some? then [RunMarkedCompleted] else []
      ensures if old(run).None? then r.Err? && r.error.Failure?
              else r == if a.fate.Returned? then Ok(()) else Err(Interrupted)
    {
      var answer: Answer := *;
      a := answer;
      ledger.Answered(a);
      if run.None? {
        return Err(Failure("cutover run journal row is missing")), a;
      }
      if TookEffect(answer.fate) {
        run := Some(run.value.(completed := true, updatedAtMs := nowMs));
        ledger.Note(RunMarkedCompleted);
      }
      r := if answer.fate.Returned? then Ok(()) else Err(Interrupted);
    }
  }

  /** The adapter, reduced to what the run can tell about it: any call may answer anything. */
  class CutoverAdapter {
    const ledger: Ledger

    constructor (ledger: Ledger)
      ensures this.ledger == ledger
    {
      this.ledger := ledger;
    }

    method PhaseSatisfied(phase: Phase, plan: Identities) returns (r: Result<bool, Stop>, ghost a: Answer)
      requires ledger.Valid()
      modifies ledger
      ensures ledger.Heard(a)
      ensures match a.fate
              case Returned => r == Ok(a.satisfied)
              case Raised(error) => r == Err(Failure(error))
              case _ => r == Err(Interrupted)
      ensures ledger.events == old(ledger.events) + if r.Ok? then [Observed(phase, r.value)] else []
    {
      var answer: Answer := *;
      a := answer;
      ledger.Answered(a);
      match answer.fate {
        case Returned =>
          r := Ok(answer.satisfied);
          ledger.Note(Observed(phase, answer.satisfied));
        case Raised(error) => r := Err(Failure(error));
        case _ => r := Err(Interrupted);
      }
    }

    /** An effect that raises may have happened all the same. */
    method ApplyPhase(phase: Phase, plan: Identities) returns (r: Result<(), Stop>, ghost a: Answer)
      requires ledger.Valid()
      modifies ledger
      ensures ledger.Heard(a)
      ensures match a.fate
              case Returned => r == Ok(())
              case Raised(error) => r == Err(Failure(error))
              case _ => r == Err(Interrupted)
      ensures ledger.events == old(ledger.events) + if a.fate.DiedBefore? then [] else [AppliedTo(phase, plan)]
    {
      var answer: Answer := *;
      a := answer;
      ledger.Answered(a);
      if !answer.fate.DiedBefore? {
        ledger.Note(AppliedTo(phase, plan));
      }
      r := match answer.fate
           case Returned => Ok(())
           case Raised(error) => Err(Failure(error))
           case _ => Err(Interrupted);
    }

    method InspectPreconditions(plan: Identities) returns (r: Result<CutoverFacts, Stop>, ghost a: Answer)
      requires ledger.Valid()
      modifies ledger
      ensures ledger.Heard(a) && ledger.events == old(ledger.events)
      ensures match a.fate
              case Returned => r == Ok(a.facts)
              case Raised(error) => r == Err(Failure(error))
              case _ => r == Err(Interrupted)
    {
      var answer: Answer := *;
      a := answer;
      ledger.Answered(a);
      r := match answer.fate
           case Returned => Ok(answer.facts)
           case Raised(error) => Err(Failure(error))
           case _ => Err(Interrupted);
    }
  }

  // ----- the run -----

  /** The machine, fed the answers so far, agrees with the journal and with what was really done, and its
      runner stands at the given place. */
  ghost predicate At(journal: PostgresCutoverJournal, plan: Identities, nowMs: int, migrationStarted: bool, pc: Pc)
    reads journal, journal.ledger
  {
    && journal.ledger.Valid()
    && journal.ledger.config == Config(journal.State(), journal.ledger.events, Runner(plan, nowMs, migrationStarted, pc))
  }

  /** After a call: where the runner went on to, or how the run ended. */
  ghost predicate Reached(r: Result<(), Stop>, journal: PostgresCutoverJournal, plan: Identities, nowMs: int,
                          migrationStarted: bool, pc: Pc)
    reads journal, journal.ledger
  {
    At(journal, plan, nowMs, migrationStarted, if r.Ok? then pc else Ended(OutcomeOf(r.error)))
  }

  /** A phase found satisfied is started and completed in the journal without its effect. */
  method RecordSatisfied(journal: PostgresCutoverJournal, ghost plan: Identities, phase: Phase, nowMs: int,
                         ghost migrationStarted: bool, ghost caller: Caller)
    returns (r: Result<(), Stop>)
    requires At(journal, plan, nowMs, migrationStarted, StartSatisfiedAt(phase, caller))
    modifies journal`rows, journal.ledger
    ensures Reached(r, journal, plan, nowMs, migrationStarted, AfterComplete(phase, caller))
    ensures journal.ledger.start == old(journal.ledger.start)
    ensures r.Ok? ==> journal.ledger.events == old(journal.ledger.events) + [PhaseStarted(phase), PhaseCompleted(phase)]
  {
    hide Exec, FlatAndIdentical, ErrorText, PhaseValue;
    ghost var a;
    r, a := journal.MarkPhaseStarted(phase, phase + 1, nowMs);
    if r.Err? {
      return;
    }
    r, a := journal.UpdatePhase(phase, None, nowMs);
  }

  /** The body of the `try`: the effect and its postcondition. Returns the exception it would catch, if any. */
  method TryEffect(adapter: CutoverAdapter, ghost journal: PostgresCutoverJournal, plan: Identities, phase: Phase,
                   ghost nowMs: int, ghost migrationStarted: bool, ghost caller: Caller)
    returns (r: Result<Option<CutoverMachine.Failure>, Stop>)
    requires adapter.ledger == journal.ledger
    requires At(journal, plan, nowMs, migrationStarted, ApplyAt(phase, caller))
    modifies journal.ledger
    ensures r.Err? ==> r.error == Interrupted
    ensures At(journal, plan, nowMs, migrationStarted,
              match r
              case Err(_) => Ended(Died)
              case Ok(None) => CompleteAt(phase, caller)
              case Ok(Some(error)) => FailAt(phase, error))
    ensures journal.ledger.start == old(journal.ledger.start)
    // completed after the effect and a satisfied check; failed for an unsatisfied one, or with the text raised
    ensures r.Ok? ==>
              var applied := old(journal.ledger.events) + [AppliedTo(phase, plan)];
              match r.value
              case None => journal.ledger.events == applied + [Observed(phase, true)]
              case Some(PostconditionFailed(p)) => p == phase && journal.ledger.events == applied + [Observed(phase, false)]
              case Some(AdapterError(text)) => journal.ledger.events == applied && Answered(journal.ledger, Raised(text))
              case Some(VerificationBlocked(_, _)) => false
  {
    ghost var a;
    var applied, satisfied;
    applied, a := adapter.ApplyPhase(phase, plan);
    if applied.Err? {
      return if applied.error.Failure? then Ok(Some(AdapterError(applied.error.error))) else Err(applied.error);
    }
    assert At(journal, plan, nowMs, migrationStarted, PostcheckAt(phase, caller));
    satisfied, a := adapter.PhaseSatisfied(phase, plan);
    if satisfied.Err? {
      return if satisfied.error.Failure? then Ok(Some(AdapterError(satisfied.error.error))) else Err(satisfied.error);
    }
    r := Ok(if satisfied.value then None else Some(PostconditionFailed(phase)));
  }

  /** The handler: the failure is journalled and raised again. */
  method FailPhase(journal: PostgresCutoverJournal, ghost plan: Identities, phase: Phase, error: CutoverMachine.Failure,
                   nowMs: int, ghost migrationStarted: bool)
    returns (stop: Stop)
    requires At(journal, plan, nowMs, migrationStarted, FailAt(phase, error))
    modifies journal`rows, journal.ledger
    ensures At(journal, plan, nowMs, migrationStarted, Ended(OutcomeOf(stop)))
    ensures journal.ledger.start == old(journal.ledger.start)
    ensures stop.Failure? && phase in old(journal.rows) ==>
              stop.error == ErrorText(error)
              && journal.rows == old(journal.State()).UpdatePhase(phase, Failed, nowMs, Some(error)).rows
  {
    hide Exec, FlatAndIdentical, ErrorText, PhaseValue;
    ghost var a;
    var r;
    r, a := journal.UpdatePhase(phase, Some(error), nowMs);
    stop := if r.Ok? then Failure(ErrorText(error)) else r.error;
  }

  /** Start the row, apply, check the postcondition; a failure is journalled and raised again. */
  method ApplyJournalled(adapter: CutoverAdapter, journal: PostgresCutoverJournal, plan: Identities, phase: Phase,
                         nowMs: int, ghost migrationStarted: bool, ghost caller: Caller)
    returns (r: Result<(), Stop>)
    requires adapter.ledger == journal.ledger
    requires At(journal, plan, nowMs, migrationStarted, StartEffectAt(phase, caller))
    modifies journal`rows, journal.ledger
    ensures Reached(r, journal, plan, nowMs, migrationStarted, AfterComplete(phase, caller))
    ensures journal.ledger.start == old(journal.ledger.start)
    ensures r.Ok? ==>
              journal.ledger.events == old(journal.ledger.events)
                + [PhaseStarted(phase), AppliedTo(phase, plan), Observed(phase, true), PhaseCompleted(phase)]
  {
    hide Exec, FlatAndIdentical, ErrorText, PhaseValue;
    ghost var a;
    r, a := journal.MarkPhaseStarted(phase, phase + 1, nowMs);
    if r.Err? {
      return;
    }
    assert At(journal, plan, nowMs, migrationStarted, ApplyAt(phase, caller));
    var effect := TryEffect(adapter, journal, plan, phase, nowMs, migrationStarted, caller);
    if effect.Err? {
      return Err(effect.error);
    }
    if effect.value.Some? {
      var stop := FailPhase(journal, plan, phase, effect.value.value, nowMs, migrationStarted);
      return Err(stop);
    }
    r, a := journal.UpdatePhase(phase, None, nowMs);
  }

  method StageReleaseBeforePreflight(adapter: CutoverAdapter, journal: PostgresCutoverJournal, plan: Identities,
                                     nowMs: int)
    returns (r: Result<(), Stop>)
    requires adapter.ledger == journal.ledger
    requires At(journal, plan, nowMs, false, StageStatusAt)
    modifies journal`rows, journal.ledger
    ensures Reached(r, journal, plan, nowMs, false, PreflightAt)
    ensures journal.ledger.start == old(journal.ledger.start)
  {
    hide FlatAndIdentical;
    ghost var a;
    var status, satisfied;
    status, a := journal.PhaseStatus(STAGE_EXACT_RELEASE);
    if status.Err? {
      return Err(status.error);
    }
    satisfied, a := adapter.PhaseSatisfied(STAGE_EXACT_RELEASE, plan);
    if satisfied.Err? {
      return Err(satisfied.error);
    }
    if status.value == Some(Completed) {
      if satisfied.value {
        return Ok(());
      }
    } else if satisfied.value {
      r := RecordSatisfied(journal, plan, STAGE_EXACT_RELEASE, nowMs, false, Staging);
      return;
    }
    r := ApplyJournalled(adapter, journal, plan, STAGE_EXACT_RELEASE, nowMs, false, Staging);
  }

  /** `plan_cutover`, and the refusal of a run whose preconditions are not clean. */
  method PlanCutover(adapter: CutoverAdapter, ghost journal: PostgresCutoverJournal, plan: Identities, ghost nowMs: int)
    returns (r: Result<(), Stop>)
    requires adapter.ledger == journal.ledger
    requires At(journal, plan, nowMs, false, PreflightAt)
    modifies journal.ledger
    ensures Reached(r, journal, plan, nowMs, false, StatusAt(PLAN_IDENTITIES))
    ensures journal.ledger.start == old(journal.ledger.start)
    // it returns for a flat and identical world, is blocked for any other, and otherwise has seen nothing
    ensures r.Ok? || r.error.CutoverBlocked? ==>
              exists facts ::
                && journal.ledger.events == old(journal.ledger.events) + [Inspected(r.Ok?, false, facts)]
                && (r.Ok? <==> FlatAndIdentical(plan, facts, false))
    ensures r.Err? && !r.error.CutoverBlocked? ==> journal.ledger.events == old(journal.ledger.events)
  {
    hide FlatAndIdentical, Blockers;
    var facts;
    ghost var a;
    facts, a := adapter.InspectPreconditions(plan);
    if facts.Err? {
      return Err(facts.error);
    }
    var pass, blockers := VerifyCutoverFacts(plan, facts.value, false);
    adapter.ledger.Note(Inspected(pass, false, facts.value));
    r := if blockers != [] then Err(CutoverBlocked) else Ok(());
  }

  /** The inspection inside the final verification. */
  method VerifyFinal(adapter: CutoverAdapter, ghost journal: PostgresCutoverJournal, plan: Identities,
                     ghost nowMs: int, ghost migrationStarted: bool)
    returns (r: Result<Option<CutoverMachine.Failure>, Stop>)
    requires adapter.ledger == journal.ledger
    requires At(journal, plan, nowMs, migrationStarted, VerifyAt)
    modifies journal.ledger
    ensures At(journal, plan, nowMs, migrationStarted,
              match r
              case Err(stop) => Ended(OutcomeOf(stop))
              case Ok(None) => CompleteAt(VERIFY_FINAL_FLAT, Loop)
              case Ok(Some(error)) => FailVerifyAt(error))
    ensures journal.ledger.start == old(journal.ledger.start)
    ensures r.Ok? ==>
              exists facts ::
                && journal.ledger.events == old(journal.ledger.events) + [Inspected(r.value.None?, true, facts)]
                && (r.value.None? <==> FlatAndIdentical(plan, facts, true))
                && (r.value.Some? ==> r.value.value == VerificationBlocked(plan, facts))
  {
    hide FlatAndIdentical, Blockers;
    var facts;
    ghost var a;
    facts, a := adapter.InspectPreconditions(plan);
    if facts.Err? {
      return Err(facts.error);
    }
    var pass, blockers := VerifyCutoverFacts(plan, facts.value, true);
    adapter.ledger.Note(Inspected(pass, true, facts.value));
    r := Ok(if blockers != [] then Some(VerificationBlocked(plan, facts.value)) else None);
  }

  method FailVerification(journal: PostgresCutoverJournal, ghost plan: Identities, error: CutoverMachine.Failure,
                          nowMs: int, ghost migrationStarted: bool)
    returns (stop: Stop)
    requires At(journal, plan, nowMs, migrationStarted, FailVerifyAt(error))
    modifies journal`rows, journal.ledger
    ensures At(journal, plan, nowMs, migrationStarted, Ended(OutcomeOf(stop)))
    ensures journal.ledger.start == old(journal.ledger.start)
    ensures stop.CutoverBlocked? && VERIFY_FINAL_FLAT in old(journal.rows) ==>
              journal.rows == old(journal.State()).UpdatePhase(VERIFY_FINAL_FLAT, Failed, nowMs, Some(error)).rows
  {
    hide FlatAndIdentical, ErrorText, PhaseValue;
    ghost var a;
    var r;
    r, a := journal.UpdatePhase(VERIFY_FINAL_FLAT, Some(error), nowMs);
    stop := if r.Ok? then CutoverBlocked else r.error;
  }

  method RunFinalVerification(adapter: CutoverAdapter, journal: PostgresCutoverJournal, plan: Identities, nowMs: int,
                              ghost migrationStarted: bool)
    returns (r: Result<(), Stop>)
    requires adapter.ledger == journal.ledger
    requires At(journal, plan, nowMs, migrationStarted, StartVerifyAt)
    modifies journal`rows, journal.ledger
    ensures Reached(r, journal, plan, nowMs, migrationStarted, AfterPhase(VERIFY_FINAL_FLAT))
    ensures journal.ledger.start == old(journal.ledger.start)
    ensures r.Ok? ==>
              exists facts ::
                && journal.ledger.events == old(journal.ledger.events)
                     + [PhaseStarted(VERIFY_FINAL_FLAT), Inspected(true, true, facts), PhaseCompleted(VERIFY_FINAL_FLAT)]
                && FlatAndIdentical(plan, facts, true)
  {
    hide Exec, FlatAndIdentical, ErrorText, PhaseValue;
    ghost var a;
    r, a := journal.MarkPhaseStarted(VERIFY_FINAL_FLAT, VERIFY_FINAL_FLAT + 1, nowMs);
    if r.Err? {
      return;
    }
    assert At(journal, plan, nowMs, migrationStarted, VerifyAt);
    var verification := VerifyFinal(adapter, journal, plan, nowMs, migrationStarted);
    if verification.Err? {
      return Err(verification.error);
    }
    if verification.value.Some? {
      var stop := FailVerification(journal, plan, verification.value.value, nowMs, migrationStarted);
      return Err(stop);
    }
    r, a := journal.UpdatePhase(VERIFY_FINAL_FLAT, None, nowMs);
  }

  /** Whether any phase from the migration onward has a row; the scan stops at the first that has. */
  method ScanMigration(journal: PostgresCutoverJournal, ghost plan: Identities, ghost nowMs: int)
    returns (r: Result<bool, Stop>)
    requires At(journal, plan, nowMs, false, ScanAt(MIGRATE_APPLICATION_SCHEMA))
    modifies journal.ledger
    ensures r.Ok? ==> (r.value <==> exists p: Phase :: p >= MIGRATE_APPLICATION_SCHEMA && p in journal.rows)
    ensures At(journal, plan, nowMs, r == Ok(true),
              match r
              case Err(stop) => Ended(OutcomeOf(stop))
              case Ok(true) => StatusAt(PLAN_IDENTITIES)
              case Ok(false) => StageStatusAt)
    ensures journal.ledger.start == old(journal.ledger.start)
  {
    hide FlatAndIdentical;
    for p := MIGRATE_APPLICATION_SCHEMA to 17
      invariant journal.ledger.start == old(journal.ledger.start)
      invariant forall q: Phase | MIGRATE_APPLICATION_SCHEMA <= q < p :: q !in journal.rows
      invariant At(journal, plan, nowMs, false, if p == 17 then StageStatusAt else ScanAt(p))
    {
      ghost var a;
      var status;
      status, a := journal.PhaseStatus(p);
      if status.Err? {
        return Err(status.error);
      }
      if status.value.Some? {
        return Ok(true);
      }
    }
    return Ok(false);
  }

  /** Up to the phase loop: the identities, the scan, and for a cutover not yet migrating the staged release
      and a clean preflight. */
  method OpenRun(adapter: CutoverAdapter, journal: PostgresCutoverJournal, plan: Identities, nowMs: int)
    returns (r: Result<(), Stop>, migrationStarted: bool)
    requires adapter.ledger == journal.ledger
    requires At(journal, plan, nowMs, false, EnsureRunAt)
    modifies journal`run, journal`rows, journal.ledger
    ensures Reached(r, journal, plan, nowMs, migrationStarted, StatusAt(PLAN_IDENTITIES))
    ensures journal.ledger.start == old(journal.ledger.start)
  {
    hide FlatAndIdentical;
    ghost var a;
    migrationStarted := false;
    r, a := journal.EnsureRun(plan, nowMs);
    if r.Err? {
      return;
    }
    var scan := ScanMigration(journal, plan, nowMs);
    if scan.Err? {
      return Err(scan.error), false;
    }
    migrationStarted := scan.value;
    if !migrationStarted {
      r := StageReleaseBeforePreflight(adapter, journal, plan, nowMs);
      if r.Err? {
        return;
      }
      r := PlanCutover(adapter, journal, plan, nowMs);
    }
  }

  method CloseRun(journal: PostgresCutoverJournal, ghost plan: Identities, nowMs: int, ghost migrationStarted: bool)
    returns (r: Result<(), Stop>)
    requires At(journal, plan, nowMs, migrationStarted, MarkRunAt)
    modifies journal`run, journal.ledger
    ensures Reached(r, journal, plan, nowMs, migrationStarted, Ended(Done))
    ensures journal.ledger.start == old(journal.ledger.start)
  {
    ghost var a;
    r, a := journal.MarkRunCompleted(nowMs);
  }

  /** `run_cutover` under the lock. */
  method RunPhases(adapter: CutoverAdapter, journal: PostgresCutoverJournal, plan: Identities, nowMs: int)
    returns (r: Result<(), Stop>, ghost migrationStarted: bool)
    requires adapter.ledger == journal.ledger
    requires At(journal, plan, nowMs, false, EnsureRunAt)
    modifies journal`run, journal`rows, journal.ledger
    ensures Reached(r, journal, plan, nowMs, migrationStarted, Ended(Done))
    ensures journal.ledger.start == old(journal.ledger.start)
  {
    hide FlatAndIdentical, MoveOf, Exec;
    var started;
    r, started := OpenRun(adapter, journal, plan, nowMs);
    migrationStarted := started;
    if r.Err? {
      return;
    }
    for phase := 0 to 17
      invariant journal.ledger.start == old(journal.ledger.start)
      invariant At(journal, plan, nowMs, started, if phase == 17 then MarkRunAt else StatusAt(phase))
    {
      r := RunPhase(adapter, journal, plan, phase, nowMs, started);
      if r.Err? {
        return;
      }
    }
    r := CloseRun(journal, plan, nowMs, started);
  }

  /** One turn of the phase loop. */
  method RunPhase(adapter: CutoverAdapter, journal: PostgresCutoverJournal, plan: Identities, phase: Phase, nowMs: int,
                  migrationStarted: bool)
    returns (r: Result<(), Stop>)
    requires adapter.ledger == journal.ledger
    requires At(journal, plan, nowMs, migrationStarted, StatusAt(phase))
    modifies journal`rows, journal.ledger
    ensures Reached(r, journal, plan, nowMs, migrationStarted, AfterPhase(phase))
    ensures journal.ledger.start == old(journal.ledger.start)
  {
    hide FlatAndIdentical;
    ghost var a;
    var status;
    status, a := journal.PhaseStatus(phase);
    if status.Err? {
      return Err(status.error);
    }
    if migrationStarted && phase < MIGRATE_APPLICATION_SCHEMA {
      if status.value != Some(Completed) {
        journal.ledger.Note(GuardFired(phase));
        return Err(CutoverBlocked);
      }
      return Ok(());
    }
    if phase == PLAN_IDENTITIES {
      if status.value == Some(Completed) {
        return Ok(());
      }
      r := RecordSatisfied(journal, plan, phase, nowMs, migrationStarted, Loop);
      return;
    }
    if phase == VERIFY_FINAL_FLAT {
      r := RunFinalVerification(adapter, journal, plan, nowMs, migrationStarted);
      return;
    }
    r := RunEffectPhase(adapter, journal, plan, phase, status.value, nowMs, migrationStarted);
  }

  /** The phases with an effect: found satisfied and at most recorded, or applied. */
  method RunEffectPhase(adapter: CutoverAdapter, journal: PostgresCutoverJournal, plan: Identities, phase: Phase,
                        status: Option<Status>, nowMs: int, ghost migrationStarted: bool)
    returns (r: Result<(), Stop>)
    requires adapter.ledger == journal.ledger
    requires
      var forced := phase == MIGRATE_APPLICATION_SCHEMA && status.None?;
      At(journal, plan, nowMs, migrationStarted, if forced then StartEffectAt(phase, Loop) else CheckAt(phase, status))
    modifies journal`rows, journal.ledger
    ensures Reached(r, journal, plan, nowMs, migrationStarted, AfterPhase(phase))
    ensures journal.ledger.start == old(journal.ledger.start)
  {
    hide FlatAndIdentical;
    var operationEffectRequired := phase == MIGRATE_APPLICATION_SCHEMA && status.None?;
    if !operationEffectRequired {
      ghost var a;
      var satisfied;
      satisfied, a := adapter.PhaseSatisfied(phase, plan);
      if satisfied.Err? {
        return Err(satisfied.error);
      }
      if satisfied.value {
        if status != Some(Completed) {
          r := RecordSatisfied(journal, plan, phase, nowMs, migrationStarted, Loop);
          return;
        }
        return Ok(());
      }
    }
    r := ApplyJournalled(adapter, journal, plan, phase, nowMs, migrationStarted, Loop);
  }

  /** What the journal holds and what was done are those of some history, and no run is under way. */
  ghost predicate Historical(journal: PostgresCutoverJournal)
    reads journal, journal.ledger
  {
    && !journal.locked
    && exists actions ::
         && History(actions).journal == journal.State()
         && History(actions).log == journal.ledger.events
         && History(actions).holder.None?
  }

  lemma FreshId(ids: set<nat>) returns (id: nat)
    ensures id !in ids && forall i <- ids :: i < id
  {
    id := 0;
    if ids != {} {
      var i :| i in ids;
      var rest := FreshId(ids - {i});
      id := if i < rest then rest else i + 1;
      assert forall k <- ids :: k == i || k in ids - {i};
    }
  }

  /** A run that began where some history ended leaves the journal and the log where some history ends, and
      one that returns has completed all seventeen phases. */
  lemma RunIsHistorical(actions: seq<Action>, plan: Identities, nowMs: int, answers: seq<Answer>, outcome: Outcome)
    returns (all: seq<Action>)
    requires History(actions).holder.None?
    requires Exec(Config(History(actions).journal, History(actions).log, NewRunner(plan, nowMs)), answers).runner.pc
             == Ended(outcome)
    ensures
      var end := Exec(Config(History(actions).journal, History(actions).log, NewRunner(plan, nowMs)), answers);
      && History(all).journal == end.journal && History(all).log == end.log && History(all).holder.None?
      && (outcome == Done ==>
            CompletedBelow(end.journal, 17) && end.journal.run.Some? && end.journal.run.value.completed)
  {
    hide Exec, MoveOf, Durable, RunnerInv, Licensed, LicensedLog;
    var s := History(actions);
    HistoryConsistent(actions);
    NewRunnerKeeps(s.journal, ViewOf(s.log), plan, nowMs);
    RunKeeps(Config(s.journal, s.log, NewRunner(plan, nowMs)), answers);
    var id := FreshId(s.processes.Keys);
    var more := RunExtendsHistory(actions, id, plan, nowMs, answers);
    all := actions + more;
  }

  /** `run_cutover`: turned away without a trace when another run holds the lock; otherwise the journal, the
      outcome and everything done are those of the machine on the answers it was given, and however the run
      ended the lock is free again. So every journal these runs leave behind is one of a history. */
  method RunCutover(adapter: CutoverAdapter, journal: PostgresCutoverJournal, plan: Identities, nowMs: int)
    returns (outcome: Outcome)
    requires adapter.ledger == journal.ledger
    modifies journal, journal.ledger
    ensures old(journal.locked) ==>
              && outcome == Blocked && journal.locked
              && journal.State() == old(journal.State()) && journal.ledger.events == old(journal.ledger.events)
    ensures !old(journal.locked) ==>
              var end := Exec(Config(old(journal.State()), old(journal.ledger.events), NewRunner(plan, nowMs)),
                              journal.ledger.answers);
              && end.journal == journal.State()
              && end.log == journal.ledger.events
              && end.runner.pc == Ended(outcome)
              && !journal.locked
    ensures old(Historical(journal)) ==>
              && Historical(journal)
              && LawfulTrace(journal.ledger.events) && Recorded(journal.State(), journal.ledger.events)
    ensures old(Historical(journal)) && outcome == Done ==>
              CompletedBelow(journal.State(), 17) && journal.run.Some? && journal.run.value.completed
  {
    hide Exec, MoveOf, LawfulTrace, Recorded;
    ghost var actions: seq<Action> := [];
    if Historical(journal) {
      actions :|
        && History(actions).journal == journal.State()
        && History(actions).log == journal.ledger.events
        && History(actions).holder.None?;
    }
    var acquired := journal.TryLock();
    if !acquired {
      return Blocked;
    }
    journal.ledger.Begin(Config(journal.State(), journal.ledger.events, NewRunner(plan, nowMs)));
    var r;
    ghost var migrationStarted;
    r, migrationStarted := RunPhases(adapter, journal, plan, nowMs);
    journal.Unlock();
    outcome := if r.Ok? then Done else OutcomeOf(r.error);
    if old(Historical(journal)) {
      ghost var all := RunIsHistorical(actions, plan, nowMs, journal.ledger.answers, outcome);
      TraceIsLawful(all);
      JournalRecord(all);
    }
  }
}
