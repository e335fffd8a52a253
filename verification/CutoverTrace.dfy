/** The log of every history read as a protocol: after each event, exactly which event the run under way owes next;
    and how a run ends. The protocol speaks of the log alone. */
module CutoverTrace {
  import opened Wrappers
  import opened FlatCutover
  import opened CutoverMachine
  import opened CutoverSafety
  import opened CutoverHistory

  // ----- the protocol -----

  /** The beginning of the current run. */
  function Beginning(log: seq<Event>): (e: Option<Event>)
    ensures e.Some? ==> e.value.RunBegan?
  {
    if log == [] then None
    else if log[|log| - 1].RunBegan? then Some(log[|log| - 1])
    else Beginning(log[..|log| - 1])
  }

  /** The current run has passed a clean preflight. */
  predicate Preflighted(log: seq<Event>) {
    exists i :: 0 <= i < |log| && IsPreflight(log[i]) && SameRun(log, i)
  }

  predicate IsPreflight(e: Event) {
    e.Inspected? && e.clean && !e.requireWriterFence
  }

  /** The log has a row event of the phase. */
  predicate Journalled(log: seq<Event>, p: Phase) {
    exists i :: 0 <= i < |log| && JournalEvent(log[i], p)
  }

  /** The last event of the log, of the given phase, directly follows the application of its effect. */
  predicate FollowsEffect(log: seq<Event>, p: Phase) {
    |log| >= 2 && log[|log| - 2].AppliedTo? && log[|log| - 2].phase == p
  }

  /** It directly follows the finding that the phase is satisfied. */
  predicate FollowsFinding(log: seq<Event>, p: Phase) {
    |log| >= 2 && log[|log| - 2] == Observed(p, true)
  }

  predicate Looks(e: Event, p: Phase) {
    e.Observed? && e.phase == p
  }

  /** The event that opens the turn of a phase in the loop; after the last phase the run is marked completed. */
  predicate Opens(log: seq<Event>, p: nat, e: Event)
    requires p <= 17
  {
    if p == 17 then e == RunMarkedCompleted
    else if p == PLAN_IDENTITIES then
      if CompletedIn(log, PLAN_IDENTITIES) then Looks(e, STAGE_EXACT_RELEASE) else e == PhaseStarted(PLAN_IDENTITIES)
    else if p == VERIFY_FINAL_FLAT then e == PhaseStarted(VERIFY_FINAL_FLAT)
    else if p == MIGRATE_APPLICATION_SCHEMA && !Journalled(log, MIGRATE_APPLICATION_SCHEMA) then
      e == PhaseStarted(MIGRATE_APPLICATION_SCHEMA)
    else Looks(e, p)
  }

  /** Whether the phase is being staged, before the preflight, rather than taken in the loop. */
  predicate Staged(log: seq<Event>, p: Phase) {
    p == STAGE_EXACT_RELEASE && !Preflighted(log)
  }

  /** After a phase is done with. */
  predicate GoesOn(log: seq<Event>, p: Phase, e: Event) {
    if Staged(log, p) then e.Inspected? && !e.requireWriterFence else Opens(log, p + 1, e)
  }

  /** The event the current run owes next. */
  predicate Owed(log: seq<Event>, e: Event) {
    log != [] &&
    match log[|log| - 1]
    case RunBegan(_, _) =>
      // a cutover already migrating goes straight to the migration
      if MigrationWritten(log) then Opens(log, MIGRATE_APPLICATION_SCHEMA, e) else Looks(e, STAGE_EXACT_RELEASE)
    case Inspected(clean, fenceRequired, facts) =>
      if !fenceRequired then clean && Opens(log, PLAN_IDENTITIES, e)
      else if clean then e == PhaseCompleted(VERIFY_FINAL_FLAT)
      else e.PhaseFailed? && e.phase == VERIFY_FINAL_FLAT && e.error.VerificationBlocked? && e.error.facts == facts
           && Beginning(log).Some? && Beginning(log).value.identities == e.error.plan
    case Observed(p, satisfied) =>
      if FollowsEffect(log, p) then
        e == if satisfied then PhaseCompleted(p) else PhaseFailed(p, PostconditionFailed(p))
      else if !satisfied || !CompletedIn(log, p) then e == PhaseStarted(p)
      else GoesOn(log, p, e)
    case PhaseStarted(p) =>
      if p == VERIFY_FINAL_FLAT then e.Inspected? && e.requireWriterFence
      else if p == PLAN_IDENTITIES || FollowsFinding(log, p) then e == PhaseCompleted(p)
      else e.AppliedTo? && e.phase == p
    case AppliedTo(p, _) => Looks(e, p) || (e.PhaseFailed? && e.phase == p && e.error.AdapterError?)
    case PhaseCompleted(p) => GoesOn(log, p, e)
    case _ => false
  }

  /** What a run may add to the log: what it owes, of its own identities, with its inspections judged by the gate. */
  predicate Lawful(log: seq<Event>, e: Event) {
    if e.RunBegan? then true
    else
      && Owed(log, e) && Beginning(log).Some?
      && (e.AppliedTo? ==> e.plan == Beginning(log).value.identities)
      && (e.Inspected? ==>
            (e.clean <==> FlatAndIdentical(Beginning(log).value.identities, e.facts, e.requireWriterFence)))
  }

  ghost predicate LawfulTrace(log: seq<Event>) {
    forall k | 0 <= k < |log| :: Lawful(log[..k], log[k])
  }

  // ----- where the machine stands in it -----

  /** The loop has come to phase p. */
  predicate Arrived(log: seq<Event>, p: nat, migrationStarted: bool)
    requires log != []
  {
    (!migrationStarted ==> Preflighted(log)) &&
    match log[|log| - 1]
    case RunBegan(_, _) => migrationStarted && p <= MIGRATE_APPLICATION_SCHEMA
    case Inspected(clean, fenceRequired, _) =>
      && !migrationStarted && clean && !fenceRequired
      && (p == PLAN_IDENTITIES || (p == STAGE_EXACT_RELEASE && CompletedIn(log, PLAN_IDENTITIES)))
    case Observed(q, satisfied) =>
      && satisfied && !FollowsEffect(log, q) && CompletedIn(log, q) && !Staged(log, q) && p == q + 1
      && (migrationStarted ==> q >= MIGRATE_APPLICATION_SCHEMA)
    case PhaseCompleted(q) => !Staged(log, q) && p == q + 1 && (migrationStarted ==> q >= MIGRATE_APPLICATION_SCHEMA)
    case _ => false
  }

  /** A journalled effect is the staging step's exactly before the preflight. */
  predicate Called(log: seq<Event>, r: Runner, p: Phase, caller: Caller) {
    && (caller == Staging <==> Staged(log, p))
    && (caller == Loop && !r.migrationStarted ==> Preflighted(log))
  }

  predicate Stands(log: seq<Event>, j: Journal, r: Runner) {
    r.pc.EnsureRunAt? || r.pc.Ended? ||
    (log != [] && Beginning(log) == Some(RunBegan(r.plan, r.nowMs)) &&
     var last := log[|log| - 1];
     match r.pc
     case ScanAt(_) => last.RunBegan?
     case StageStatusAt => last.RunBegan?
     case StageCheckAt(was) => last.RunBegan? && (was <==> CompletedIn(log, STAGE_EXACT_RELEASE))
     case PreflightAt =>
       && !Preflighted(log)
       && (|| last == PhaseCompleted(STAGE_EXACT_RELEASE)
           || (last == Observed(STAGE_EXACT_RELEASE, true) && !FollowsEffect(log, STAGE_EXACT_RELEASE)
               && CompletedIn(log, STAGE_EXACT_RELEASE)))
     case StatusAt(p) => Arrived(log, p, r.migrationStarted)
     case CheckAt(p, status) =>
       Arrived(log, p, r.migrationStarted) && (status == Some(Completed) <==> CompletedIn(log, p))
     case StartVerifyAt => Arrived(log, VERIFY_FINAL_FLAT, r.migrationStarted)
     case MarkRunAt => Arrived(log, 17, r.migrationStarted)
     case StartSatisfiedAt(p, caller) =>
       && Called(log, r, p, caller)
       && (if p == PLAN_IDENTITIES then Arrived(log, p, r.migrationStarted) && !CompletedIn(log, p)
           else last == Observed(p, true) && !FollowsEffect(log, p) && !CompletedIn(log, p))
     case StartEffectAt(p, caller) =>
       && Called(log, r, p, caller)
       && (|| (last == Observed(p, false) && !FollowsEffect(log, p))
           || (p == MIGRATE_APPLICATION_SCHEMA && Arrived(log, p, r.migrationStarted) && !Journalled(log, p)))
     case ApplyAt(p, caller) => Called(log, r, p, caller) && last == PhaseStarted(p) && !FollowsFinding(log, p)
     case PostcheckAt(p, caller) => Called(log, r, p, caller) && last.AppliedTo? && last.phase == p
     case FailAt(p, error) =>
       || (last.AppliedTo? && last.phase == p && error.AdapterError?)
       || (last == Observed(p, false) && FollowsEffect(log, p) && error == PostconditionFailed(p))
     case CompleteAt(p, caller) =>
       && Called(log, r, p, caller)
       && (|| (last == PhaseStarted(p) && p != VERIFY_FINAL_FLAT && (p == PLAN_IDENTITIES || FollowsFinding(log, p)))
           || (last == Observed(p, true) && FollowsEffect(log, p))
           || (p == VERIFY_FINAL_FLAT && last.Inspected? && last.requireWriterFence && last.clean))
     case VerifyAt => last == PhaseStarted(VERIFY_FINAL_FLAT) && (!r.migrationStarted ==> Preflighted(log))
     case FailVerifyAt(error) =>
       && last.Inspected? && last.requireWriterFence && !last.clean
       && error == VerificationBlocked(r.plan, last.facts))
  }

  // ----- how the log grows -----

  lemma Grows(log: seq<Event>, e: Event)
    requires !e.RunBegan?
    ensures Beginning(log + [e]) == Beginning(log)
    ensures Preflighted(log + [e]) <==> IsPreflight(e) || Preflighted(log)
    ensures forall p: Phase :: CompletedIn(log + [e], p) <==> e == PhaseCompleted(p) || (!JournalEvent(e, p) && CompletedIn(log, p))
    ensures forall p: Phase :: FollowsEffect(log + [e], p) <==> log != [] && log[|log| - 1].AppliedTo? && log[|log| - 1].phase == p
    ensures forall p: Phase :: FollowsFinding(log + [e], p) <==> log != [] && log[|log| - 1] == Observed(p, true)
  {
    var log' := log + [e];
    assert log'[..|log|] == log;
    PreflightGrows(log, e);
    forall p: Phase
      ensures CompletedIn(log', p) <==> e == PhaseCompleted(p) || (!JournalEvent(e, p) && CompletedIn(log, p))
    {
      CompletedGrows(log, e, p);
    }
  }

  lemma PreflightGrows(log: seq<Event>, e: Event)
    requires !e.RunBegan?
    ensures Preflighted(log + [e]) <==> IsPreflight(e) || Preflighted(log)
  {
    var log' := log + [e];
    if Preflighted(log) {
      var i :| 0 <= i < |log| && IsPreflight(log[i]) && SameRun(log, i);
      assert IsPreflight(log'[i]) && SameRun(log', i);
    }
    if IsPreflight(e) {
      assert IsPreflight(log'[|log|]) && SameRun(log', |log|);
    }
    if Preflighted(log') && !IsPreflight(e) {
      var i :| 0 <= i < |log'| && IsPreflight(log'[i]) && SameRun(log', i);
      assert i < |log|;
      assert forall k | i <= k < |log| :: log[k] == log'[k];
      assert IsPreflight(log[i]) && SameRun(log, i);
    }
  }

  lemma BeginsAnew(log: seq<Event>, e: Event)
    requires e.RunBegan?
    ensures Beginning(log + [e]) == Some(e) && !Preflighted(log + [e])
  {
  }

  /** What the rows say of the log. */
  lemma RowsMean(j: Journal, log: seq<Event>)
    requires Durable(j, ViewOf(log))
    ensures RowsTold(j, log)
  {
    forall p: Phase
      ensures j.PhaseStatus(p) == Some(Completed) <==> CompletedIn(log, p)
      ensures p in j.rows <==> Journalled(log, p)
    {
      CompletedMeans(log, p);
      StatusMeans(log, p);
    }
    MigrationMeans(log);
    Agreement(j, ViewOf(log));
  }

  /** RowsMean, for all phases. */
  predicate RowsTold(j: Journal, log: seq<Event>) {
    && (forall p: Phase :: j.PhaseStatus(p) == Some(Completed) <==> CompletedIn(log, p))
    && (forall p: Phase :: p in j.rows <==> Journalled(log, p))
    && (Unmigrated(j) <==> !MigrationWritten(log))
  }

  // ----- every step -----

  /** A move adds what the run owes, and goes on standing where the log says. */
  predicate Keeps(log: seq<Event>, m: Move) {
    match m.event
    case Some(e) => Lawful(log, e) && Stands(log + [e], m.journal, m.runner)
    case None => Stands(log, m.journal, m.runner)
  }

  lemma BeginningKeeps(log: seq<Event>, j: Journal, r: Runner, a: Answer)
    requires Sound(j, ViewOf(log), r) && Stands(log, j, r)
    requires r.pc.EnsureRunAt? || r.pc.ScanAt? || r.pc.StageStatusAt?
    ensures Keeps(log, MoveOf(j, r, a)) == true
  {
    RowsMean(j, log);
    hide Durable, ViewOf, FlatAndIdentical;
    if r.pc.EnsureRunAt? {
      BeginsAnew(log, RunBegan(r.plan, r.nowMs));
    }
  }

  lemma StageCheckKeeps(log: seq<Event>, j: Journal, r: Runner, a: Answer)
    requires Sound(j, ViewOf(log), r) && Stands(log, j, r) && r.pc.StageCheckAt?
    ensures Keeps(log, MoveOf(j, r, a)) == true
  {
    RowsMean(j, log);
    hide Durable, ViewOf, FlatAndIdentical;
    Grows(log, Observed(STAGE_EXACT_RELEASE, a.satisfied));
    assert !Preflighted(log);
  }

  lemma PreflightKeeps(log: seq<Event>, j: Journal, r: Runner, a: Answer)
    requires Stands(log, j, r) && r.pc.PreflightAt? && !r.migrationStarted
    ensures Keeps(log, MoveOf(j, r, a)) == true
  {
    hide FlatAndIdentical, CompletedIn, Preflighted, Beginning, Journalled, MigrationWritten;
    var clean := FlatAndIdentical(r.plan, a.facts, false);
    Grows(log, Inspected(clean, false, a.facts));
  }

  /** The loop reads the status of its phase, and skips or acts. */
  lemma StatusKeepsTrace(log: seq<Event>, j: Journal, r: Runner, a: Answer)
    requires Stands(log, j, r) && r.pc.StatusAt?
    requires RowsTold(j, log) && !AfterStatus(r.pc.phase, j.PhaseStatus(r.pc.phase), r.migrationStarted).Ended?
    ensures Keeps(log, MoveOf(j, r, a)) == true
  {
    hide FlatAndIdentical, CompletedIn, Preflighted, Beginning, Journalled, MigrationWritten;
    var p := r.pc.phase;
    assert j.PhaseStatus(p) == Some(Completed) <==> CompletedIn(log, p);
    assert j.PhaseStatus(p).Some? <==> Journalled(log, p);
  }

  lemma CheckKeepsTrace(log: seq<Event>, j: Journal, r: Runner, a: Answer)
    requires Stands(log, j, r) && r.pc.CheckAt?
    requires RowsTold(j, log) && r.pc.phase != PLAN_IDENTITIES && r.pc.phase != VERIFY_FINAL_FLAT
    requires r.pc.phase == MIGRATE_APPLICATION_SCHEMA ==> Journalled(log, r.pc.phase)
    requires r.migrationStarted ==> MigrationWritten(log) && r.pc.phase >= MIGRATE_APPLICATION_SCHEMA
    ensures Keeps(log, MoveOf(j, r, a)) == true
  {
    hide FlatAndIdentical, CompletedIn, Preflighted, Beginning, Journalled, MigrationWritten;
    Grows(log, Observed(r.pc.phase, a.satisfied));
  }


  lemma StartKeepsTrace(log: seq<Event>, j: Journal, r: Runner, a: Answer)
    requires Stands(log, j, r) && (r.pc.StartSatisfiedAt? || r.pc.StartEffectAt?)
    requires RowsTold(j, log) && r.pc.phase != VERIFY_FINAL_FLAT
    requires r.pc.StartEffectAt? ==> r.pc.phase != PLAN_IDENTITIES
    requires r.migrationStarted ==> MigrationWritten(log) && r.pc.phase >= MIGRATE_APPLICATION_SCHEMA
    ensures Keeps(log, MoveOf(j, r, a)) == true
  {
    hide FlatAndIdentical, CompletedIn, Preflighted, Beginning, Journalled, MigrationWritten;
    Grows(log, PhaseStarted(r.pc.phase));
  }

  lemma StartVerifyKeepsTrace(log: seq<Event>, j: Journal, r: Runner, a: Answer)
    requires Stands(log, j, r) && r.pc.StartVerifyAt? && !r.migrationStarted
    ensures Keeps(log, MoveOf(j, r, a)) == true
  {
    hide FlatAndIdentical, CompletedIn, Preflighted, Beginning, Journalled, MigrationWritten;
    Grows(log, PhaseStarted(VERIFY_FINAL_FLAT));
  }

  lemma ApplyKeepsTrace(log: seq<Event>, j: Journal, r: Runner, a: Answer)
    requires Stands(log, j, r) && r.pc.ApplyAt?
    requires r.pc.phase != PLAN_IDENTITIES && r.pc.phase != VERIFY_FINAL_FLAT
    ensures Keeps(log, MoveOf(j, r, a)) == true
  {
    hide FlatAndIdentical, CompletedIn, Preflighted, Beginning, Journalled, MigrationWritten;
    Grows(log, AppliedTo(r.pc.phase, r.plan));
  }

  lemma PostcheckKeepsTrace(log: seq<Event>, j: Journal, r: Runner, a: Answer)
    requires Stands(log, j, r) && r.pc.PostcheckAt?
    ensures Keeps(log, MoveOf(j, r, a)) == true
  {
    hide FlatAndIdentical, CompletedIn, Preflighted, Beginning, Journalled, MigrationWritten;
    Grows(log, Observed(r.pc.phase, a.satisfied));
  }

  lemma VerifyKeepsTrace(log: seq<Event>, j: Journal, r: Runner, a: Answer)
    requires Stands(log, j, r) && r.pc.VerifyAt?
    ensures Keeps(log, MoveOf(j, r, a)) == true
  {
    hide FlatAndIdentical, CompletedIn, Preflighted, Beginning, Journalled, MigrationWritten;
    var clean := FlatAndIdentical(r.plan, a.facts, true);
    Grows(log, Inspected(clean, true, a.facts));
  }

  lemma CompleteKeepsTrace(log: seq<Event>, j: Journal, r: Runner, a: Answer)
    requires Stands(log, j, r) && r.pc.CompleteAt?
    requires r.pc.phase in j.rows && (r.migrationStarted ==> r.pc.phase >= MIGRATE_APPLICATION_SCHEMA)
    ensures Keeps(log, MoveOf(j, r, a)) == true
  {
    hide FlatAndIdentical, CompletedIn, Preflighted, Beginning, Journalled, MigrationWritten;
    Grows(log, PhaseCompleted(r.pc.phase));
  }

  lemma ClosingKeepsTrace(log: seq<Event>, j: Journal, r: Runner, a: Answer)
    requires Stands(log, j, r)
    requires r.pc.FailAt? || r.pc.FailVerifyAt? || r.pc.MarkRunAt? || r.pc.Ended?
    requires r.pc.FailAt? ==> r.pc.phase in j.rows
    requires r.pc.FailVerifyAt? ==> VERIFY_FINAL_FLAT in j.rows
    ensures Keeps(log, MoveOf(j, r, a)) == true
  {
    hide FlatAndIdentical, CompletedIn, Preflighted, Beginning, Journalled, MigrationWritten;
  }

  /** What the invariant of the runner gives at each place. */
  lemma Gates(j: Journal, v: View, r: Runner)
    requires Durable(j, v) && RunnerInv(j, v, r)
    ensures r.migrationStarted && !r.pc.EnsureRunAt? && !r.pc.Ended? && !r.pc.FailAt? && !r.pc.FailVerifyAt? ==> !Unmigrated(j)
    ensures r.pc.PreflightAt? || r.pc.StartVerifyAt? || r.pc.StageCheckAt? ==> !r.migrationStarted
    ensures r.pc.StatusAt? ==> !AfterStatus(r.pc.phase, j.PhaseStatus(r.pc.phase), r.migrationStarted).Ended?
    ensures r.pc.CheckAt? ==>
              && r.pc.phase != PLAN_IDENTITIES && r.pc.phase != VERIFY_FINAL_FLAT
              && (r.pc.phase == MIGRATE_APPLICATION_SCHEMA ==> r.pc.phase in j.rows)
    ensures r.pc.StartSatisfiedAt? ==> r.pc.phase != VERIFY_FINAL_FLAT
    ensures r.pc.StartEffectAt? || r.pc.ApplyAt? ==> r.pc.phase != VERIFY_FINAL_FLAT && r.pc.phase != PLAN_IDENTITIES
    ensures r.pc.CheckAt? || r.pc.StartSatisfiedAt? || r.pc.StartEffectAt? || r.pc.CompleteAt? ==>
              (r.migrationStarted ==> r.pc.phase >= MIGRATE_APPLICATION_SCHEMA)
    ensures r.pc.CompleteAt? || r.pc.FailAt? ==> r.pc.phase in j.rows
    ensures r.pc.FailVerifyAt? ==> VERIFY_FINAL_FLAT in j.rows
  {
    if r.pc.StatusAt? {
      AfterStatusKeeps(j, v, r, r.pc.phase);
    }
    hide Durable, Evidence, CompletedBelow;
  }

  /** One await adds to the log what the run owes, whatever the environment answers. */
  lemma StepIsLawful(log: seq<Event>, j: Journal, r: Runner, a: Answer)
    requires Sound(j, ViewOf(log), r) && Stands(log, j, r)
    ensures Keeps(log, MoveOf(j, r, a)) == true
  {
    RowsMean(j, log);
    Gates(j, ViewOf(log), r);
    hide Sound, Stands, MoveOf, Keeps, ViewOf, CompletedIn, Journalled, MigrationWritten, Unmigrated, AfterStatus;
    match r.pc
    case EnsureRunAt => BeginningKeeps(log, j, r, a);
    case ScanAt(_) => BeginningKeeps(log, j, r, a);
    case StageStatusAt => BeginningKeeps(log, j, r, a);
    case StageCheckAt(_) => StageCheckKeeps(log, j, r, a);
    case PreflightAt => PreflightKeeps(log, j, r, a);
    case StatusAt(_) => StatusKeepsTrace(log, j, r, a);
    case CheckAt(_, _) => CheckKeepsTrace(log, j, r, a);
    case StartSatisfiedAt(_, _) => StartKeepsTrace(log, j, r, a);
    case StartEffectAt(_, _) => StartKeepsTrace(log, j, r, a);
    case StartVerifyAt => StartVerifyKeepsTrace(log, j, r, a);
    case ApplyAt(_, _) => ApplyKeepsTrace(log, j, r, a);
    case PostcheckAt(_, _) => PostcheckKeepsTrace(log, j, r, a);
    case VerifyAt => VerifyKeepsTrace(log, j, r, a);
    case CompleteAt(_, _) => CompleteKeepsTrace(log, j, r, a);
    case FailAt(_, _) => ClosingKeepsTrace(log, j, r, a);
    case FailVerifyAt(_) => ClosingKeepsTrace(log, j, r, a);
    case MarkRunAt => ClosingKeepsTrace(log, j, r, a);
    case Ended(_) => ClosingKeepsTrace(log, j, r, a);
  }

  // ----- every history -----

  lemma {:induction false} TraceStep(log: seq<Event>, e: Event)
    requires LawfulTrace(log) && Lawful(log, e)
    ensures LawfulTrace(log + [e])
  {
    hide Lawful;
    forall k | 0 <= k < |log| + 1 ensures Lawful((log + [e])[..k], (log + [e])[k]) {
      assert (log + [e])[..k] == log[..k];
      assert log[..|log|] == log;
    }
  }

  /** The process past the lock stands where the log says. */
  predicate HolderStands(s: System) {
    s.holder.Some? && s.holder.value in s.processes && s.processes[s.holder.value].Running? ==>
      Stands(s.log, s.journal, s.processes[s.holder.value].runner)
  }

  lemma ActIsLawful(s: System, action: Action)
    requires Consistent(s) && HolderStands(s) && LawfulTrace(s.log)
    ensures HolderStands(Act(s, action)) && LawfulTrace(Act(s, action).log)
  {
    hide Durable, MoveOf, RunnerInv, LicensedLog, ViewOf, Lawful, LawfulTrace, Stands;
    if action.Advance? && action.id in s.processes {
      var p := s.processes[action.id];
      if p.Live() {
        StepIsLawful(s.log, s.journal, p.runner, action.answer);
        var m := MoveOf(s.journal, p.runner, action.answer);
        if m.event.Some? {
          TraceStep(s.log, m.event.value);
        }
      } else if p.Waiting? {
        NewRunnerStands(s.log, s.journal, p.plan, p.nowMs);
      }
    }
  }

  lemma NewRunnerStands(log: seq<Event>, j: Journal, plan: Identities, nowMs: int)
    ensures Stands(log, j, NewRunner(plan, nowMs))
  {
  }

  /** The log of every history follows the protocol: an event is the beginning of a run, or the one the current run
      owes; an inspection is clean exactly when the gate finds the world flat and identical. */
  lemma {:induction false} TraceIsLawful(actions: seq<Action>)
    ensures LawfulTrace(History(actions).log) && HolderStands(History(actions))
  {
    if actions != [] {
      var init := actions[..|actions| - 1];
      TraceIsLawful(init);
      HistoryConsistent(init);
      hide Act, LawfulTrace, HolderStands, Consistent;
      ActIsLawful(History(init), actions[|actions| - 1]);
    }
  }

  /** A preflight that is not clean is the last thing its run does. */
  lemma NothingAfterDirtyPreflight(actions: seq<Action>, k: nat)
    requires k + 1 < |History(actions).log|
    requires var e := History(actions).log[k]; e.Inspected? && !e.clean && !e.requireWriterFence
    ensures History(actions).log[k + 1].RunBegan?
  {
    TraceIsLawful(actions);
    var log := History(actions).log;
    assert Lawful(log[..k + 1], log[k + 1]);
  }

  /** The events of a run before its preflight. */
  predicate StagingEvent(e: Event) {
    match e
    case RunBegan(_, _) => true
    case Observed(p, _) => p == STAGE_EXACT_RELEASE
    case PhaseStarted(p) => p == STAGE_EXACT_RELEASE
    case AppliedTo(p, _) => p == STAGE_EXACT_RELEASE
    case PhaseCompleted(p) => p == STAGE_EXACT_RELEASE
    case PhaseFailed(p, _) => p == STAGE_EXACT_RELEASE
    case Inspected(_, fenceRequired, _) => !fenceRequired
    case _ => false
  }

  lemma BeganBefore(log: seq<Event>, e: Event)
    requires BeganUnmigrated(log + [e]) && !e.RunBegan?
    ensures BeganUnmigrated(log)
  {
    var log' := log + [e];
    forall b: nat | b < |log| && BeganAt(log, b) ensures !MigrationWritten(log[..b]) {
      assert log[..b] == log'[..b];
      assert BeganAt(log', b);
    }
  }

  lemma BeginsUnmigrated(log: seq<Event>, e: Event)
    requires BeganUnmigrated(log + [e]) && e.RunBegan?
    ensures !MigrationWritten(log + [e])
  {
    var log' := log + [e];
    assert BeganAt(log', |log|);
    assert log'[..|log|] == log;
  }

  lemma StagingStays(log: seq<Event>, e: Event)
    requires log != [] && StagingEvent(log[|log| - 1]) && Owed(log, e) && !e.RunBegan?
    requires !Preflighted(log) && (log[|log| - 1].RunBegan? ==> !MigrationWritten(log))
    ensures StagingEvent(e) || log[|log| - 1].Inspected?
    ensures log[|log| - 1].Inspected? ==> log[|log| - 1].clean
  {
    hide CompletedIn, Preflighted, MigrationWritten, Journalled, Opens;
  }

  lemma TracePrefix(log: seq<Event>, k: nat)
    requires LawfulTrace(log) && k <= |log|
    ensures LawfulTrace(log[..k])
  {
    hide Lawful;
    assert forall i | 0 <= i < k :: log[..k][..i] == log[..i] && log[..k][i] == log[i];
  }

  lemma NotEmpty(log: seq<Event>, e: Event)
    requires Owed(log, e)
    ensures log != []
  {
  }

  lemma LastIsLawful(log: seq<Event>)
    requires LawfulTrace(log) && log != []
    ensures Lawful(log[..|log| - 1], log[|log| - 1])
  {
    hide Lawful;
  }

  lemma PreflightStands(log: seq<Event>)
    requires log != [] && IsPreflight(log[|log| - 1])
    ensures Preflighted(log)
  {
    assert IsPreflight(log[|log| - 1]) && SameRun(log, |log| - 1);
  }

  lemma {:induction false} StagingOnly(log: seq<Event>)
    requires LawfulTrace(log) && log != [] && BeganUnmigrated(log) && !Preflighted(log)
    ensures StagingEvent(log[|log| - 1])
    ensures log[|log| - 1].RunBegan? ==> !MigrationWritten(log)
  {
    var init, e := log[..|log| - 1], log[|log| - 1];
    assert log == init + [e];
    LastIsLawful(log);
    TracePrefix(log, |init|);
    hide LawfulTrace, BeganUnmigrated, Preflighted, MigrationWritten, Owed;
    if e.RunBegan? {
      BeginsUnmigrated(init, e);
    } else {
      BeganBefore(init, e);
      PreflightGrows(init, e);
      NotEmpty(init, e);
      StagingOnly(init);
      StagingStays(init, e);
      if IsPreflight(init[|init| - 1]) {
        PreflightStands(init);
      }
    }
  }

  /** An event outside the staging step has a clean preflight before it. */
  lemma LoopIsPreflighted(log: seq<Event>, e: Event)
    requires LawfulTrace(log) && Owed(log, e) && BeganUnmigrated(log) && !e.RunBegan? && !StagingEvent(e)
    ensures Preflighted(log)
  {
    hide BeganUnmigrated, Owed;
    if !Preflighted(log) {
      NotEmpty(log, e);
      StagingOnly(log);
      StagingStays(log, e);
    }
  }

  /** Such a preflight found the world flat and identical. */
  lemma PreflightIsFlat(log: seq<Event>)
    requires LawfulTrace(log) && Preflighted(log)
    ensures Beginning(log).Some?
    ensures exists i :: 0 <= i < |log| && IsPreflight(log[i]) && SameRun(log, i)
                        && FlatAndIdentical(Beginning(log).value.identities, log[i].facts, false)
  {
    hide FlatAndIdentical;
    var i :| 0 <= i < |log| && IsPreflight(log[i]) && SameRun(log, i);
    assert Lawful(log[..i], log[i]);
    BeginningStays(log, i);
  }

  /** In a run that began with nothing of the migration journalled, every row and every effect of a phase, the staging
      of the release apart, follows a preflight of the same run that found the world flat and identical. */
  lemma PreflightGoverns(actions: seq<Action>, k: nat)
    requires k < |History(actions).log| && BeganUnmigrated(History(actions).log[..k])
    requires
      var e := History(actions).log[k];
      (e.PhaseStarted? || e.AppliedTo?) && e.phase != STAGE_EXACT_RELEASE
    ensures
      var before := History(actions).log[..k];
      && Beginning(before).Some?
      && exists i :: 0 <= i < k && IsPreflight(before[i]) && SameRun(before, i)
                     && FlatAndIdentical(Beginning(before).value.identities, before[i].facts, false)
  {
    TraceIsLawful(actions);
    var log := History(actions).log;
    assert Lawful(log[..k], log[k]);
    hide FlatAndIdentical, LawfulTrace, BeganUnmigrated, Owed;
    TracePrefix(log, k);
    LoopIsPreflighted(log[..k], log[k]);
    PreflightIsFlat(log[..k]);
  }

  lemma {:induction false} BeginningStays(log: seq<Event>, i: nat)
    requires i < |log| && SameRun(log, i)
    ensures Beginning(log) == Beginning(log[..i])
  {
    var init := log[..|log| - 1];
    if i < |log| - 1 {
      assert forall k | 0 <= k < |init| :: init[k] == log[k];
      BeginningStays(init, i);
      assert init[..i] == log[..i];
    }
  }

  // ----- how a run ends -----

  /** What the last await before the end of a run was, and what the run left in the log. */
  predicate EndsFor(outcome: Outcome, fate: Fate, r: Runner, j: Journal, before: seq<Event>, log: seq<Event>) {
    match outcome
    case Done => fate.Returned? && log == before + [RunMarkedCompleted]
    case Blocked =>
      && fate.Returned?
      && (|| (log == before && r.pc.EnsureRunAt? && j.run.Some? && j.run.value.identities != r.plan)
          || (log != [] && log[|log| - 1].Inspected? && !log[|log| - 1].clean && !log[|log| - 1].requireWriterFence)
          || (log != [] && log[|log| - 1].PhaseFailed? && log[|log| - 1].error.VerificationBlocked?))
    case Errored =>
      if fate.Returned? then log != [] && log[|log| - 1].PhaseFailed? && !log[|log| - 1].error.VerificationBlocked?
      else fate.Raised? && log == before && !r.pc.ApplyAt? && !r.pc.PostcheckAt?
    case Died => !fate.Returned?
  }

  /** A run goes on after an await that returned, or to journal the failure of an effect whose application or check
      raised. */
  predicate GoesOnFor(fate: Fate, log: seq<Event>, pc: Pc) {
    || fate.Returned?
    || (fate.Raised? && log != [] && log[|log| - 1].AppliedTo?
        && pc == FailAt(log[|log| - 1].phase, AdapterError(fate.error)))
  }

  /** The move ends its run as it may, or goes on as it may. */
  predicate EndsWell(log: seq<Event>, r: Runner, a: Answer, m: Move) {
    var log' := if m.event.Some? then log + [m.event.value] else log;
    if m.runner.pc.Ended? then EndsFor(m.runner.pc.outcome, a.fate, r, m.journal, log, log')
    else GoesOnFor(a.fate, log', m.runner.pc)
  }

  lemma ReadEnds(log: seq<Event>, j: Journal, r: Runner, a: Answer)
    requires r.pc.ScanAt? || r.pc.StageStatusAt? || r.pc.StageCheckAt? || r.pc.PreflightAt? || r.pc.StatusAt?
          || r.pc.CheckAt? || r.pc.VerifyAt?
    requires r.pc.StatusAt? ==> !AfterStatus(r.pc.phase, j.PhaseStatus(r.pc.phase), r.migrationStarted).Ended?
    ensures EndsWell(log, r, a, MoveOf(j, r, a)) == true
  {
    hide FlatAndIdentical, AfterStatus;
  }

  lemma WriteEnds(log: seq<Event>, j: Journal, r: Runner, a: Answer)
    requires r.pc.EnsureRunAt? || r.pc.StartSatisfiedAt? || r.pc.StartEffectAt? || r.pc.StartVerifyAt? || r.pc.CompleteAt?
    requires r.pc.CompleteAt? ==> r.pc.phase in j.rows
    ensures EndsWell(log, r, a, MoveOf(j, r, a)) == true
  {
    hide FlatAndIdentical;
  }

  lemma CloseEnds(log: seq<Event>, j: Journal, r: Runner, a: Answer)
    requires r.pc.FailAt? || r.pc.FailVerifyAt? || r.pc.MarkRunAt?
    requires r.pc.FailAt? ==> r.pc.phase in j.rows && !r.pc.error.VerificationBlocked?
    requires r.pc.FailVerifyAt? ==> VERIFY_FINAL_FLAT in j.rows && r.pc.error.VerificationBlocked?
    requires r.pc.MarkRunAt? ==> j.run.Some?
    ensures EndsWell(log, r, a, MoveOf(j, r, a)) == true
  {
    hide FlatAndIdentical;
  }

  lemma EffectEnds(log: seq<Event>, j: Journal, r: Runner, a: Answer)
    requires r.pc.ApplyAt? || r.pc.PostcheckAt?
    requires r.pc.PostcheckAt? ==> log != [] && log[|log| - 1].AppliedTo? && log[|log| - 1].phase == r.pc.phase
    ensures EndsWell(log, r, a, MoveOf(j, r, a)) == true
  {
    hide FlatAndIdentical;
  }

  lemma StepEnds(log: seq<Event>, j: Journal, r: Runner, a: Answer)
    requires Sound(j, ViewOf(log), r) && Stands(log, j, r) && !r.pc.Ended?
    ensures EndsWell(log, r, a, MoveOf(j, r, a)) == true
  {
    Gates(j, ViewOf(log), r);
    hide MoveOf, EndsWell, AfterStatus, Durable, ViewOf, CompletedIn, Preflighted, Beginning, Journalled, Arrived, Called,
      Scanned, Evidence, AtLoop, Acting, Underway, AtStaging, FollowsEffect, FollowsFinding;
    match r.pc
    case ApplyAt(_, _) => EffectEnds(log, j, r, a);
    case PostcheckAt(_, _) => EffectEnds(log, j, r, a);
    case FailAt(_, _) => CloseEnds(log, j, r, a);
    case FailVerifyAt(_) => CloseEnds(log, j, r, a);
    case MarkRunAt => CloseEnds(log, j, r, a);
    case EnsureRunAt => WriteEnds(log, j, r, a);
    case StartSatisfiedAt(_, _) => WriteEnds(log, j, r, a);
    case StartEffectAt(_, _) => WriteEnds(log, j, r, a);
    case StartVerifyAt => WriteEnds(log, j, r, a);
    case CompleteAt(_, _) => WriteEnds(log, j, r, a);
    case _ => ReadEnds(log, j, r, a);
  }

  /** How every run ends: completed when it has marked the run; refused for another plan's identities, a dirty
      preflight or a final verification journalled as failed; raising what a read raised, or what it has journalled as
      the failure of its last event; or cut off. Every other await carries it on. */
  lemma RunsEndFor(actions: seq<Action>, id: nat, a: Answer)
    requires var s := History(actions); id in s.processes && s.processes[id].Live()
    ensures
      var s, s' := History(actions), History(actions + [Advance(id, a)]);
      && id in s'.processes && s'.processes[id].Running?
      && var r, r' := s.processes[id].runner, s'.processes[id].runner;
         if r'.pc.Ended? then EndsFor(r'.pc.outcome, a.fate, r, s'.journal, s.log, s'.log)
         else GoesOnFor(a.fate, s'.log, r'.pc)
  {
    HistoryConsistent(actions);
    TraceIsLawful(actions);
    Extend(actions, Advance(id, a));
    hide Stands, EndsFor, GoesOnFor, MoveOf, LawfulTrace, LicensedLog, Durable, RunnerInv, History, ViewOf;
    var s := History(actions);
    StepEnds(s.log, s.journal, s.processes[id].runner, a);
  }

  lemma FailWrites(j: Journal, r: Runner, a: Answer)
    requires r.pc.FailAt? && r.pc.phase in j.rows && a.fate.Returned?
    ensures MoveOf(j, r, a).event == Some(PhaseFailed(r.pc.phase, r.pc.error))
    ensures MoveOf(j, r, a).runner.pc == Ended(Errored)
  {
  }

  /** An effect that raised is journalled with the text it raised, and ends its run. */
  lemma RaisedEffectIsJournalled(actions: seq<Action>, id: nat, raised: Answer, written: Answer)
    requires var s := History(actions); id in s.processes && s.processes[id].Live()
    requires raised.fate.Raised? && written.fate.Returned?
    requires
      var s := History(actions + [Advance(id, raised)]);
      id in s.processes && s.processes[id].Live()
    ensures
      var s := History(actions + [Advance(id, raised)]);
      var s' := History(actions + [Advance(id, raised)] + [Advance(id, written)]);
      && s.log != [] && s.log[|s.log| - 1].AppliedTo?
      && s'.log == s.log + [PhaseFailed(s.log[|s.log| - 1].phase, AdapterError(raised.fate.error))]
      && s'.processes[id] == Running(s.processes[id].runner.(pc := Ended(Errored)))
  {
    var more := actions + [Advance(id, raised)];
    RunsEndFor(actions, id, raised);
    HistoryConsistent(more);
    Extend(more, Advance(id, written));
    hide Durable, LicensedLog, History, ViewOf, MoveOf;
    var s := History(more);
    FailWrites(s.journal, s.processes[id].runner, written);
    FailKeepsRunner(s.journal, s.processes[id].runner, written);
  }

  lemma FailKeepsRunner(j: Journal, r: Runner, a: Answer)
    requires r.pc.FailAt?
    ensures MoveOf(j, r, a).runner == r.(pc := MoveOf(j, r, a).runner.pc)
  {
  }
}
