/** The design reads as though the schema migration were only ever applied right after a clean final
    verification. Across a crash that is not so: this module builds the history that shows it. */
module CutoverResumeGap {
  import opened Wrappers
  import opened FlatCutover
  import opened CutoverMachine
  import opened CutoverSafety
  import opened CutoverHistory

  predicate NothingApplied(log: seq<Event>) {
    forall e <- log :: !e.AppliedTo?
  }

  /** The given process is the one past the lock. */
  predicate Alone(s: System, id: nat) {
    Consistent(s) && id in s.processes && s.processes[id].Live() && s.holder == Some(id)
  }

  /** Places of a first run that has met nothing but satisfied phases and clean facts. */
  predicate Approaching(r: Runner) {
    && !r.migrationStarted
    && match r.pc
       case EnsureRunAt => true
       case ScanAt(_) => true
       case StageStatusAt => true
       case StageCheckAt(_) => true
       case PreflightAt => true
       case StatusAt(p) => p <= MIGRATE_APPLICATION_SCHEMA
       case CheckAt(p, _) => p < MIGRATE_APPLICATION_SCHEMA
       case StartSatisfiedAt(p, caller) => if caller == Staging then p == STAGE_EXACT_RELEASE else p < MIGRATE_APPLICATION_SCHEMA
       case CompleteAt(p, caller) => if caller == Staging then p == STAGE_EXACT_RELEASE else p < MIGRATE_APPLICATION_SCHEMA
       case StartVerifyAt => true
       case VerifyAt => true
       case StartEffectAt(p, caller) => p == MIGRATE_APPLICATION_SCHEMA && caller == Loop
       case _ => false
  }

  lemma ApproachStep(j: Journal, v: View, r: Runner, facts: CutoverFacts)
    requires Durable(j, v) && RunnerInv(j, v, r) && Unmigrated(j)
    requires j.run.None? || j.run.value.identities == r.plan
    requires FlatAndIdentical(r.plan, facts, true)
    requires Approaching(r) && r.pc != StartEffectAt(MIGRATE_APPLICATION_SCHEMA, Loop)
    ensures
      var m := MoveOf(j, r, Answer(Returned, true, facts));
      && Approaching(m.runner) && m.runner.plan == r.plan && Unmigrated(m.journal)
      && m.journal.run.Some? && m.journal.run.value.identities == r.plan
      && (m.event.Some? ==> !m.event.value.AppliedTo?)
  {
    assert FlatAndIdentical(r.plan, facts, false);
    hide Durable, FlatAndIdentical, Evidence, Scanned;
  }

  /** The first run gets to the point where it will journal the migration. */
  lemma FirstRun(plan: Identities, facts: CutoverFacts, nowMs: int) returns (actions: seq<Action>)
    requires FlatAndIdentical(plan, facts, true)
    ensures
      var s := History(actions);
      && Alone(s, 0) && s.processes.Keys == {0} && NothingApplied(s.log)
      && s.processes[0].runner.pc == StartEffectAt(MIGRATE_APPLICATION_SCHEMA, Loop)
      && s.processes[0].runner.plan == plan
      && Unmigrated(s.journal) && s.journal.run.Some? && s.journal.run.value.identities == plan
  {
    hide Durable, RunnerInv, MoveOf, FlatAndIdentical, Licensed;
    var yes := Answer(Returned, true, facts);
    var launched := [Launch(0, plan, nowMs)];
    assert History([]) == START;
    Extend([], Launch(0, plan, nowMs));
    assert [] + launched == launched;
    Extend(launched, Advance(0, yes));
    actions := launched + [Advance(0, yes)];
    HistoryConsistent(actions);
    while History(actions).processes[0].runner.pc != StartEffectAt(MIGRATE_APPLICATION_SCHEMA, Loop)
      invariant Alone(History(actions), 0) && History(actions).processes.Keys == {0}
      invariant NothingApplied(History(actions).log) && Unmigrated(History(actions).journal)
      invariant Approaching(History(actions).processes[0].runner)
      invariant History(actions).processes[0].runner.plan == plan
      invariant
        var j, r := History(actions).journal, History(actions).processes[0].runner;
        if j.run.None? then r.pc.EnsureRunAt? else j.run.value.identities == plan
      decreases Rank(History(actions).processes[0].runner.pc)
    {
      var s := History(actions);
      var r := s.processes[0].runner;
      ApproachStep(s.journal, ViewOf(s.log), r, facts);
      EveryStepDescends(s.journal, r, yes);
      Extend(actions, Advance(0, yes));
      actions := actions + [Advance(0, yes)];
      HistoryConsistent(actions);
    }
  }

  /** Places of a resumed run on its way through the phases it skips. */
  predicate Skipping(r: Runner) {
    match r.pc
    case EnsureRunAt => true
    case ScanAt(p) => p == MIGRATE_APPLICATION_SCHEMA
    case StatusAt(p) => r.migrationStarted && p <= MIGRATE_APPLICATION_SCHEMA
    case CheckAt(p, _) => p == MIGRATE_APPLICATION_SCHEMA
    case StartEffectAt(p, _) => p == MIGRATE_APPLICATION_SCHEMA
    case ApplyAt(p, _) => p == MIGRATE_APPLICATION_SCHEMA
    case _ => false
  }

  lemma SkipStep(j: Journal, v: View, r: Runner, facts: CutoverFacts)
    requires Durable(j, v) && RunnerInv(j, v, r) && MIGRATE_APPLICATION_SCHEMA in j.rows
    requires j.run.Some? && j.run.value.identities == r.plan
    requires Skipping(r) && !r.pc.ApplyAt? && (r.pc.EnsureRunAt? || !v.cleared)
    ensures
      var m := MoveOf(j, r, Answer(Returned, false, facts));
      && Skipping(m.runner) && m.runner.plan == r.plan && !m.runner.pc.EnsureRunAt?
      && m.journal.run.Some? && m.journal.run.value.identities == r.plan
      && MIGRATE_APPLICATION_SCHEMA in m.journal.rows
      && (m.event.Some? ==> !m.event.value.AppliedTo? && !v.After(m.event.value).cleared)
      && (m.event.None? ==> !v.cleared)
  {
    assert CompletedBelow(j, MIGRATE_APPLICATION_SCHEMA);
    hide Durable, FlatAndIdentical, Evidence, Scanned;
  }

  /** What a resumed run keeps on its way: it is alone, and nothing has been applied or verified in it. */
  predicate Resuming(s: System, plan: Identities) {
    && Alone(s, 1) && NothingApplied(s.log)
    && MIGRATE_APPLICATION_SCHEMA in s.journal.rows
    && Skipping(s.processes[1].runner)
    && s.processes[1].runner.plan == plan
    && s.journal.run.Some? && s.journal.run.value.identities == plan
    && (s.processes[1].runner.pc.EnsureRunAt? || !ViewOf(s.log).cleared)
  }

  lemma ActingRunner(s: System, id: nat, a: Answer)
    requires id in s.processes && s.processes[id].Live()
    ensures
      var m := MoveOf(s.journal, s.processes[id].runner, a);
      Act(s, Advance(id, a)) == System(m.journal,
        if m.event.Some? then s.log + [m.event.value] else s.log,
        if m.runner.pc.Ended? then None else s.holder,
        s.processes[id := Running(m.runner)])
  {
    hide MoveOf;
  }

  lemma StartStep(j: Journal, r: Runner, p: Phase, facts: CutoverFacts)
    requires r.pc == StartEffectAt(p, Loop)
    ensures
      var m := MoveOf(j, r, Answer(DiedAfter, true, facts));
      && m.runner.pc.Ended? && p in m.journal.rows && m.journal.run == j.run
      && m.event == Some(PhaseStarted(p))
  {
  }

  /** The first process dies just after journalling the migration; a second one takes the lock. */
  lemma CrashAndRelaunch(actions: seq<Action>, plan: Identities, facts: CutoverFacts, nowMs: int)
    returns (more: seq<Action>)
    requires
      var s := History(actions);
      && Alone(s, 0) && s.processes.Keys == {0} && NothingApplied(s.log)
      && s.processes[0].runner.pc == StartEffectAt(MIGRATE_APPLICATION_SCHEMA, Loop)
      && s.journal.run.Some? && s.journal.run.value.identities == plan
    ensures Resuming(History(more), plan)
  {
    hide Durable, RunnerInv, FlatAndIdentical, Licensed, MoveOf;
    var dies := Answer(DiedAfter, true, facts);
    var s := History(actions);
    StartStep(s.journal, s.processes[0].runner, MIGRATE_APPLICATION_SCHEMA, facts);
    ActingRunner(s, 0, dies);
    Extend(actions, Advance(0, dies));
    var crashed := actions + [Advance(0, dies)];
    Extend(crashed, Launch(1, plan, nowMs));
    var launched := crashed + [Launch(1, plan, nowMs)];
    Extend(launched, Advance(1, Answer(Returned, false, facts)));
    more := launched + [Advance(1, Answer(Returned, false, facts))];
    HistoryConsistent(more);
  }

  lemma ResumeStep(s: System, plan: Identities, facts: CutoverFacts)
    requires Resuming(s, plan) && !s.processes[1].runner.pc.ApplyAt?
    ensures
      var s' := Act(s, Advance(1, Answer(Returned, false, facts)));
      Resuming(s', plan) && Rank(s'.processes[1].runner.pc) < Rank(s.processes[1].runner.pc)
  {
    hide Durable, RunnerInv, FlatAndIdentical, Licensed, MoveOf, Rank;
    var no := Answer(Returned, false, facts);
    var r := s.processes[1].runner;
    SkipStep(s.journal, ViewOf(s.log), r, facts);
    EveryStepDescends(s.journal, r, no);
    ActingRunner(s, 1, no);
    var m := MoveOf(s.journal, r, no);
    if m.event.Some? {
      ViewStep(s.log, m.event.value);
    }
    ActKeeps(s, Advance(1, no));
  }

  /** A crash right after MIGRATE's first row is written, and a resume against a schema not yet migrated: the
      resumed run is the first to apply the migration, and it does so without any verification of its own. */
  lemma MigrationWithoutVerification(plan: Identities, facts: CutoverFacts, nowMs: int)
    returns (actions: seq<Action>)
    requires FlatAndIdentical(plan, facts, true)
    ensures
      var log := History(actions).log;
      var k := |log| - 1;
      && |log| > 0 && log[k] == AppliedTo(MIGRATE_APPLICATION_SCHEMA, plan)
      && NothingApplied(log[..k])
      && !RunCleared(log[..k]) && !BeganUnmigrated(log[..k])
  {
    hide Durable, RunnerInv, FlatAndIdentical, Licensed, MoveOf, Act;
    actions := FirstRun(plan, facts, nowMs);
    actions := CrashAndRelaunch(actions, plan, facts, nowMs);
    var no := Answer(Returned, false, facts);
    while !History(actions).processes[1].runner.pc.ApplyAt?
      invariant Resuming(History(actions), plan)
      decreases Rank(History(actions).processes[1].runner.pc)
    {
      ResumeStep(History(actions), plan, facts);
      Extend(actions, Advance(1, no));
      actions := actions + [Advance(1, no)];
    }
    var s := History(actions);
    ApplyStep(s.journal, s.processes[1].runner, no);
    ActingRunner(s, 1, no);
    Extend(actions, Advance(1, no));
    actions := actions + [Advance(1, no)];
    assert History(actions).log == s.log + [AppliedTo(MIGRATE_APPLICATION_SCHEMA, plan)];
    assert History(actions).log[..|s.log|] == s.log;
    ClearedMeans(s.log);
    MigrationAppliedAfterClearance(actions, |s.log|);
  }

  lemma ApplyStep(j: Journal, r: Runner, a: Answer)
    requires r.pc.ApplyAt? && a.fate.Returned? && r.pc.phase == MIGRATE_APPLICATION_SCHEMA
    ensures MoveOf(j, r, a).event == Some(AppliedTo(MIGRATE_APPLICATION_SCHEMA, r.plan))
  {
  }
}
