/** What every step of the cutover keeps, whatever the environment answers and wherever a crash cuts it off. */
module CutoverSafety {
  import opened Wrappers
  import opened FlatCutover
  import opened CutoverMachine

  // ----- reading the history -----

  /** What a history says: the journal it implies, and what its current run has witnessed. */
  datatype View = View(
    status: map<Phase, Status>,   // the last journal event of each phase
    starts: map<Phase, nat>,      // how often each phase was started
    seen: set<Phase>,             // phases observed satisfied since the run began
    cleared: bool,                // a clean final verification followed the fence and the stop in this run
    early: bool,                  // the run began with no phase from the migration onward journalled
    plans: set<Identities>)       // the identities of every run and every effect so far
  {
    predicate MigrationJournalled() {
      exists p: Phase :: p in status && p >= MIGRATE_APPLICATION_SCHEMA
    }

    predicate CompletedBelow(bound: nat) {
      forall p: Phase | p < bound :: p in status && status[p] == Completed
    }

    function After(e: Event): View {
      match e
      case RunBegan(plan, _) =>
        this.(seen := {}, cleared := false, early := !MigrationJournalled(), plans := plans + {plan})
      case PhaseStarted(p) =>
        this.(status := status[p := Started], starts := starts[p := (if p in starts then starts[p] else 0) + 1])
      case PhaseCompleted(p) => this.(status := status[p := Completed])
      case PhaseFailed(p, _) => this.(status := status[p := Failed])
      case Observed(p, satisfied) => if satisfied then this.(seen := seen + {p}) else this
      case AppliedTo(_, plan) => this.(plans := plans + {plan})
      case Inspected(clean, fenceRequired, _) =>
        if clean && fenceRequired && FENCE_EXCHANGE_WRITES in seen && STOP_RUNTIME_WRITERS in seen
        then this.(cleared := true) else this
      case _ => this
    }
  }

  const NOTHING := View(map[], map[], {}, false, true, {})

  function ViewOf(log: seq<Event>): View {
    if log == [] then NOTHING else ViewOf(log[..|log| - 1]).After(log[|log| - 1])
  }

  /** What the history before it licenses an event to be. */
  predicate Licensed(before: View, e: Event) {
    match e
    case PhaseStarted(p) =>
      p >= MIGRATE_APPLICATION_SCHEMA && !before.MigrationJournalled() ==>
        p == MIGRATE_APPLICATION_SCHEMA && before.cleared
    case AppliedTo(p, plan) =>
      && p != PLAN_IDENTITIES && p != VERIFY_FINAL_FLAT
      && plan in before.plans
      && (p < MIGRATE_APPLICATION_SCHEMA ==> !before.MigrationJournalled())
      && (p == MIGRATE_APPLICATION_SCHEMA ==> (before.cleared <==> before.early))
      && (p >= MIGRATE_APPLICATION_SCHEMA ==> before.CompletedBelow(p))
      && (forall q: Phase | MIGRATE_APPLICATION_SCHEMA <= q < p :: q in before.seen)
    case RunMarkedCompleted =>
      before.CompletedBelow(17) && forall q: Phase | q >= MIGRATE_APPLICATION_SCHEMA :: q in before.seen
    case GuardFired(_) => false
    case RowMissing => false
    case _ => true
  }

  // ----- the journal -----

  predicate RowLawful(phase: Phase, row: PhaseRow) {
    && row.phaseOrder == phase + 1
    && (row.completedAtMs.Some? <==> row.status == Completed)
    && (row.lastError.Some? <==> row.status == Failed)
  }

  /** Exactly the first n phases have rows. */
  predicate Prefix(rows: map<Phase, PhaseRow>, n: nat) {
    forall p: Phase :: p in rows <==> p < n
  }

  /** Phases with rows: none, the staged release alone, or an initial stretch of at least two phases. */
  predicate Shape(rows: map<Phase, PhaseRow>) {
    || rows.Keys == {}
    || rows.Keys == {STAGE_EXACT_RELEASE}
    || exists n :: 2 <= n <= 17 && Prefix(rows, n)
  }

  /** The inductive form of Shape: a row other than the staged release's has all earlier rows beside it. */
  predicate Stacked(rows: map<Phase, PhaseRow>) {
    forall p: Phase | p in rows && p != STAGE_EXACT_RELEASE ::
      STAGE_EXACT_RELEASE in rows && forall q: Phase | q < p :: q in rows
  }

  predicate Unmigrated(j: Journal) {
    forall p: Phase | p in j.rows :: p < MIGRATE_APPLICATION_SCHEMA
  }

  predicate CompletedBelow(j: Journal, bound: nat) {
    forall p: Phase | p < bound :: p in j.rows && j.rows[p].status == Completed
  }

  predicate JournalMatches(j: Journal, v: View) {
    && j.rows.Keys == v.status.Keys == v.starts.Keys
    && forall p: Phase | p in j.rows ::
         RowLawful(p, j.rows[p]) && j.rows[p].status == v.status[p] && j.rows[p].attemptCount == v.starts[p]
  }

  /** What is durable: it outlives every runner. */
  predicate Durable(j: Journal, v: View) {
    && JournalMatches(j, v)
    && v.plans <= (if j.run.Some? then {j.run.value.identities} else {})
    && Stacked(j.rows)
    && (Unmigrated(j) || CompletedBelow(j, MIGRATE_APPLICATION_SCHEMA))
  }

  // ----- the runner -----

  /** What the current run has witnessed when it reaches a phase of the loop. */
  predicate Evidence(v: View, r: Runner, bound: nat) {
    && (forall q: Phase | MIGRATE_APPLICATION_SCHEMA <= q < bound :: q in v.seen)
    && (!r.migrationStarted ==>
          && (bound > FENCE_EXCHANGE_WRITES ==> FENCE_EXCHANGE_WRITES in v.seen)
          && (bound > STOP_RUNTIME_WRITERS ==> STOP_RUNTIME_WRITERS in v.seen)
          && (bound > VERIFY_FINAL_FLAT ==> v.cleared))
  }

  /** A run that has scanned the journal knows whether it began before the migration. */
  predicate Scanned(j: Journal, v: View, r: Runner) {
    if r.migrationStarted then !v.early && !v.cleared && !Unmigrated(j) else v.early
  }

  /** At a phase of the loop. */
  predicate AtLoop(j: Journal, v: View, r: Runner, p: Phase) {
    && Scanned(j, v, r)
    && CompletedBelow(j, p)
    && STAGE_EXACT_RELEASE in j.rows
    && Evidence(v, r, p)
    && (!r.migrationStarted && p <= MIGRATE_APPLICATION_SCHEMA ==> Unmigrated(j))
  }

  /** At a phase the loop acts on rather than skips. */
  predicate Acting(j: Journal, v: View, r: Runner, p: Phase) {
    AtLoop(j, v, r, p) && (p < MIGRATE_APPLICATION_SCHEMA ==> !r.migrationStarted)
  }

  /** As Acting, once the row of the phase itself is written. */
  predicate Underway(j: Journal, v: View, r: Runner, p: Phase) {
    && Scanned(j, v, r)
    && CompletedBelow(j, p)
    && STAGE_EXACT_RELEASE in j.rows
    && Evidence(v, r, p)
    && p in j.rows
    && (p < MIGRATE_APPLICATION_SCHEMA ==> !r.migrationStarted && Unmigrated(j))
  }

  predicate AtStaging(j: Journal, v: View, r: Runner) {
    !r.migrationStarted && v.early && Unmigrated(j)
  }

  /** The run has begun, under the identities of its journal. */
  predicate Begun(j: Journal, v: View, r: Runner) {
    j.run.Some? && r.plan == j.run.value.identities && r.plan in v.plans
  }

  predicate RunnerInv(j: Journal, v: View, r: Runner) {
    && (!r.pc.EnsureRunAt? && !r.pc.Ended? ==> Begun(j, v, r))
    && match r.pc
       case EnsureRunAt => !r.migrationStarted
       case Ended(outcome) => outcome == Done ==> CompletedBelow(j, 17) && j.run.Some? && j.run.value.completed
       case ScanAt(p) =>
         && MIGRATE_APPLICATION_SCHEMA <= p
         && !r.migrationStarted && v.seen == {} && !v.cleared
         && (v.early <==> Unmigrated(j))
         && (forall q: Phase | MIGRATE_APPLICATION_SCHEMA <= q < p :: q !in j.rows)
       case StageStatusAt => AtStaging(j, v, r)
       case StageCheckAt(was) =>
         AtStaging(j, v, r) && (was ==> STAGE_EXACT_RELEASE in j.rows)
       case PreflightAt => AtStaging(j, v, r) && STAGE_EXACT_RELEASE in j.rows
       case StatusAt(p) => AtLoop(j, v, r, p)
       case CheckAt(p, status) =>
         && Acting(j, v, r, p) && p != PLAN_IDENTITIES && p != VERIFY_FINAL_FLAT
         && status == j.PhaseStatus(p)
         && (p == MIGRATE_APPLICATION_SCHEMA ==> status.Some?)
       case StartSatisfiedAt(p, caller) =>
         if caller == Staging then AtStaging(j, v, r) && p == STAGE_EXACT_RELEASE
         else Acting(j, v, r, p) && p != VERIFY_FINAL_FLAT && Evidence(v, r, p + 1)
       case StartEffectAt(p, caller) =>
         if caller == Staging then AtStaging(j, v, r) && p == STAGE_EXACT_RELEASE
         else Acting(j, v, r, p) && p != PLAN_IDENTITIES && p != VERIFY_FINAL_FLAT
       case ApplyAt(p, caller) =>
         if caller == Staging then AtStaging(j, v, r) && p == STAGE_EXACT_RELEASE && p in j.rows
         else Underway(j, v, r, p) && p != PLAN_IDENTITIES && p != VERIFY_FINAL_FLAT
       case PostcheckAt(p, caller) =>
         if caller == Staging then AtStaging(j, v, r) && p == STAGE_EXACT_RELEASE && p in j.rows
         else Underway(j, v, r, p) && p != PLAN_IDENTITIES && p != VERIFY_FINAL_FLAT
       case FailAt(p, _) => p in j.rows && (p < MIGRATE_APPLICATION_SCHEMA ==> Unmigrated(j))
       case CompleteAt(p, caller) =>
         if caller == Staging then AtStaging(j, v, r) && p == STAGE_EXACT_RELEASE && p in j.rows
         else Underway(j, v, r, p) && Evidence(v, r, p + 1)
       case StartVerifyAt => Acting(j, v, r, VERIFY_FINAL_FLAT)
       case VerifyAt => Underway(j, v, r, VERIFY_FINAL_FLAT)
       case FailVerifyAt(_) => VERIFY_FINAL_FLAT in j.rows && Unmigrated(j)
       case MarkRunAt => Scanned(j, v, r) && CompletedBelow(j, 17) && Evidence(v, r, 17)
  }

  // ----- preservation -----

  predicate Sound(j: Journal, v: View, r: Runner) {
    Durable(j, v) && RunnerInv(j, v, r)
  }

  /** A move is sound: its event is licensed, and the invariant and the view go on together. */
  predicate SoundMove(v: View, m: Move) {
    match m.event
    case Some(e) => Licensed(v, e) && Sound(m.journal, v.After(e), m.runner)
    case None => Sound(m.journal, v, m.runner)
  }

  /** What the journal's and the history's accounts agree on. */
  lemma Agreement(j: Journal, v: View)
    requires Durable(j, v)
    ensures v.MigrationJournalled() <==> !Unmigrated(j)
    ensures !Unmigrated(j) ==> CompletedBelow(j, MIGRATE_APPLICATION_SCHEMA) && MIGRATE_APPLICATION_SCHEMA in j.rows
    ensures forall n: nat :: CompletedBelow(j, n) ==> v.CompletedBelow(n)
  {
    if !Unmigrated(j) {
      var m: Phase :| m in j.rows && m >= MIGRATE_APPLICATION_SCHEMA;
      assert m in v.status;
    }
  }

  lemma StartMatches(j: Journal, v: View, p: Phase, nowMs: int)
    requires JournalMatches(j, v)
    ensures JournalMatches(j.UpsertStarted(p, p + 1, nowMs), v.After(PhaseStarted(p)))
  {
  }

  lemma StartStacked(j: Journal, p: Phase, nowMs: int)
    requires Stacked(j.rows)
    requires p == STAGE_EXACT_RELEASE || (CompletedBelow(j, p) && STAGE_EXACT_RELEASE in j.rows)
    ensures Stacked(j.UpsertStarted(p, p + 1, nowMs).rows)
  {
  }

  lemma StartBoundary(j: Journal, p: Phase, nowMs: int)
    requires if p < MIGRATE_APPLICATION_SCHEMA then Unmigrated(j) else CompletedBelow(j, MIGRATE_APPLICATION_SCHEMA)
    ensures
      var j' := j.UpsertStarted(p, p + 1, nowMs);
      if p < MIGRATE_APPLICATION_SCHEMA then Unmigrated(j') else CompletedBelow(j', MIGRATE_APPLICATION_SCHEMA)
  {
  }

  /** Starting a phase whose turn it is keeps the journal in shape. */
  lemma StartDurable(j: Journal, v: View, r: Runner, p: Phase)
    requires Durable(j, v)
    requires (p == STAGE_EXACT_RELEASE && Unmigrated(j)) || Acting(j, v, r, p)
    ensures Durable(j.UpsertStarted(p, p + 1, r.nowMs), v.After(PhaseStarted(p)))
  {
    StartMatches(j, v, p, r.nowMs);
    StartStacked(j, p, r.nowMs);
    StartBoundary(j, p, r.nowMs);
  }

  lemma UpdateMatches(j: Journal, v: View, p: Phase, nowMs: int, error: Option<Failure>)
    requires JournalMatches(j, v) && p in j.rows
    ensures JournalMatches(j.UpdatePhase(p, if error.None? then Completed else Failed, nowMs, error),
                           v.After(if error.None? then PhaseCompleted(p) else PhaseFailed(p, error.value)))
  {
  }

  lemma UpdateDurable(j: Journal, v: View, r: Runner, p: Phase, error: Option<Failure>)
    requires Durable(j, v) && p in j.rows
    requires error.Some? && p < MIGRATE_APPLICATION_SCHEMA ==> Unmigrated(j)
    ensures Durable(j.UpdatePhase(p, if error.None? then Completed else Failed, r.nowMs, error),
                    v.After(if error.None? then PhaseCompleted(p) else PhaseFailed(p, error.value)))
  {
    var j' := j.UpdatePhase(p, if error.None? then Completed else Failed, r.nowMs, error);
    UpdateMatches(j, v, p, r.nowMs, error);
    assert j'.rows.Keys == j.rows.Keys;
    assert Unmigrated(j) ==> Unmigrated(j');
  }

  /** Events that write no row. */
  lemma RowlessDurable(j: Journal, v: View, e: Event)
    requires Durable(j, v)
    requires e.Observed? || e.Inspected? || e.GuardFired? || e.RowMissing? || e.RunMarkedCompleted?
          || (e.AppliedTo? && j.run.Some? && e.plan == j.run.value.identities)
    ensures Durable(j, v.After(e))
  {
  }

  lemma EnsureRunDurable(j: Journal, v: View, plan: Identities, nowMs: int)
    requires Durable(j, v)
    ensures Durable(j.EnsureRun(plan, nowMs), v)
    ensures j.EnsureRun(plan, nowMs).run.value.identities == plan ==>
              Durable(j.EnsureRun(plan, nowMs), v.After(RunBegan(plan, nowMs)))
  {
  }

  lemma CompleteRunDurable(j: Journal, v: View, nowMs: int)
    requires Durable(j, v)
    ensures Durable(j.CompleteRun(nowMs), v)
  {
  }

  lemma StartLicensed(j: Journal, v: View, r: Runner, p: Phase)
    requires Durable(j, v)
    requires p == STAGE_EXACT_RELEASE || Acting(j, v, r, p)
    ensures Licensed(v, PhaseStarted(p))
  {
    if p >= MIGRATE_APPLICATION_SCHEMA && !v.MigrationJournalled() {
      assert Unmigrated(j);
      assert p > MIGRATE_APPLICATION_SCHEMA ==> MIGRATE_APPLICATION_SCHEMA in j.rows;
    }
  }

  lemma ApplyLicensed(j: Journal, v: View, r: Runner, p: Phase)
    requires Durable(j, v)
    requires p != PLAN_IDENTITIES && p != VERIFY_FINAL_FLAT
    requires Begun(j, v, r)
    requires (p == STAGE_EXACT_RELEASE && Unmigrated(j)) || Underway(j, v, r, p)
    ensures Licensed(v, AppliedTo(p, r.plan))
  {
  }

  /** The run goes on to the phase after p. */
  lemma Onward(j: Journal, v: View, r: Runner, p: Phase)
    requires Begun(j, v, r)
    requires Scanned(j, v, r) && CompletedBelow(j, p + 1) && STAGE_EXACT_RELEASE in j.rows && Evidence(v, r, p + 1)
    requires !r.migrationStarted && p < MIGRATE_APPLICATION_SCHEMA ==> Unmigrated(j)
    ensures RunnerInv(j, v, r.(pc := AfterPhase(p))) == true
  {
  }

  lemma BeginningKeeps(j: Journal, v: View, r: Runner, a: Answer)
    requires Sound(j, v, r)
    requires r.pc.EnsureRunAt? || r.pc.ScanAt?
    ensures SoundMove(v, MoveOf(j, r, a)) == true
  {
    Agreement(j, v);
    hide Durable;
    if r.pc.EnsureRunAt? {
      EnsureRunDurable(j, v, r.plan, r.nowMs);
    } else if j.PhaseStatus(r.pc.phase).Some? {
      assert r.pc.phase in j.rows && !Unmigrated(j);
    }
  }

  lemma StagingKeeps(j: Journal, v: View, r: Runner, a: Answer)
    requires Sound(j, v, r)
    requires r.pc.StageStatusAt? || r.pc.StageCheckAt? || r.pc.PreflightAt?
    ensures SoundMove(v, MoveOf(j, r, a)) == true
  {
    hide Durable;
    RowlessDurable(j, v, Observed(STAGE_EXACT_RELEASE, a.satisfied));
    RowlessDurable(j, v, Inspected(FlatAndIdentical(r.plan, a.facts, false), false, a.facts));
  }

  /** The loop skips a completed phase, or acts on it; it never meets an incomplete one it must skip. */
  lemma AfterStatusKeeps(j: Journal, v: View, r: Runner, p: Phase)
    requires Durable(j, v) && AtLoop(j, v, r, p)
    requires Begun(j, v, r)
    ensures !AfterStatus(p, j.PhaseStatus(p), r.migrationStarted).Ended?
    ensures RunnerInv(j, v, r.(pc := AfterStatus(p, j.PhaseStatus(p), r.migrationStarted))) == true
  {
    if r.migrationStarted {
      var m: Phase :| m in j.rows && m >= MIGRATE_APPLICATION_SCHEMA;
      assert MIGRATE_APPLICATION_SCHEMA in j.rows;
      assert CompletedBelow(j, MIGRATE_APPLICATION_SCHEMA);
    }
    if AfterStatus(p, j.PhaseStatus(p), r.migrationStarted) == AfterPhase(p) {
      Onward(j, v, r, p);
    }
  }

  lemma StatusKeeps(j: Journal, v: View, r: Runner, a: Answer)
    requires Sound(j, v, r) && r.pc.StatusAt?
    ensures SoundMove(v, MoveOf(j, r, a)) == true
  {
    hide Durable;
    AfterStatusKeeps(j, v, r, r.pc.phase);
  }

  lemma CheckKeeps(j: Journal, v: View, r: Runner, a: Answer)
    requires Sound(j, v, r) && r.pc.CheckAt?
    ensures SoundMove(v, MoveOf(j, r, a)) == true
  {
    hide Durable;
    var p := r.pc.phase;
    var e := Observed(p, a.satisfied);
    RowlessDurable(j, v, e);
    assert Acting(j, v.After(e), r, p);
    if a.satisfied && r.pc.status == Some(Completed) {
      Onward(j, v.After(e), r, p);
    }
  }

  lemma PostcheckKeeps(j: Journal, v: View, r: Runner, a: Answer)
    requires Sound(j, v, r) && r.pc.PostcheckAt?
    ensures SoundMove(v, MoveOf(j, r, a)) == true
  {
    hide Durable;
    var e := Observed(r.pc.phase, a.satisfied);
    RowlessDurable(j, v, e);
    if r.pc.caller == Loop {
      assert Underway(j, v.After(e), r, r.pc.phase);
    }
  }

  lemma VerifyKeeps(j: Journal, v: View, r: Runner, a: Answer)
    requires Sound(j, v, r) && r.pc.VerifyAt?
    ensures SoundMove(v, MoveOf(j, r, a)) == true
  {
    hide Durable;
    var e := Inspected(FlatAndIdentical(r.plan, a.facts, true), true, a.facts);
    RowlessDurable(j, v, e);
    assert Underway(j, v.After(e), r, VERIFY_FINAL_FLAT);
  }

  lemma StartUnderway(j: Journal, v: View, r: Runner, p: Phase, bound: nat)
    requires Acting(j, v, r, p) && Evidence(v, r, bound)
    ensures Underway(j.UpsertStarted(p, p + 1, r.nowMs), v.After(PhaseStarted(p)), r, p) == true
    ensures Evidence(v.After(PhaseStarted(p)), r, bound)
  {
    var j' := j.UpsertStarted(p, p + 1, r.nowMs);
    if r.migrationStarted {
      var m: Phase :| m in j.rows && m >= MIGRATE_APPLICATION_SCHEMA;
      assert m in j'.rows;
    }
  }

  lemma StartStagedKeeps(j: Journal, v: View, r: Runner, a: Answer)
    requires Sound(j, v, r) && (r.pc.StartSatisfiedAt? || r.pc.StartEffectAt?) && r.pc.caller == Staging
    ensures SoundMove(v, MoveOf(j, r, a)) == true
  {
    hide Durable;
    StartDurable(j, v, r, STAGE_EXACT_RELEASE);
    StartLicensed(j, v, r, STAGE_EXACT_RELEASE);
    StartBoundary(j, STAGE_EXACT_RELEASE, r.nowMs);
  }

  /** What the loop knows when it is about to start a phase. */
  lemma StartGate(j: Journal, v: View, r: Runner)
    requires RunnerInv(j, v, r) && (r.pc.StartSatisfiedAt? || r.pc.StartEffectAt?) && r.pc.caller == Loop
    ensures Acting(j, v, r, r.pc.phase) && Begun(j, v, r)
    ensures r.pc.phase != VERIFY_FINAL_FLAT
    ensures if r.pc.StartSatisfiedAt? then Evidence(v, r, r.pc.phase as nat + 1)
            else Evidence(v, r, r.pc.phase as nat) && r.pc.phase != PLAN_IDENTITIES
  {
  }

  lemma StartedIsUnderway(j: Journal, v: View, r: Runner, p: Phase)
    requires Begun(j, v, r)
    requires Underway(j, v, r, p) && p != VERIFY_FINAL_FLAT
    ensures Evidence(v, r, p as nat + 1) ==> RunnerInv(j, v, r.(pc := CompleteAt(p, Loop))) == true
    ensures p != PLAN_IDENTITIES ==> RunnerInv(j, v, r.(pc := ApplyAt(p, Loop))) == true
  {
  }

  lemma OverIsSound(j: Journal, v: View, r: Runner, outcome: Outcome)
    requires outcome != Done
    ensures RunnerInv(j, v, r.(pc := Ended(outcome)))
  {
  }

  lemma StartLoopMove(j: Journal, r: Runner, a: Answer)
    requires (r.pc.StartSatisfiedAt? || r.pc.StartEffectAt?) && r.pc.caller == Loop
    ensures MoveOf(j, r, a) == StartPhase(j, r, a.fate, r.pc.phase,
              if r.pc.StartSatisfiedAt? then CompleteAt(r.pc.phase, Loop) else ApplyAt(r.pc.phase, Loop))
  {
  }

  lemma StartLoopKeeps(j: Journal, v: View, r: Runner, a: Answer)
    requires Sound(j, v, r) && (r.pc.StartSatisfiedAt? || r.pc.StartEffectAt?) && r.pc.caller == Loop
    ensures SoundMove(v, MoveOf(j, r, a)) == true
  {
    hide Durable, Acting, Underway, Evidence, Licensed, MoveOf, RunnerInv;
    var p: Phase := r.pc.phase;
    var j' := j.UpsertStarted(p, p + 1, r.nowMs);
    StartGate(j, v, r);
    StartUnderway(j, v, r, p, if r.pc.StartSatisfiedAt? then p as nat + 1 else p as nat);
    StartDurable(j, v, r, p);
    StartLicensed(j, v, r, p);
    StartedIsUnderway(j', v.After(PhaseStarted(p)), r, p);
    OverIsSound(j, v, r, Died);
    OverIsSound(j', v.After(PhaseStarted(p)), r, Died);
    StartLoopMove(j, r, a);
  }

  lemma StartVerifyKeeps(j: Journal, v: View, r: Runner, a: Answer)
    requires Sound(j, v, r) && r.pc.StartVerifyAt?
    ensures SoundMove(v, MoveOf(j, r, a)) == true
  {
    hide Durable;
    StartDurable(j, v, r, VERIFY_FINAL_FLAT);
    StartUnderway(j, v, r, VERIFY_FINAL_FLAT, VERIFY_FINAL_FLAT);
  }

  lemma ApplyKeeps(j: Journal, v: View, r: Runner, a: Answer)
    requires Sound(j, v, r) && r.pc.ApplyAt?
    ensures SoundMove(v, MoveOf(j, r, a)) == true
  {
    hide Durable;
    var e := AppliedTo(r.pc.phase, r.plan);
    ApplyLicensed(j, v, r, r.pc.phase);
    RowlessDurable(j, v, e);
    if r.pc.caller == Loop {
      assert Underway(j, v.After(e), r, r.pc.phase);
    }
  }

  lemma CompleteUnderway(j: Journal, v: View, r: Runner, p: Phase)
    requires Underway(j, v, r, p) && Evidence(v, r, p + 1)
    ensures
      var j' := j.UpdatePhase(p, Completed, r.nowMs, None);
      var v' := v.After(PhaseCompleted(p));
      && Scanned(j', v', r) && CompletedBelow(j', p + 1) && STAGE_EXACT_RELEASE in j'.rows && Evidence(v', r, p + 1)
      && (p < MIGRATE_APPLICATION_SCHEMA ==> Unmigrated(j'))
  {
    var j' := j.UpdatePhase(p, Completed, r.nowMs, None);
    assert j'.rows.Keys == j.rows.Keys;
  }

  lemma CompleteKeeps(j: Journal, v: View, r: Runner, a: Answer)
    requires Sound(j, v, r) && r.pc.CompleteAt?
    ensures SoundMove(v, MoveOf(j, r, a)) == true
  {
    hide Durable;
    var p := r.pc.phase;
    UpdateDurable(j, v, r, p, None);
    if r.pc.caller == Loop {
      CompleteUnderway(j, v, r, p);
      Onward(j.UpdatePhase(p, Completed, r.nowMs, None), v.After(PhaseCompleted(p)), r, p);
    }
  }

  lemma FailKeeps(j: Journal, v: View, r: Runner, a: Answer)
    requires Sound(j, v, r) && (r.pc.FailAt? || r.pc.FailVerifyAt?)
    ensures SoundMove(v, MoveOf(j, r, a)) == true
  {
    hide Durable;
    UpdateDurable(j, v, r, if r.pc.FailAt? then r.pc.phase else VERIFY_FINAL_FLAT, Some(r.pc.error));
  }

  lemma MarkLicensed(j: Journal, v: View, r: Runner)
    requires Durable(j, v) && CompletedBelow(j, 17) && Evidence(v, r, 17)
    ensures Licensed(v, RunMarkedCompleted)
  {
    Agreement(j, v);
  }

  lemma MarkRunKeeps(j: Journal, v: View, r: Runner, a: Answer)
    requires Sound(j, v, r) && r.pc.MarkRunAt?
    ensures SoundMove(v, MoveOf(j, r, a)) == true
  {
    MarkLicensed(j, v, r);
    hide Durable, Licensed, Evidence, Scanned;
    CompleteRunDurable(j, v, r.nowMs);
    RowlessDurable(j.CompleteRun(r.nowMs), v, RunMarkedCompleted);
  }

  lemma EndedKeeps(j: Journal, v: View, r: Runner, a: Answer)
    requires Sound(j, v, r) && r.pc.Ended?
    ensures SoundMove(v, MoveOf(j, r, a)) == true
  {
    hide Durable;
  }

  /** One await keeps the invariant and is licensed, whatever the environment answers. */
  lemma StepKeeps(j: Journal, v: View, r: Runner, a: Answer)
    requires Sound(j, v, r)
    ensures SoundMove(v, MoveOf(j, r, a)) == true
  {
    hide Durable, RunnerInv, MoveOf, Licensed;
    match r.pc
    case EnsureRunAt => BeginningKeeps(j, v, r, a);
    case ScanAt(_) => BeginningKeeps(j, v, r, a);
    case StageStatusAt => StagingKeeps(j, v, r, a);
    case StageCheckAt(_) => StagingKeeps(j, v, r, a);
    case PreflightAt => StagingKeeps(j, v, r, a);
    case StatusAt(_) => StatusKeeps(j, v, r, a);
    case CheckAt(_, _) => CheckKeeps(j, v, r, a);
    case PostcheckAt(_, _) => PostcheckKeeps(j, v, r, a);
    case VerifyAt => VerifyKeeps(j, v, r, a);
    case StartSatisfiedAt(_, Staging) => StartStagedKeeps(j, v, r, a);
    case StartSatisfiedAt(_, Loop) => StartLoopKeeps(j, v, r, a);
    case StartEffectAt(_, Staging) => StartStagedKeeps(j, v, r, a);
    case StartEffectAt(_, Loop) => StartLoopKeeps(j, v, r, a);
    case StartVerifyAt => StartVerifyKeeps(j, v, r, a);
    case ApplyAt(_, _) => ApplyKeeps(j, v, r, a);
    case CompleteAt(_, _) => CompleteKeeps(j, v, r, a);
    case FailAt(_, _) => FailKeeps(j, v, r, a);
    case FailVerifyAt(_) => FailKeeps(j, v, r, a);
    case MarkRunAt => MarkRunKeeps(j, v, r, a);
    case Ended(_) => EndedKeeps(j, v, r, a);
  }

  lemma StackedShape(rows: map<Phase, PhaseRow>)
    requires Stacked(rows)
    ensures Shape(rows)
  {
    if rows.Keys != {} && rows.Keys != {STAGE_EXACT_RELEASE} {
      var p0: Phase :| p0 in rows && p0 != STAGE_EXACT_RELEASE;
      var n: nat := 17;
      while n >= 2 && (n - 1) as Phase !in rows
        invariant n <= 17
        invariant forall p: Phase | p in rows :: p < n
      {
        n := n - 1;
      }
      assert STAGE_EXACT_RELEASE in rows;
      assert Prefix(rows, n);
    }
  }
}
