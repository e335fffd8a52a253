/** Every history of one cutover id: any number of runners, interleaved in any order, each of which may
    complete, fail, be turned away by the lock, or die at any await. */
module CutoverHistory {
  import opened Wrappers
  import opened FlatCutover
  import opened CutoverMachine
  import opened CutoverSafety

  datatype Process = Waiting(plan: Identities, nowMs: int) | TurnedAway | Running(runner: Runner) {
    predicate Live() {
      Running? && !runner.pc.Ended?
    }
  }

  /** The durable journal, the history, the advisory lock, and every process launched so far. */
  datatype System = System(journal: Journal, log: seq<Event>, holder: Option<nat>, processes: map<nat, Process>)

  datatype Action = Launch(id: nat, plan: Identities, nowMs: int) | Advance(id: nat, answer: Answer)

  /** Facts nobody reads. */
  const NO_FACTS := CutoverFacts("", "", "", "", "", "", "", "", 0, 0, 0, 0, 0, 0, 0, 0, 0, [], [], false)

  const START := System(Journal(None, map[]), [], None, map[])

  /** One scheduling step. The lock is session-bound: it goes when the run ends, however it ends. */
  function Act(s: System, action: Action): System {
    match action
    case Launch(id, plan, nowMs) =>
      if id in s.processes then s else s.(processes := s.processes[id := Waiting(plan, nowMs)])
    case Advance(id, a) =>
      if id !in s.processes then s
      else
        match s.processes[id]
        case TurnedAway => s
        case Waiting(plan, nowMs) =>
          if a.fate.Returned? && s.holder.None? then
            s.(holder := Some(id), processes := s.processes[id := Running(NewRunner(plan, nowMs))])
          else s.(processes := s.processes[id := TurnedAway])
        case Running(r) =>
          if r.pc.Ended? then s
          else
            var m := MoveOf(s.journal, r, a);
            System(m.journal,
              if m.event.Some? then s.log + [m.event.value] else s.log,
              if m.runner.pc.Ended? then None else s.holder,
              s.processes[id := Running(m.runner)])
  }

  function History(actions: seq<Action>): System {
    if actions == [] then START else Act(History(actions[..|actions| - 1]), actions[|actions| - 1])
  }

  predicate LicensedLog(log: seq<Event>) {
    log == [] || (LicensedLog(log[..|log| - 1]) && Licensed(ViewOf(log[..|log| - 1]), log[|log| - 1]))
  }

  predicate Consistent(s: System) {
    && LicensedLog(s.log)
    && Durable(s.journal, ViewOf(s.log))
    && (forall id <- s.processes :: s.processes[id].Live() ==> s.holder == Some(id))
    && (s.holder.Some? ==>
          && s.holder.value in s.processes && s.processes[s.holder.value].Live()
          && RunnerInv(s.journal, ViewOf(s.log), s.processes[s.holder.value].runner))
  }

  lemma ViewStep(log: seq<Event>, e: Event)
    ensures ViewOf(log + [e]) == ViewOf(log).After(e)
    ensures LicensedLog(log + [e]) <==> LicensedLog(log) && Licensed(ViewOf(log), e)
  {
    assert (log + [e])[..|log|] == log;
  }

  lemma ActKeeps(s: System, action: Action)
    requires Consistent(s)
    ensures Consistent(Act(s, action))
  {
    hide Durable, Licensed, MoveOf, RunnerInv, LicensedLog, ViewOf;
    if action.Advance? && action.id in s.processes {
      var p := s.processes[action.id];
      if p.Live() {
        MoveKeeps(s.journal, s.log, p.runner, action.answer);
      } else if p.Waiting? {
        NewRunnerKeeps(s.journal, ViewOf(s.log), p.plan, p.nowMs);
      }
    }
  }

  lemma NewRunnerKeeps(j: Journal, v: View, plan: Identities, nowMs: int)
    ensures RunnerInv(j, v, NewRunner(plan, nowMs))
  {
  }

  /** StepKeeps, told of the log. */
  lemma MoveKeeps(j: Journal, log: seq<Event>, r: Runner, a: Answer)
    requires LicensedLog(log) && Durable(j, ViewOf(log)) && RunnerInv(j, ViewOf(log), r)
    ensures
      var m := MoveOf(j, r, a);
      var log' := if m.event.Some? then log + [m.event.value] else log;
      LicensedLog(log') && Durable(m.journal, ViewOf(log')) && RunnerInv(m.journal, ViewOf(log'), m.runner)
  {
    hide Durable, Licensed, MoveOf, RunnerInv, LicensedLog, ViewOf;
    var m := MoveOf(j, r, a);
    StepKeeps(j, ViewOf(log), r, a);
    if m.event.Some? {
      ViewStep(log, m.event.value);
    }
  }

  lemma {:induction false} HistoryConsistent(actions: seq<Action>)
    ensures Consistent(History(actions))
  {
    if actions != [] {
      HistoryConsistent(actions[..|actions| - 1]);
      ActKeeps(History(actions[..|actions| - 1]), actions[|actions| - 1]);
    }
  }

  // ----- what the views mean -----

  /** The run that was current at the end of the log was already current at position i. */
  predicate SameRun(log: seq<Event>, i: nat) {
    forall k | i <= k < |log| :: !log[k].RunBegan?
  }

  /** The current run has observed the phase satisfied. */
  predicate Witnessed(log: seq<Event>, p: Phase) {
    exists i :: 0 <= i < |log| && log[i] == Observed(p, true) && SameRun(log, i)
  }

  lemma {:induction false} SeenMeans(log: seq<Event>, p: Phase)
    ensures p in ViewOf(log).seen <==> Witnessed(log, p)
  {
    if log != [] {
      var init, e := log[..|log| - 1], log[|log| - 1];
      SeenMeans(init, p);
      if p in ViewOf(log).seen {
        if e == Observed(p, true) {
          assert SameRun(log, |log| - 1);
        } else {
          var i :| 0 <= i < |init| && init[i] == Observed(p, true) && SameRun(init, i);
          assert forall k | i <= k < |init| :: log[k] == init[k];
          assert log[i] == Observed(p, true) && SameRun(log, i);
        }
      }
      if i :| 0 <= i < |log| && log[i] == Observed(p, true) && SameRun(log, i) {
        if i < |init| {
          assert forall k | i <= k < |init| :: log[k] == init[k];
          assert init[i] == Observed(p, true) && SameRun(init, i);
        }
      }
    }
  }

  /** A clean final verification at position k, preceded in the same run by the fence and the stop. */
  predicate ClearedAt(log: seq<Event>, k: nat) {
    && k < |log| && log[k].Inspected? && log[k].clean && log[k].requireWriterFence && SameRun(log, k)
    && (exists i :: 0 <= i < k && log[i] == Observed(FENCE_EXCHANGE_WRITES, true) && SameRun(log, i))
    && (exists i :: 0 <= i < k && log[i] == Observed(STOP_RUNTIME_WRITERS, true) && SameRun(log, i))
  }

  lemma ClearedAtGrows(log: seq<Event>, e: Event, k: nat)
    requires ClearedAt(log, k) && !e.RunBegan?
    ensures ClearedAt(log + [e], k)
  {
    var log' := log + [e];
    var i :| 0 <= i < k && log[i] == Observed(FENCE_EXCHANGE_WRITES, true) && SameRun(log, i);
    assert log'[i] == Observed(FENCE_EXCHANGE_WRITES, true) && SameRun(log', i);
    var j :| 0 <= j < k && log[j] == Observed(STOP_RUNTIME_WRITERS, true) && SameRun(log, j);
    assert log'[j] == Observed(STOP_RUNTIME_WRITERS, true) && SameRun(log', j);
  }

  /** The current run has a clean final verification after the fence and the stop. */
  ghost predicate RunCleared(log: seq<Event>) {
    exists k :: ClearedAt(log, k)
  }

  lemma {:induction false} ClearedHasPlace(log: seq<Event>)
    requires ViewOf(log).cleared
    ensures RunCleared(log)
  {
    var init, e := log[..|log| - 1], log[|log| - 1];
    assert log == init + [e];
    if ViewOf(init).cleared {
      ClearedHasPlace(init);
      var k :| ClearedAt(init, k);
      ClearedAtGrows(init, e, k);
    } else {
      SeenMeans(init, FENCE_EXCHANGE_WRITES);
      SeenMeans(init, STOP_RUNTIME_WRITERS);
      var i :| 0 <= i < |init| && init[i] == Observed(FENCE_EXCHANGE_WRITES, true) && SameRun(init, i);
      assert log[i] == Observed(FENCE_EXCHANGE_WRITES, true) && SameRun(log, i);
      var j :| 0 <= j < |init| && init[j] == Observed(STOP_RUNTIME_WRITERS, true) && SameRun(init, j);
      assert log[j] == Observed(STOP_RUNTIME_WRITERS, true) && SameRun(log, j);
      assert ClearedAt(log, |init|);
    }
  }

  lemma {:induction false} PlaceIsCleared(log: seq<Event>, k: nat)
    requires ClearedAt(log, k)
    ensures ViewOf(log).cleared
  {
    var init := log[..|log| - 1];
    assert forall m | 0 <= m < |init| :: log[m] == init[m];
    var i :| 0 <= i < k && log[i] == Observed(FENCE_EXCHANGE_WRITES, true) && SameRun(log, i);
    var j :| 0 <= j < k && log[j] == Observed(STOP_RUNTIME_WRITERS, true) && SameRun(log, j);
    assert init[i] == log[i] && init[j] == log[j] && SameRun(init, i) && SameRun(init, j);
    if k < |log| - 1 {
      assert SameRun(init, k);
      PlaceIsCleared(init, k);
      assert !log[|log| - 1].RunBegan?;
    } else {
      SeenMeans(init, FENCE_EXCHANGE_WRITES);
      SeenMeans(init, STOP_RUNTIME_WRITERS);
      assert Witnessed(init, FENCE_EXCHANGE_WRITES) && Witnessed(init, STOP_RUNTIME_WRITERS);
    }
  }

  /** What "cleared" says of the log. */
  lemma ClearedMeans(log: seq<Event>)
    ensures ViewOf(log).cleared <==> RunCleared(log)
  {
    if ViewOf(log).cleared {
      ClearedHasPlace(log);
    }
    if k :| ClearedAt(log, k) {
      PlaceIsCleared(log, k);
    }
  }

  lemma EarlyStep(v: View, e: Event)
    ensures v.After(e).early == if e.RunBegan? then !v.MigrationJournalled() else v.early
  {
    hide View.MigrationJournalled;
  }

  /** `early` speaks of the moment the current run began. */
  lemma {:induction false} EarlyMeans(log: seq<Event>, b: nat)
    requires b < |log| && log[b].RunBegan? && SameRun(log, b + 1)
    ensures ViewOf(log).early <==> !ViewOf(log[..b]).MigrationJournalled()
  {
    hide View.MigrationJournalled, View.After;
    var init, e := log[..|log| - 1], log[|log| - 1];
    EarlyStep(ViewOf(init), e);
    if b < |log| - 1 {
      assert forall k | 0 <= k < |init| :: log[k] == init[k];
      EarlyMeans(init, b);
      assert init[..b] == log[..b];
    }
  }

  predicate JournalEvent(e: Event, p: Phase) {
    e == PhaseStarted(p) || e == PhaseCompleted(p) || (e.PhaseFailed? && e.phase == p)
  }

  lemma StatusStep(v: View, e: Event, p: Phase)
    ensures p in v.After(e).status <==> p in v.status || JournalEvent(e, p)
  {
    hide View.MigrationJournalled;
  }

  /** A phase has a row precisely when the history wrote one. */
  lemma {:induction false} StatusMeans(log: seq<Event>, p: Phase)
    ensures p in ViewOf(log).status <==> exists i :: 0 <= i < |log| && JournalEvent(log[i], p)
  {
    if log != [] {
      var init, e := log[..|log| - 1], log[|log| - 1];
      StatusMeans(init, p);
      StatusStep(ViewOf(init), e, p);
      hide View.After, JournalEvent;
      if i :| 0 <= i < |init| && JournalEvent(init[i], p) {
        assert JournalEvent(log[i], p);
      }
      if i :| 0 <= i < |log| && JournalEvent(log[i], p) {
        if i < |init| {
          assert JournalEvent(init[i], p);
        }
      }
    }
  }

  /** The last word of the log on a phase is its completion. */
  predicate CompletedIn(log: seq<Event>, p: Phase) {
    exists i :: 0 <= i < |log| && log[i] == PhaseCompleted(p) && SilentAfter(log, p, i)
  }

  /** Not a word of the phase after position i. */
  predicate SilentAfter(log: seq<Event>, p: Phase, i: int) {
    forall j | i < j < |log| && 0 <= j :: !JournalEvent(log[j], p)
  }

  lemma CompletedStep(v: View, e: Event, p: Phase)
    ensures p in v.After(e).status && v.After(e).status[p] == Completed
            <==> e == PhaseCompleted(p) || (!JournalEvent(e, p) && p in v.status && v.status[p] == Completed)
  {
    hide View.MigrationJournalled;
  }

  /** A completed row is one whose last event is its completion. */
  lemma {:induction false} CompletedMeans(log: seq<Event>, p: Phase)
    ensures p in ViewOf(log).status && ViewOf(log).status[p] == Completed <==> CompletedIn(log, p)
  {
    if log != [] {
      var init, e := log[..|log| - 1], log[|log| - 1];
      CompletedStep(ViewOf(init), e, p);
      CompletedMeans(init, p);
      CompletedGrows(init, e, p);
      assert log == init + [e];
    }
  }

  lemma CompletedGrows(log: seq<Event>, e: Event, p: Phase)
    ensures CompletedIn(log + [e], p) <==> e == PhaseCompleted(p) || (!JournalEvent(e, p) && CompletedIn(log, p))
  {
    var log' := log + [e];
    if CompletedIn(log, p) && !JournalEvent(e, p) {
      var i :| 0 <= i < |log| && log[i] == PhaseCompleted(p) && SilentAfter(log, p, i);
      assert log'[i] == PhaseCompleted(p) && SilentAfter(log', p, i);
    }
    if e == PhaseCompleted(p) {
      assert log'[|log|] == PhaseCompleted(p) && SilentAfter(log', p, |log|);
    }
    if CompletedIn(log', p) && e != PhaseCompleted(p) {
      var i :| 0 <= i < |log'| && log'[i] == PhaseCompleted(p) && SilentAfter(log', p, i);
      assert log'[|log|] == e;
      assert log[i] == PhaseCompleted(p);
      forall j | i < j < |log| ensures !JournalEvent(log[j], p) {
        assert log'[j] == log[j];
      }
    }
  }

  /** A journal event of a phase from the migration onward. */
  predicate MigrationEvent(e: Event) {
    (e.PhaseStarted? || e.PhaseCompleted? || e.PhaseFailed?) && e.phase >= MIGRATE_APPLICATION_SCHEMA
  }

  predicate MigrationWritten(log: seq<Event>) {
    exists i :: 0 <= i < |log| && MigrationEvent(log[i])
  }

  lemma MigrationMeans(log: seq<Event>)
    ensures ViewOf(log).MigrationJournalled() <==> MigrationWritten(log)
  {
    if i :| 0 <= i < |log| && MigrationEvent(log[i]) {
      assert JournalEvent(log[i], log[i].phase);
      StatusMeans(log, log[i].phase);
    }
    if p: Phase :| p in ViewOf(log).status && p >= MIGRATE_APPLICATION_SCHEMA {
      StatusMeans(log, p);
      var i :| 0 <= i < |log| && JournalEvent(log[i], p);
      assert MigrationEvent(log[i]);
    }
  }

  /** The current run began at position b. */
  predicate BeganAt(log: seq<Event>, b: nat) {
    b < |log| && log[b].RunBegan? && SameRun(log, b + 1)
  }

  lemma NoLaterRun(log: seq<Event>, b: nat, c: nat)
    requires b < |log| && c < |log| && BeganAt(log, b) && log[c].RunBegan?
    ensures c <= b
  {
  }

  /** No journal event from the migration onward lies before the beginning of the current run. */
  predicate BeganUnmigrated(log: seq<Event>) {
    forall b: nat | b < |log| && BeganAt(log, b) :: !MigrationWritten(log[..b])
  }

  lemma {:induction false} NoRunIsEarly(log: seq<Event>)
    requires forall b: nat | b < |log| :: !BeganAt(log, b)
    ensures ViewOf(log).early
  {
    hide View.MigrationJournalled, View.After;
    if log != [] {
      var init := log[..|log| - 1];
      EarlyStep(ViewOf(init), log[|log| - 1]);
      assert !BeganAt(log, |log| - 1);
      forall b: nat | b < |init| ensures !BeganAt(init, b) {
        assert !BeganAt(log, b);
        assert forall k | b + 1 <= k < |init| :: init[k] == log[k];
      }
      NoRunIsEarly(init);
    }
  }

  /** What "early" says of the log. */
  lemma EarlyExactly(log: seq<Event>)
    ensures ViewOf(log).early <==> BeganUnmigrated(log)
  {
    if b: nat :| b < |log| && BeganAt(log, b) {
      EarlyMeans(log, b);
      MigrationMeans(log[..b]);
      forall c: nat | c < |log| && BeganAt(log, c) ensures c == b {
        NoLaterRun(log, b, c);
        NoLaterRun(log, c, b);
      }
    } else {
      NoRunIsEarly(log);
    }
  }

  function StartCount(log: seq<Event>, p: Phase): nat {
    if log == [] then 0
    else StartCount(log[..|log| - 1], p) + if log[|log| - 1] == PhaseStarted(p) then 1 else 0
  }

  lemma {:induction false} StartsMean(log: seq<Event>, p: Phase)
    ensures StartCount(log, p) == if p in ViewOf(log).starts then ViewOf(log).starts[p] else 0
  {
    if log != [] {
      StartsMean(log[..|log| - 1], p);
    }
  }

  lemma {:induction false} LicensedAt(log: seq<Event>, k: nat)
    requires LicensedLog(log) && k < |log|
    ensures Licensed(ViewOf(log[..k]), log[k])
  {
    if k < |log| - 1 {
      var init := log[..|log| - 1];
      LicensedAt(init, k);
      assert init[..k] == log[..k];
    }
  }

  lemma {:induction false} PlansMean(log: seq<Event>, k: nat)
    requires k < |log|
    ensures log[k].RunBegan? ==> log[k].identities in ViewOf(log).plans
    ensures log[k].AppliedTo? ==> log[k].plan in ViewOf(log).plans
  {
    if k < |log| - 1 {
      PlansMean(log[..|log| - 1], k);
    }
  }

  /** Whatever plan is at work, a run has begun under it. */
  lemma {:induction false} PlansBegan(log: seq<Event>, plan: Identities)
    requires LicensedLog(log) && plan in ViewOf(log).plans
    ensures exists b :: 0 <= b < |log| && log[b].RunBegan? && log[b].identities == plan
  {
    var init, e := log[..|log| - 1], log[|log| - 1];
    if e.RunBegan? && e.identities == plan {
      assert log[|log| - 1].RunBegan?;
    } else {
      PlansBegan(init, plan);
      var b :| 0 <= b < |init| && init[b].RunBegan? && init[b].identities == plan;
      assert log[b].RunBegan?;
    }
  }

  // ----- the theorems -----

  /** The lock works: at any time at most one process is past it, so at most one writes or applies. */
  lemma AtMostOneRunner(actions: seq<Action>, id1: nat, id2: nat)
    requires id1 in History(actions).processes && History(actions).processes[id1].Live()
    requires id2 in History(actions).processes && History(actions).processes[id2].Live()
    ensures id1 == id2
  {
    HistoryConsistent(actions);
  }

  /** Every run and every effect ever made under the cutover id used the same ten identities. */
  lemma OneIdentity(actions: seq<Action>, i: nat, k: nat)
    requires i < |History(actions).log| && k < |History(actions).log|
    ensures
      var log := History(actions).log;
      && (log[i].AppliedTo? && log[k].AppliedTo? ==> log[i].plan == log[k].plan)
      && (log[i].RunBegan? && log[k].AppliedTo? ==> log[i].identities == log[k].plan)
      && (log[i].RunBegan? && log[k].RunBegan? ==> log[i].identities == log[k].identities)
  {
    HistoryConsistent(actions);
    PlansMean(History(actions).log, i);
    PlansMean(History(actions).log, k);
  }

  /** The migration boundary: once any phase from the migration onward has a row, the six earlier phases are
      completed; so the guard that would block a resume never fires, and no update ever misses its row. */
  lemma MigrationBoundary(actions: seq<Action>)
    ensures
      var s := History(actions);
      && ((exists p: Phase :: p in s.journal.rows && p >= MIGRATE_APPLICATION_SCHEMA) ==>
            forall p: Phase | p < MIGRATE_APPLICATION_SCHEMA :: s.journal.PhaseStatus(p) == Some(Completed))
      && (forall e <- s.log :: !e.GuardFired? && !e.RowMissing?)
  {
    HistoryConsistent(actions);
    var log := History(actions).log;
    forall e | e in log ensures !e.GuardFired? && !e.RowMissing? {
      var k :| 0 <= k < |log| && log[k] == e;
      LicensedAt(log, k);
    }
  }

  /** ... and they stay completed, whatever happens afterwards. */
  lemma {:induction false} MigrationBoundaryStays(actions: seq<Action>, more: seq<Action>, p: Phase)
    requires p in History(actions).journal.rows && p >= MIGRATE_APPLICATION_SCHEMA
    ensures p in History(actions + more).journal.rows
    ensures forall q: Phase | q < MIGRATE_APPLICATION_SCHEMA ::
              History(actions + more).journal.PhaseStatus(q) == Some(Completed)
  {
    hide Act;
    if more == [] {
      assert actions + more == actions;
    } else {
      var init := more[..|more| - 1];
      MigrationBoundaryStays(actions, init, p);
      assert (actions + more)[..|actions + more| - 1] == actions + init;
      RowsStay(History(actions + init), more[|more| - 1], p);
    }
    MigrationBoundary(actions + more);
  }

  /** No step ever removes a row. */
  lemma RowsStay(s: System, action: Action, p: Phase)
    requires p in s.journal.rows
    ensures p in Act(s, action).journal.rows
  {
    hide FlatAndIdentical;
  }

  /** The shape of the journal in every history. */
  lemma JournalShape(actions: seq<Action>)
    ensures
      var s := History(actions);
      && Shape(s.journal.rows)
      && forall p: Phase | p in s.journal.rows ::
           RowLawful(p, s.journal.rows[p]) && s.journal.rows[p].attemptCount == StartCount(s.log, p)
  {
    HistoryConsistent(actions);
    var s := History(actions);
    StackedShape(s.journal.rows);
    forall p: Phase | p in s.journal.rows ensures s.journal.rows[p].attemptCount == StartCount(s.log, p) {
      StartsMean(s.log, p);
    }
  }

  /** The first row of any phase from the migration onward is MIGRATE's own, written in a run that had seen
      the fence and the stop satisfied and, after both, a clean final verification. */
  lemma FirstMigrationRowIsCleared(actions: seq<Action>, k: nat)
    requires k < |History(actions).log|
    requires
      var log := History(actions).log;
      log[k].PhaseStarted? && log[k].phase >= MIGRATE_APPLICATION_SCHEMA && !MigrationWritten(log[..k])
    ensures
      var log := History(actions).log;
      log[k] == PhaseStarted(MIGRATE_APPLICATION_SCHEMA) && RunCleared(log[..k])
  {
    HistoryConsistent(actions);
    var log := History(actions).log;
    LicensedAt(log, k);
    ClearedMeans(log[..k]);
    MigrationMeans(log[..k]);
  }

  /** Exactly when an application of the migration follows, in its own run, the fence, the stop and a clean
      final verification: when no journal event from the migration onward lies before the beginning of that run.
      That a run had begun, under the plan that is applied, is always so. */
  lemma MigrationAppliedAfterClearance(actions: seq<Action>, k: nat)
    requires k < |History(actions).log|
    requires History(actions).log[k].AppliedTo? && History(actions).log[k].phase == MIGRATE_APPLICATION_SCHEMA
    ensures
      var log := History(actions).log;
      && (RunCleared(log[..k]) <==> BeganUnmigrated(log[..k]))
      && exists b :: 0 <= b < k && log[..k][b].RunBegan? && log[..k][b].identities == log[k].plan
  {
    HistoryConsistent(actions);
    var log := History(actions).log;
    LicensedAt(log, k);
    LicensedPrefix(log, k);
    ClearedMeans(log[..k]);
    EarlyExactly(log[..k]);
    PlansBegan(log[..k], log[k].plan);
  }

  lemma {:induction false} LicensedPrefix(log: seq<Event>, k: nat)
    requires LicensedLog(log) && k <= |log|
    ensures LicensedLog(log[..k])
  {
    if k < |log| {
      LicensedPrefix(log[..|log| - 1], k);
      assert log[..|log| - 1][..k] == log[..k];
    } else {
      assert log[..k] == log;
    }
  }

  /** No pre-migration effect is applied once the migration has been journalled. */
  lemma NothingEarlierAfterMigration(actions: seq<Action>, k: nat)
    requires k < |History(actions).log|
    requires History(actions).log[k].AppliedTo? && MigrationWritten(History(actions).log[..k])
    ensures History(actions).log[k].phase >= MIGRATE_APPLICATION_SCHEMA
  {
    HistoryConsistent(actions);
    LicensedAt(History(actions).log, k);
    MigrationMeans(History(actions).log[..k]);
  }

  /** ENTRY is unfenced only with the sixteen earlier phases journalled completed and, in the same run, every
      phase from the migration to the final postflight observed satisfied. */
  lemma UnfenceIsLast(actions: seq<Action>, k: nat)
    requires k < |History(actions).log|
    requires History(actions).log[k].AppliedTo? && History(actions).log[k].phase == UNFENCE_ENTRY
    ensures
      var before := History(actions).log[..k];
      && (forall p: Phase | p < UNFENCE_ENTRY :: CompletedIn(before, p))
      && forall q: Phase | MIGRATE_APPLICATION_SCHEMA <= q <= FINAL_POSTFLIGHT :: Witnessed(before, q)
  {
    HistoryConsistent(actions);
    SeenThrough(History(actions).log, k);
  }

  /** An effect from the migration onward comes after every earlier phase was completed and its run saw every phase
      between satisfied. */
  lemma SeenThrough(log: seq<Event>, k: nat)
    requires LicensedLog(log) && k < |log| && log[k].AppliedTo? && log[k].phase >= MIGRATE_APPLICATION_SCHEMA
    ensures forall p: Phase | p < log[k].phase :: CompletedIn(log[..k], p)
    ensures forall q: Phase | MIGRATE_APPLICATION_SCHEMA <= q < log[k].phase :: Witnessed(log[..k], q)
  {
    LicensedAt(log, k);
    forall p: Phase | p < log[k].phase ensures CompletedIn(log[..k], p) {
      CompletedMeans(log[..k], p);
    }
    forall q: Phase | MIGRATE_APPLICATION_SCHEMA <= q < log[k].phase ensures Witnessed(log[..k], q) {
      SeenMeans(log[..k], q);
    }
  }

  // ----- a run is part of a history -----

  lemma Extend(actions: seq<Action>, action: Action)
    ensures History(actions + [action]) == Act(History(actions), action)
  {
    assert (actions + [action])[..|actions|] == actions;
  }

  /** What the system is once a run launched on a free lock has been given its answers. */
  predicate RanTo(s: System, id: nat, c: Config) {
    && s.journal == c.journal && s.log == c.log
    && id in s.processes && s.processes[id] == Running(c.runner)
    && s.holder == if c.runner.pc.Ended? then None else Some(id)
  }

  lemma AdvanceRun(s: System, id: nat, c: Config, a: Answer)
    requires RanTo(s, id, c)
    ensures RanTo(Act(s, Advance(id, a)), id, Next(c, a))
  {
    if c.runner.pc.Ended? {
      assert c.runner.(pc := c.runner.pc) == c.runner;
      assert Next(c, a) == c;
    } else {
      StillAdvances(s, id, c, a);
    }
  }

  lemma StillAdvances(s: System, id: nat, c: Config, a: Answer)
    requires RanTo(s, id, c) && !c.runner.pc.Ended?
    ensures RanTo(Act(s, Advance(id, a)), id, Next(c, a))
  {
    hide MoveOf;
  }

  /** A run that marked itself done left all seventeen phases and the run completed. */
  lemma {:induction false} RunKeeps(c: Config, answers: seq<Answer>)
    requires LicensedLog(c.log) && Sound(c.journal, ViewOf(c.log), c.runner)
    ensures
      var end := Exec(c, answers);
      && LicensedLog(end.log) && Sound(end.journal, ViewOf(end.log), end.runner)
      && (end.runner.pc == Ended(Done) ==>
            CompletedBelow(end.journal, 17) && end.journal.run.Some? && end.journal.run.value.completed)
  {
    hide Durable, MoveOf, Licensed, RunnerInv, LicensedLog, ViewOf;
    if answers != [] {
      var c', a := Exec(c, answers[..|answers| - 1]), answers[|answers| - 1];
      RunKeeps(c, answers[..|answers| - 1]);
      MoveKeeps(c'.journal, c'.log, c'.runner, a);
    }
    if Exec(c, answers).runner.pc == Ended(Done) {
      DoneMeans(Exec(c, answers));
    }
  }

  lemma DoneMeans(c: Config)
    requires Sound(c.journal, ViewOf(c.log), c.runner) && c.runner.pc == Ended(Done)
    ensures CompletedBelow(c.journal, 17) && c.journal.run.Some? && c.journal.run.value.completed
  {
  }

  /** A process that takes the free lock. */
  lemma EnterRun(actions: seq<Action>, id: nat, plan: Identities, nowMs: int) returns (more: seq<Action>)
    requires History(actions).holder.None? && id !in History(actions).processes
    ensures
      var s := History(actions);
      RanTo(History(actions + more), id, Config(s.journal, s.log, NewRunner(plan, nowMs)))
  {
    hide MoveOf;
    var enter := Advance(id, Answer(Returned, true, NO_FACTS));
    more := [Launch(id, plan, nowMs), enter];
    Extend(actions, more[0]);
    Extend(actions + [more[0]], enter);
    assert actions + more == actions + [more[0]] + [enter];
  }

  lemma AdvanceHistory(actions: seq<Action>, id: nat, c: Config, a: Answer)
    requires RanTo(History(actions), id, c)
    ensures RanTo(History(actions + [Advance(id, a)]), id, Next(c, a))
  {
    Extend(actions, Advance(id, a));
    AdvanceRun(History(actions), id, c, a);
  }

  /** Any run of the machine, started while no process holds the lock, continues any history as a history. */
  lemma {:induction false} RunExtendsHistory(actions: seq<Action>, id: nat, plan: Identities, nowMs: int,
                                             answers: seq<Answer>)
    returns (more: seq<Action>)
    requires History(actions).holder.None? && id !in History(actions).processes
    ensures
      var s := History(actions);
      RanTo(History(actions + more), id, Exec(Config(s.journal, s.log, NewRunner(plan, nowMs)), answers))
  {
    hide History, Act, RanTo, Next;
    if answers == [] {
      more := EnterRun(actions, id, plan, nowMs);
    } else {
      var init, a := answers[..|answers| - 1], answers[|answers| - 1];
      var s := History(actions);
      more := RunExtendsHistory(actions, id, plan, nowMs, init);
      AdvanceHistory(actions + more, id, Exec(Config(s.journal, s.log, NewRunner(plan, nowMs)), init), a);
      assert actions + more + [Advance(id, a)] == actions + (more + [Advance(id, a)]);
      more := more + [Advance(id, a)];
    }
  }
}
