/** What the journal's rows say beside their status: the times and the failures in them are those of the log. */
module CutoverRecord {
  import opened Wrappers
  import opened FlatCutover
  import opened CutoverMachine
  import opened CutoverSafety
  import opened CutoverHistory
  import opened CutoverTrace

  /** The time given to the current run. */
  function ClockOf(log: seq<Event>): int {
    if Beginning(log).Some? then Beginning(log).value.nowMs else 0
  }

  /** The time given to the run of the last such event. */
  function LastAt(log: seq<Event>, e: Event): Option<int> {
    if log == [] then None
    else if log[|log| - 1] == e then Some(ClockOf(log))
    else LastAt(log[..|log| - 1], e)
  }

  /** The last failure of a phase. */
  function LastError(log: seq<Event>, p: Phase): Option<Failure> {
    if log == [] then None
    else if log[|log| - 1].PhaseFailed? && log[|log| - 1].phase == p then Some(log[|log| - 1].error)
    else LastError(log[..|log| - 1], p)
  }

  predicate RowRecorded(log: seq<Event>, p: Phase, row: PhaseRow) {
    && LastAt(log, PhaseStarted(p)) == Some(row.startedAtMs)
    && (row.status == Completed ==> LastAt(log, PhaseCompleted(p)) == row.completedAtMs)
    && (row.status == Failed ==> LastError(log, p) == row.lastError)
  }

  predicate RunRecorded(log: seq<Event>, run: Option<RunRow>) {
    && (RunMarkedCompleted in log <==> run.Some? && run.value.completed)
    && (RunMarkedCompleted in log ==> run.Some? && LastAt(log, RunMarkedCompleted) == Some(run.value.updatedAtMs))
  }

  predicate Recorded(j: Journal, log: seq<Event>) {
    RunRecorded(log, j.run) && forall p: Phase | p in j.rows :: RowRecorded(log, p, j.rows[p])
  }

  lemma RecordStep(log: seq<Event>, e: Event)
    requires !e.RunBegan?
    ensures ClockOf(log + [e]) == ClockOf(log)
    ensures forall f :: LastAt(log + [e], f) == if e == f then Some(ClockOf(log)) else LastAt(log, f)
    ensures forall p: Phase :: LastError(log + [e], p) ==
              if e.PhaseFailed? && e.phase == p then Some(e.error) else LastError(log, p)
    ensures RunMarkedCompleted in log + [e] <==> e == RunMarkedCompleted || RunMarkedCompleted in log
  {
    assert (log + [e])[..|log|] == log;
  }

  /** Events that are no word of a row or of the run. */
  predicate Rowless(e: Event) {
    !e.PhaseStarted? && !e.PhaseCompleted? && !e.PhaseFailed? && !e.RunMarkedCompleted?
  }

  lemma RowlessRecorded(j: Journal, log: seq<Event>, e: Event)
    requires Recorded(j, log) && Rowless(e)
    ensures Recorded(j, log + [e])
  {
    assert (log + [e])[..|log|] == log;
    assert RunMarkedCompleted in log + [e] <==> RunMarkedCompleted in log;
    forall p: Phase | p in j.rows ensures RowRecorded(log + [e], p, j.rows[p]) {
      assert RowRecorded(log, p, j.rows[p]);
    }
  }

  lemma StartRecorded(j: Journal, log: seq<Event>, p: Phase, nowMs: int)
    requires Recorded(j, log) && ClockOf(log) == nowMs
    ensures Recorded(j.UpsertStarted(p, p + 1, nowMs), log + [PhaseStarted(p)])
  {
    RecordStep(log, PhaseStarted(p));
    forall q: Phase | q in j.rows ensures RowRecorded(log, q, j.rows[q]) {
    }
  }

  lemma UpdateRecorded(j: Journal, log: seq<Event>, p: Phase, nowMs: int, error: Option<Failure>)
    requires Recorded(j, log) && ClockOf(log) == nowMs && p in j.rows
    ensures
      Recorded(j.UpdatePhase(p, if error.None? then Completed else Failed, nowMs, error),
               log + [if error.None? then PhaseCompleted(p) else PhaseFailed(p, error.value)])
  {
    RecordStep(log, if error.None? then PhaseCompleted(p) else PhaseFailed(p, error.value));
    forall q: Phase | q in j.rows ensures RowRecorded(log, q, j.rows[q]) {
    }
  }

  lemma MarkRecorded(j: Journal, log: seq<Event>, nowMs: int)
    requires Recorded(j, log) && ClockOf(log) == nowMs && j.run.Some?
    ensures Recorded(j.CompleteRun(nowMs), log + [RunMarkedCompleted])
  {
    RecordStep(log, RunMarkedCompleted);
    forall q: Phase | q in j.rows ensures RowRecorded(log, q, j.rows[q]) {
    }
  }

  lemma EnsureRecorded(j: Journal, log: seq<Event>, plan: Identities, nowMs: int)
    requires Recorded(j, log)
    ensures Recorded(j.EnsureRun(plan, nowMs), log)
  {
    if j.run.None? {
      assert RunMarkedCompleted !in log;
    }
  }

  function LogAfter(log: seq<Event>, m: Move): seq<Event> {
    match m.event
    case Some(e) => log + [e]
    case None => log
  }

  /** One await keeps the record. */
  lemma StepRecords(log: seq<Event>, j: Journal, r: Runner, a: Answer)
    requires Recorded(j, log)
    requires !r.pc.EnsureRunAt? && !r.pc.Ended? ==> ClockOf(log) == r.nowMs && j.run.Some?
    requires r.pc.CompleteAt? || r.pc.FailAt? ==> r.pc.phase in j.rows
    requires r.pc.FailVerifyAt? ==> VERIFY_FINAL_FLAT in j.rows
    ensures Recorded(MoveOf(j, r, a).journal, LogAfter(log, MoveOf(j, r, a))) == true
  {
    hide Recorded, FlatAndIdentical, ErrorText, AfterStatus, Journal.UpsertStarted, Journal.UpdatePhase, Journal.CompleteRun;
    if r.pc.ScanAt? || r.pc.StageStatusAt? || r.pc.Ended? {
      return;
    }
    match r.pc
    case StartSatisfiedAt(p, _) => StartRecorded(j, log, p, r.nowMs);
    case StartEffectAt(p, _) => StartRecorded(j, log, p, r.nowMs);
    case StartVerifyAt => StartRecorded(j, log, VERIFY_FINAL_FLAT, r.nowMs);
    case CompleteAt(p, _) => UpdateRecorded(j, log, p, r.nowMs, None);
    case FailAt(p, error) => UpdateRecorded(j, log, p, r.nowMs, Some(error));
    case FailVerifyAt(error) => UpdateRecorded(j, log, VERIFY_FINAL_FLAT, r.nowMs, Some(error));
    case MarkRunAt => MarkRecorded(j, log, r.nowMs);
    case EnsureRunAt =>
      EnsureRecorded(j, log, r.plan, r.nowMs);
      RowlessRecorded(j.EnsureRun(r.plan, r.nowMs), log, RunBegan(r.plan, r.nowMs));
    case _ =>
      match MoveOf(j, r, a).event
      case Some(e) => RowlessRecorded(j, log, e);
      case None =>
  }

  lemma Clocked(log: seq<Event>, j: Journal, r: Runner)
    requires Sound(j, ViewOf(log), r) && Stands(log, j, r)
    ensures !r.pc.EnsureRunAt? && !r.pc.Ended? ==> ClockOf(log) == r.nowMs && j.run.Some?
  {
    hide Durable, ViewOf;
  }

  lemma ActRecords(s: System, action: Action)
    requires Consistent(s) && HolderStands(s) && Recorded(s.journal, s.log)
    ensures Recorded(Act(s, action).journal, Act(s, action).log)
  {
    if action.Advance? && action.id in s.processes && s.processes[action.id].Live() {
      var r := s.processes[action.id].runner;
      Gates(s.journal, ViewOf(s.log), r);
      Clocked(s.log, s.journal, r);
      hide Recorded, MoveOf, Durable, RunnerInv, LicensedLog, ViewOf, Stands;
      StepRecords(s.log, s.journal, r, action.answer);
    }
  }

  /** In every history a row's start is the time of the run that started it last, its completion that of the run that
      completed it last, its error what it last failed for; and the run row is completed exactly once some run was
      marked so, at the time of the last that was. */
  lemma {:induction false} JournalRecord(actions: seq<Action>)
    ensures Recorded(History(actions).journal, History(actions).log)
  {
    if actions != [] {
      var init := actions[..|actions| - 1];
      JournalRecord(init);
      HistoryConsistent(init);
      TraceIsLawful(init);
      hide Act, LawfulTrace, HolderStands, Consistent, Recorded;
      ActRecords(History(init), actions[|actions| - 1]);
    }
  }
}
