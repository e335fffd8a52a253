/** What one uninterrupted run achieves against a world that keeps its promises. */
module CutoverConvergence {
  import opened Wrappers
  import opened FlatCutover
  import opened CutoverMachine
  import opened CutoverSafety
  import opened CutoverHistory

  /** An adapter over worlds W: what an effect does, what it reports, what it would inspect. */
  datatype Adapter<!W> = Adapter(apply: (W, Phase) -> W, satisfied: (W, Phase) -> bool, facts: W -> CutoverFacts)

  function Asked(pc: Pc): Phase {
    match pc
    case CheckAt(p, _) => p
    case PostcheckAt(p, _) => p
    case ApplyAt(p, _) => p
    case _ => STAGE_EXACT_RELEASE
  }

  /** The answer the world gives: every await returns, and the adapter speaks of the world as it is. */
  function Reply<W>(ad: Adapter<W>, w: W, pc: Pc): Answer {
    Answer(Returned, ad.satisfied(w, Asked(pc)), ad.facts(w))
  }

  function WorldAfter<W>(ad: Adapter<W>, w: W, pc: Pc): W {
    if pc.ApplyAt? then ad.apply(w, pc.phase) else w
  }

  /** One uninterrupted run from here to its end. */
  function Drive<W>(ad: Adapter<W>, c: Config, w: W): (Config, W)
    decreases Rank(c.runner.pc)
  {
    if c.runner.pc.Ended? then (c, w)
    else
      EveryStepDescends(c.journal, c.runner, Reply(ad, w, c.runner.pc));
      Drive(ad, Next(c, Reply(ad, w, c.runner.pc)), WorldAfter(ad, w, c.runner.pc))
  }

  /** What one run needs of the world: every effect establishes its own postcondition; the effects up to the
      stop disturb neither the fence nor the stop nor the calm; and in a calm world the facts are clean, with
      the writer fence once fence and stop are satisfied. Later effects may undo whatever they like: the real
      adapter's UNFENCE_ENTRY undoes postconditions that demand the fence. */
  ghost predicate Lawful<W(!new)>(ad: Adapter<W>, plan: Identities, calm: W -> bool) {
    && (forall w: W, p: Phase :: ad.satisfied(ad.apply(w, p), p))
    && (forall w: W, p: Phase, q: Phase | p <= STOP_RUNTIME_WRITERS && Guarding(q) && ad.satisfied(w, q) ::
          ad.satisfied(ad.apply(w, p), q))
    && (forall w: W, p: Phase | p <= STOP_RUNTIME_WRITERS && calm(w) :: calm(ad.apply(w, p)))
    && (forall w: W | calm(w) :: FlatAndIdentical(plan, ad.facts(w), false))
    && (forall w: W | calm(w) && ad.satisfied(w, FENCE_EXCHANGE_WRITES) && ad.satisfied(w, STOP_RUNTIME_WRITERS) ::
          FlatAndIdentical(plan, ad.facts(w), true))
  }

  predicate Guarding(q: Phase) {
    q == FENCE_EXCHANGE_WRITES || q == STOP_RUNTIME_WRITERS
  }

  ghost predicate StillSatisfied<W>(ad: Adapter<W>, w: W, seen: set<Phase>) {
    forall q <- seen :: Guarding(q) ==> ad.satisfied(w, q)
  }

  /** Places up to and including the final verification. */
  predicate EarlyPlace(pc: Pc) {
    match pc
    case EnsureRunAt => true
    case ScanAt(_) => true
    case StageStatusAt => true
    case StageCheckAt(_) => true
    case PreflightAt => true
    case StatusAt(p) => p <= VERIFY_FINAL_FLAT
    case CheckAt(p, _) => p <= STOP_RUNTIME_WRITERS
    case StartSatisfiedAt(p, _) => p <= STOP_RUNTIME_WRITERS
    case StartEffectAt(p, _) => p <= STOP_RUNTIME_WRITERS
    case ApplyAt(p, _) => p <= STOP_RUNTIME_WRITERS
    case PostcheckAt(p, _) => p <= STOP_RUNTIME_WRITERS
    case CompleteAt(p, _) => p <= STOP_RUNTIME_WRITERS
    case StartVerifyAt => true
    case VerifyAt => true
    case _ => false
  }

  /** Until the final verification the world is as calm, and as guarded, as this run has seen it. */
  ghost predicate CalmSoFar<W>(ad: Adapter<W>, w: W, calm: W -> bool, j: Journal, v: View, r: Runner) {
    EarlyPlace(r.pc) ==>
      if r.pc.EnsureRunAt? then Unmigrated(j) ==> calm(w)
      else StillSatisfied(ad, w, v.seen) && (Unmigrated(j) && !r.migrationStarted ==> calm(w))
  }

  /** No place on the way is a failing one. */
  predicate Promising(pc: Pc) {
    !pc.FailAt? && !pc.FailVerifyAt? && (pc.Ended? ==> pc == Ended(Done))
  }

  predicate Finished(j: Journal) {
    CompletedBelow(j, 17) && j.run.Some? && j.run.value.completed
  }

  ghost predicate OnTrack<W(!new)>(ad: Adapter<W>, c: Config, w: W, plan: Identities, calm: W -> bool) {
    var v := ViewOf(c.log);
    && Sound(c.journal, v, c.runner)
    && c.runner.plan == plan
    && Promising(c.runner.pc)
    && (c.runner.pc.EnsureRunAt? ==> c.journal.run.None? || c.journal.run.value.identities == plan)
    && CalmSoFar(ad, w, calm, c.journal, v, c.runner)
    && (c.runner.pc.PostcheckAt? ==> ad.satisfied(w, c.runner.pc.phase))
    && (c.runner.pc.Ended? ==> Finished(c.journal))
  }

  /** The next place is promising again. */
  predicate StaysPromising(m: Move, pc: Pc, plan: Identities) {
    && Promising(m.runner.pc)
    && m.runner.plan == plan
    && (m.runner.pc.Ended? ==> Finished(m.journal))
    && !m.runner.pc.EnsureRunAt?
    && (m.runner.pc.PostcheckAt? ==> pc.ApplyAt? && m.runner.pc.phase == pc.phase)
  }

  lemma LoopStaysPromising<W(!new)>(ad: Adapter<W>, c: Config, w: W, plan: Identities, calm: W -> bool)
    requires Lawful(ad, plan, calm) && OnTrack(ad, c, w, plan, calm)
    requires c.runner.pc.StatusAt? || c.runner.pc.VerifyAt?
    ensures StaysPromising(MoveOf(c.journal, c.runner, Reply(ad, w, c.runner.pc)), c.runner.pc, plan) == true
  {
    hide Durable, FlatAndIdentical;
    var v := ViewOf(c.log);
    if c.runner.pc.StatusAt? {
      AfterStatusKeeps(c.journal, v, c.runner, c.runner.pc.phase);
    } else {
      assert Underway(c.journal, v, c.runner, VERIFY_FINAL_FLAT);
      assert Evidence(v, c.runner, VERIFY_FINAL_FLAT);
      assert calm(w) && ad.satisfied(w, FENCE_EXCHANGE_WRITES) && ad.satisfied(w, STOP_RUNTIME_WRITERS);
      assert FlatAndIdentical(plan, ad.facts(w), true);
      assert FENCE_EXCHANGE_WRITES in v.seen && STOP_RUNTIME_WRITERS in v.seen;
    }
  }

  lemma RestStaysPromising<W(!new)>(ad: Adapter<W>, c: Config, w: W, plan: Identities, calm: W -> bool)
    requires Lawful(ad, plan, calm) && OnTrack(ad, c, w, plan, calm) && !c.runner.pc.Ended?
    requires !c.runner.pc.StatusAt? && !c.runner.pc.VerifyAt?
    ensures StaysPromising(MoveOf(c.journal, c.runner, Reply(ad, w, c.runner.pc)), c.runner.pc, plan) == true
  {
    hide Durable, FlatAndIdentical, AfterStatus;
  }

  /** What was seen in this run still guards it: across an effect ... */
  lemma ApplyStaysCalm<W(!new)>(ad: Adapter<W>, c: Config, w: W, plan: Identities, calm: W -> bool)
    requires Lawful(ad, plan, calm) && OnTrack(ad, c, w, plan, calm) && c.runner.pc.ApplyAt?
    ensures
      var m := MoveOf(c.journal, c.runner, Reply(ad, w, c.runner.pc));
      CalmSoFar(ad, WorldAfter(ad, w, c.runner.pc), calm, m.journal,
                if m.event.Some? then ViewOf(c.log).After(m.event.value) else ViewOf(c.log), m.runner) == true
  {
    hide Durable, RunnerInv, FlatAndIdentical, Promising, Finished;
  }

  /** ... across a reading, ... */
  lemma ReadStaysCalm<W(!new)>(ad: Adapter<W>, c: Config, w: W, plan: Identities, calm: W -> bool)
    requires OnTrack(ad, c, w, plan, calm)
    requires c.runner.pc.StatusAt? || c.runner.pc.CheckAt? || c.runner.pc.PostcheckAt? || c.runner.pc.ScanAt?
    ensures
      var m := MoveOf(c.journal, c.runner, Reply(ad, w, c.runner.pc));
      CalmSoFar(ad, w, calm, m.journal,
                if m.event.Some? then ViewOf(c.log).After(m.event.value) else ViewOf(c.log), m.runner) == true
  {
    hide Durable, FlatAndIdentical, Promising, Finished, Scanned, Evidence, CompletedBelow;
  }

  /** ... and across anything else. */
  lemma RestStaysCalm<W(!new)>(ad: Adapter<W>, c: Config, w: W, plan: Identities, calm: W -> bool)
    requires OnTrack(ad, c, w, plan, calm) && !c.runner.pc.Ended? && !c.runner.pc.ApplyAt?
    ensures
      var m := MoveOf(c.journal, c.runner, Reply(ad, w, c.runner.pc));
      CalmSoFar(ad, w, calm, m.journal,
                if m.event.Some? then ViewOf(c.log).After(m.event.value) else ViewOf(c.log), m.runner) == true
  {
    hide Durable, FlatAndIdentical, Promising, Finished, Scanned, Evidence, CompletedBelow, AfterStatus;
    if c.runner.pc.StatusAt? || c.runner.pc.CheckAt? || c.runner.pc.PostcheckAt? || c.runner.pc.ScanAt? {
      ReadStaysCalm(ad, c, w, plan, calm);
    }
  }

  lemma OnTrackStep<W(!new)>(ad: Adapter<W>, c: Config, w: W, plan: Identities, calm: W -> bool)
    requires Lawful(ad, plan, calm) && OnTrack(ad, c, w, plan, calm) && !c.runner.pc.Ended?
    ensures OnTrack(ad, Next(c, Reply(ad, w, c.runner.pc)), WorldAfter(ad, w, c.runner.pc), plan, calm) == true
  {
    hide Durable, RunnerInv, MoveOf, Licensed, Finished, CalmSoFar;
    var a := Reply(ad, w, c.runner.pc);
    var m := MoveOf(c.journal, c.runner, a);
    StepKeeps(c.journal, ViewOf(c.log), c.runner, a);
    if c.runner.pc.StatusAt? || c.runner.pc.VerifyAt? {
      LoopStaysPromising(ad, c, w, plan, calm);
    } else {
      RestStaysPromising(ad, c, w, plan, calm);
    }
    if c.runner.pc.ApplyAt? {
      ApplyStaysCalm(ad, c, w, plan, calm);
    } else {
      RestStaysCalm(ad, c, w, plan, calm);
    }
    if m.event.Some? {
      ViewStep(c.log, m.event.value);
    }
  }

  lemma {:induction false} DriveFinishes<W(!new)>(ad: Adapter<W>, c: Config, w: W, plan: Identities, calm: W -> bool)
    requires Lawful(ad, plan, calm) && OnTrack(ad, c, w, plan, calm)
    ensures Drive(ad, c, w).0.runner.pc == Ended(Done) && Finished(Drive(ad, c, w).0.journal)
    decreases Rank(c.runner.pc)
  {
    hide Durable, RunnerInv, MoveOf, Lawful;
    if !c.runner.pc.Ended? {
      EveryStepDescends(c.journal, c.runner, Reply(ad, w, c.runner.pc));
      OnTrackStep(ad, c, w, plan, calm);
      DriveFinishes(ad, Next(c, Reply(ad, w, c.runner.pc)), WorldAfter(ad, w, c.runner.pc), plan, calm);
    }
  }

  /** Resume converges: from whatever any history left behind, one uninterrupted run under the same plan ends
      with all seventeen phases and the run itself completed. */
  lemma ResumeConverges<W(!new)>(actions: seq<Action>, ad: Adapter<W>, w: W, plan: Identities, calm: W -> bool, nowMs: int)
    requires Lawful(ad, plan, calm)
    requires
      var j := History(actions).journal;
      (j.run.None? || j.run.value.identities == plan) && (Unmigrated(j) ==> calm(w))
    ensures
      var s := History(actions);
      var end := Drive(ad, Config(s.journal, s.log, NewRunner(plan, nowMs)), w).0;
      end.runner.pc == Ended(Done) && Finished(end.journal)
  {
    HistoryConsistent(actions);
    var s := History(actions);
    DriveFinishes(ad, Config(s.journal, s.log, NewRunner(plan, nowMs)), w, plan, calm);
  }

  // ----- quiescence -----

  /** Places a run passes when the journal is complete and the world agrees. */
  predicate Quiet(r: Runner) {
    match r.pc
    case EnsureRunAt => !r.migrationStarted
    case ScanAt(p) => !r.migrationStarted && p == MIGRATE_APPLICATION_SCHEMA
    case StatusAt(_) => r.migrationStarted
    case CheckAt(p, status) => r.migrationStarted && p >= MIGRATE_APPLICATION_SCHEMA && status == Some(Completed)
    case MarkRunAt => r.migrationStarted
    case Ended(outcome) => outcome == Done
    case _ => false
  }

  predicate Harmless(e: Event) {
    e.RunBegan? || e.Observed? || e.RunMarkedCompleted?
  }

  lemma {:induction false} DriveIsQuiet<W>(ad: Adapter<W>, c: Config, w: W)
    requires Quiet(c.runner) && CompletedBelow(c.journal, 17)
    requires c.journal.run.Some? && c.journal.run.value.identities == c.runner.plan
    requires forall q: Phase | q >= MIGRATE_APPLICATION_SCHEMA :: ad.satisfied(w, q)
    ensures
      var (end, world) := Drive(ad, c, w);
      && world == w && end.journal.rows == c.journal.rows && end.runner.pc == Ended(Done)
      && c.log <= end.log
      && forall k | |c.log| <= k < |end.log| :: Harmless(end.log[k])
    decreases Rank(c.runner.pc)
  {
    if !c.runner.pc.Ended? {
      var a := Reply(ad, w, c.runner.pc);
      var next := Next(c, a);
      EveryStepDescends(c.journal, c.runner, a);
      QuietStep(ad, c, w);
      DriveIsQuiet(ad, next, w);
      var end := Drive(ad, next, w).0;
      assert Drive(ad, c, w) == Drive(ad, next, WorldAfter(ad, w, c.runner.pc));
      forall k | |c.log| <= k < |end.log| ensures Harmless(end.log[k]) {
        assert k < |next.log| ==> end.log[k] == next.log[k];
      }
      assert c.log <= next.log <= end.log;
    }
  }

  lemma QuietStep<W>(ad: Adapter<W>, c: Config, w: W)
    requires Quiet(c.runner) && CompletedBelow(c.journal, 17) && !c.runner.pc.Ended?
    requires c.journal.run.Some? && c.journal.run.value.identities == c.runner.plan
    requires forall q: Phase | q >= MIGRATE_APPLICATION_SCHEMA :: ad.satisfied(w, q)
    ensures
      var next := Next(c, Reply(ad, w, c.runner.pc));
      && Quiet(next.runner) && next.journal.rows == c.journal.rows && next.runner.plan == c.runner.plan
      && next.journal.run.Some? && next.journal.run.value.identities == c.runner.plan
      && c.log <= next.log && |next.log| <= |c.log| + 1
      && (|next.log| > |c.log| ==> Harmless(next.log[|c.log|]))
      && !c.runner.pc.ApplyAt?
  {
    hide FlatAndIdentical;
    var p: Phase := if c.runner.pc.StatusAt? || c.runner.pc.ScanAt? then c.runner.pc.phase else PLAN_IDENTITIES;
    assert p in c.journal.rows && c.journal.rows[p].status == Completed;
  }

  /** A run over a completed journal applies nothing and changes no phase row while every phase from the
      migration onward still reports satisfied. */
  lemma CompletedRunIsQuiet<W>(actions: seq<Action>, ad: Adapter<W>, w: W, plan: Identities, nowMs: int)
    requires CompletedBelow(History(actions).journal, 17)
    requires History(actions).journal.run.Some? && History(actions).journal.run.value.identities == plan
    requires forall q: Phase | q >= MIGRATE_APPLICATION_SCHEMA :: ad.satisfied(w, q)
    ensures
      var s := History(actions);
      var (end, world) := Drive(ad, Config(s.journal, s.log, NewRunner(plan, nowMs)), w);
      && world == w && end.journal.rows == s.journal.rows && end.runner.pc == Ended(Done)
      && forall k | |s.log| <= k < |end.log| :: !end.log[k].AppliedTo? && !end.log[k].PhaseStarted?
  {
    var s := History(actions);
    DriveIsQuiet(ad, Config(s.journal, s.log, NewRunner(plan, nowMs)), w);
  }
}
