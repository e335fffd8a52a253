/** Where the exits of a compatible upgrade are not the three its design names, and what else a failure can leave:
    for every case the runs that show it, call by call, and the exact condition. */
module UpgradeExits {
  import opened Wrappers
  import opened TokyoHost
  import opened UpgradeState
  import RegularState

  /** A host the try can be entered on. */
  predicate Enterable(plan: UpgradePlan, h0: Host) {
    plan.Valid() && Told(plan, h0, h0, InitialFlags(plan, h0))
  }

  // ----- an active target, resumed -----

  /** Resuming an upgrade whose target already runs: the stop raises part of the way through, and the handler's
      recovery certification is refused. What is left is neither source nor target nor nothing. */
  lemma PartialStopRefused(plan: UpgradePlan, h0: Host, seed: string) returns (h: Host, f: Flags)
    requires Enterable(plan, h0) && h0.symlink == plan.target && h0.running != map[]
    ensures FencedSome(h0, h0)                        // the fence call returns
    ensures StoppedSome(h0, h, SAFETY_SERVICES)       // the stop raises
    ensures f == InitialFlags(plan, h0).(transitionStarted := true) && FailedWith(plan, h0, h, f)
    ensures Handled(plan, h, f, seed, false) == h     // the certification is refused
    ensures !DesignedExit(plan, h0, h)
    ensures LawfulPath(plan, [h0, h0, h, h])
  {
    f := InitialFlags(plan, h0).(transitionStarted := true);
    var s :| s in h0.running.Keys;
    h := h0.(running := map[s := h0.running[s]]);
    AreSafety(h0.running.Keys);
    StopKeeps(plan, h0, h0, h, InitialFlags(plan, h0));
    Untold(plan, h0, h, InitialFlags(plan, h0), f);
    FenceKeeps(plan, h0, h0, h0, InitialFlags(plan, h0));
    FenceKeeps(plan, h0, h, h, f);
    assert s in h.running.Keys;
    NotAll(h.running, s);
    hide Told, LawfulMove;
    assert LawfulPath(plan, [h0, h0, h, h]);
  }

  lemma NotAll(running: map<Service, Release>, s: Service)
    requires running.Keys == {s}
    ensures running.Keys != SAFETY_SERVICES && running != map[]
  {
    assert Observation in SAFETY_SERVICES && Lifecycle in SAFETY_SERVICES;
  }

  /** Exactly when the three designed exits are all there is, whatever fails and however the certification of a
      faultless handler turns out: when the current release is not the target, or nothing runs. */
  lemma DesignedExitsExactly(plan: UpgradePlan, h0: Host, seed: string)
    requires Enterable(plan, h0)
    ensures (h0.symlink != plan.target || h0.running == map[]) <==>
            forall h, f, certified :: FailedWith(plan, h0, h, f) ==>
              DesignedExit(plan, h0, Handled(plan, h, f, seed, certified))
  {
    if h0.symlink != plan.target || h0.running == map[] {
      forall h, f, certified | FailedWith(plan, h0, h, f)
        ensures DesignedExit(plan, h0, Handled(plan, h, f, seed, certified))
      {
        DesignedExits(plan, h0, h, f, seed, certified);
      }
    } else {
      var h, f := PartialStopRefused(plan, h0, seed);
      assert FailedWith(plan, h0, h, f) && !DesignedExit(plan, h0, Handled(plan, h, f, seed, false));
    }
  }

  // ----- when nothing runs -----

  /** With another release current, nothing runs after a faultless handler exactly when a migration was tried and
      not confirmed, or the fact was tried and not confirmed, before the failure or by the handler, or the
      certification before the handler's own attempt was refused. */
  lemma NothingRunsExactly(plan: UpgradePlan, h0: Host, h: Host, f: Flags, seed: string, certified: bool)
    requires FailedWith(plan, h0, h, f) && h0.symlink != plan.target
    ensures NothingRunning(Handled(plan, h, f, seed, certified)) <==>
              || (f.migrationAttempted && !f.schemaMigrated)
              || (f.compatibilityPersistenceAttempted && !f.compatibilityPersisted)
              || (f.schemaMigrated && !f.compatibilityPersistenceAttempted && !certified)
              || (f.schemaMigrated && !f.compatibilityPersistenceAttempted && !Stored(plan, h).Holds(plan.fact))
  {
    HandledByFlags(plan, h0, h, f, seed, certified);
    if f.schemaMigrated {
      NotYetActivated(plan, h0, h, f);
    }
    var end := Handled(plan, h, f, seed, certified);
    assert Observation in SAFETY_SERVICES;
    assert SourceRunning(plan, h0, end) || TargetRunning(plan, end) ==> Observation in end.running.Keys;
    hide Handled;
  }

  /** The hosts of an upgrade from the source, as far as it gets without a fault: fenced, stopped, with its
      baseline, migrated, with the fact stored. */
  function Stopped(h: Host): Host {
    h.(running := map[])
  }

  function Recorded(plan: UpgradePlan, h: Host, baseline: Baseline): Host {
    h.(baselines := h.baselines[plan.target := baseline])
  }

  function Migrated(plan: UpgradePlan, h: Host): Host {
    h.(revision := plan.target.revision)
  }

  /** Every call up to the stored fact, taken without a fault. */
  lemma Approach(plan: UpgradePlan, h0: Host, baseline: Baseline) returns (path: seq<Host>)
    requires Enterable(plan, h0) && h0.revision == plan.sourceRevision && !h0.ownerApi && plan.fact.id !in h0.facts
    ensures
      var stopped := Stopped(h0);
      var recorded := Recorded(plan, stopped, baseline);
      var migrated := Migrated(plan, recorded);
      path == [h0, h0, stopped, recorded, migrated, Stored(plan, migrated)]
    ensures FencedSome(path[0], path[1])                       // the fence
    ensures StoppedSome(path[1], path[2], SAFETY_SERVICES) && path[2].Quiescent()   // the stop
    ensures LawfulPath(plan, path)
    // preservation fails, or is confirmed and the fact stored
    ensures FailedWith(plan, h0, path[4], Flags(true, true, true, false, false, false, false, false))
    ensures FailedWith(plan, h0, path[5], Flags(true, true, true, true, true, false, false, false))
  {
    var f := InitialFlags(plan, h0);
    var stopped := Stopped(h0);
    var recorded := Recorded(plan, stopped, baseline);
    var migrated := Migrated(plan, recorded);
    var stored := Stored(plan, migrated);
    AreSafety(h0.running.Keys);
    FenceKeeps(plan, h0, h0, h0, f);
    StopKeeps(plan, h0, h0, stopped, f);
    RecordKeeps(plan, h0, stopped, recorded, f);
    AttemptMigration(plan, h0, recorded, f);
    var tried := f.(migrationAttempted := true);
    MigrateKeeps(plan, h0, recorded, migrated, tried);
    ConfirmMigration(plan, h0, migrated, tried);
    var confirmed := tried.(schemaMigrated := true);
    AttemptPersistence(plan, h0, migrated, confirmed);
    PersistKeeps(plan, h0, migrated, stored, confirmed.(compatibilityPersistenceAttempted := true));
    ConfirmPersistence(plan, h0, stored, confirmed.(compatibilityPersistenceAttempted := true));
    Untold(plan, h0, migrated, confirmed, Flags(true, true, true, false, false, false, false, false));
    Untold(plan, h0, stored,
           confirmed.(compatibilityPersistenceAttempted := true, compatibilityPersisted := true),
           Flags(true, true, true, true, true, false, false, false));
    path := [h0, h0, stopped, recorded, migrated, stored];
    hide Told, LawfulMove;
    assert LawfulPath(plan, path);
  }

  /** The schema is confirmed migrated, the preservation check raises, and the handler's certification is refused:
      nothing runs, though no migration is unconfirmed and the fact was never tried. */
  lemma StoppedBeforeTheFact(plan: UpgradePlan, h0: Host, baseline: Baseline, seed: string)
    requires Enterable(plan, h0) && h0.revision == plan.sourceRevision && !h0.ownerApi && plan.fact.id !in h0.facts
    ensures
      var h := Migrated(plan, Recorded(plan, Stopped(h0), baseline));
      var f := Flags(true, true, true, false, false, false, false, false);
      && FailedWith(plan, h0, h, f)
      && Handled(plan, h, f, seed, false) == h && NothingRunning(h)
      && !(f.migrationAttempted && !f.schemaMigrated)
      && !(f.compatibilityPersistenceAttempted && !f.compatibilityPersisted)
  {
    var path := Approach(plan, h0, baseline);
  }

  // ----- the target over the source's identity -----

  /** The fact is stored and the certification before the identity rotation raises: the handler activates and starts
      the target on the fact alone. The target runs, and the identity row is still the source's; a regular
      deployment, which needs running services to be at the database's commit, cannot start from there. */
  lemma TargetOverSourceIdentity(plan: UpgradePlan, h0: Host, baseline: Baseline, seed: string, certified: bool)
    requires Enterable(plan, h0) && h0.revision == plan.sourceRevision && !h0.ownerApi && plan.fact.id !in h0.facts
    requires h0.identity.commit != plan.target.commit
    ensures
      var h := Stored(plan, Migrated(plan, Recorded(plan, Stopped(h0), baseline)));
      var f := Flags(true, true, true, true, true, false, false, false);
      var end := Handled(plan, h, f, seed, certified);
      && FailedWith(plan, h0, h, f)
      && TargetRunning(plan, end) && end.identity == h0.identity
      && !RegularState.Truthful(end)
  {
    var path := Approach(plan, h0, baseline);
    var h := Stored(plan, Migrated(plan, Recorded(plan, Stopped(h0), baseline)));
    var f := Flags(true, true, true, true, true, false, false, false);
    HandledByFlags(plan, h0, h, f, seed, certified);
    var end := Handled(plan, h, f, seed, certified);
    hide Handled;
    assert Observation in SAFETY_SERVICES && Observation in end.running.Keys;
  }

  // ----- the three at one plan -----

  const SOURCE := Release("a", "0010_dynamic_intent_v1")
  const TARGET := Release("b", "0012_generic_signal_path_v1")
  const FACT := CompatibilityFact("release-compatibility:a:b", "a", "b", SOURCE.revision, TARGET.revision, CompatibleRestart)
  const PLAN := UpgradePlan(TARGET, SOURCE.revision, FACT)

  function Workers(release: Release): map<Service, Release> {
    map[Observation := release, Lifecycle := release, Reconciliation := release]
  }

  /** The source running, before the upgrade. */
  const BEFORE := Host(
    SOURCE.revision, Identity("a", SOURCE.revision, "seed"), map[], SOURCE, {SOURCE, TARGET},
    map[(SOURCE, SchemaRevision) := SOURCE.revision], map[], SOURCE, SOURCE, Workers(SOURCE), false, false, true, false)

  /** The target running, after it. */
  const AFTER := Host(
    TARGET.revision, Identity("b", TARGET.revision, "seed"), map[FACT.id := FACT], TARGET, {SOURCE, TARGET},
    map[(TARGET, SchemaRevision) := TARGET.revision], map[], TARGET, TARGET, Workers(TARGET), false, false, true, false)

  const BASELINE := Baseline("a", "b", SOURCE.revision, "digest", Preserved("universe", ""), "")

  /** None of the exceptional cases is empty: one upgrade that fails twice over on its way from BEFORE, and one
      resumed on AFTER. */
  lemma AllThreeHappen(seed: string) returns (h: Host, f: Flags)
    ensures StoppedSome(AFTER, h, SAFETY_SERVICES) && FailedWith(PLAN, AFTER, h, f)
    ensures Handled(PLAN, h, f, seed, false) == h && !DesignedExit(PLAN, AFTER, h)
    ensures
      var migrated := Migrated(PLAN, Recorded(PLAN, Stopped(BEFORE), BASELINE));
      && FailedWith(PLAN, BEFORE, migrated, Flags(true, true, true, false, false, false, false, false))
      && NothingRunning(Handled(PLAN, migrated, Flags(true, true, true, false, false, false, false, false), seed, false))
    ensures
      var stored := Stored(PLAN, Migrated(PLAN, Recorded(PLAN, Stopped(BEFORE), BASELINE)));
      var end := Handled(PLAN, stored, Flags(true, true, true, true, true, false, false, false), seed, false);
      TargetRunning(PLAN, end) && end.identity.commit == "a" && !RegularState.Truthful(end)
  {
    assert SOURCE.revision[3] != TARGET.revision[3];
    assert "a"[0] != "b"[0];
    assert Observation in AFTER.running;
    h, f := PartialStopRefused(PLAN, AFTER, seed);
    StoppedBeforeTheFact(PLAN, BEFORE, BASELINE, seed);
    TargetOverSourceIdentity(PLAN, BEFORE, BASELINE, seed, false);
  }
}
