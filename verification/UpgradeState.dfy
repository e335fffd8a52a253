/** What a compatible upgrade knows of the host: the lawful moves, what the flags of
    `_deploy_compatible_upgrade` tell, what its handler makes of a failure, and the exits. */
module UpgradeState {
  import opened Wrappers
  import opened TokyoHost
  import opened DeploymentGates

  /** The parts of a validated compatible-upgrade plan the upgrade works with. */
  datatype UpgradePlan = UpgradePlan(target: Release, sourceRevision: string, fact: CompatibilityFact) {
    predicate Valid() {
      && fact.toCommit == target.commit
      && fact.fromRevision == sourceRevision && fact.toRevision == target.revision
      && sourceRevision != target.revision
    }
  }

  // ----- safety of every state -----

  /** Whatever runs was started from the current release, with that release's environment and unit files, and
      its code is written for the schema in place. */
  predicate Coherent(h: Host) {
    && (forall s <- h.running :: h.running[s] == h.symlink)
    && (h.running != map[] ==> h.symlink.revision == h.revision && h.Equipped())
  }

  /** What an upgrade takes for granted, and what every state of one provides again: coherence, an installed
      current release whose schema marker, if it has one, is true, and, where code and schema agree, its own
      environment and unit files. */
  predicate Truthful(h: Host) {
    && Coherent(h) && h.symlink in h.installed
    && ((h.symlink, SchemaRevision) in h.markers ==> h.markers[(h.symlink, SchemaRevision)] == h.symlink.revision)
    && (h.symlink.revision == h.revision ==> h.Equipped())
  }

  /** What may happen between two states: the fence and ENTRY only tighten; the schema changes only while
      nothing runs; the symlink reaches the target only once the database is there; and target services start
      only with the exact compatibility fact stored. */
  predicate LawfulMove(plan: UpgradePlan, h: Host, h': Host) {
    && Truthful(h')
    && (h.fenced ==> h'.fenced) && (h'.entryRunning ==> h.entryRunning) && (h'.entryEnabled ==> h.entryEnabled)
    && (h'.revision != h.revision ==> h.Quiescent() && h'.Quiescent() && h'.revision == plan.target.revision)
    && (h'.symlink != h.symlink ==>
          h'.symlink == plan.target && h'.revision == plan.target.revision && h'.Holds(plan.fact))
    && (!(h'.running.Keys <= h.running.Keys) && h'.symlink == plan.target ==> h'.Holds(plan.fact))
  }

  ghost predicate LawfulPath(plan: UpgradePlan, path: seq<Host>) {
    forall i | 0 < i < |path| :: LawfulMove(plan, path[i - 1], path[i])
  }

  lemma PathGrows(plan: UpgradePlan, path: seq<Host>, h: Host)
    requires path != [] && LawfulPath(plan, path) && LawfulMove(plan, path[|path| - 1], h)
    ensures LawfulPath(plan, path + [h])
  {
    hide LawfulMove;
  }

  /** An upgrade cut off anywhere leaves a host another one can start from. */
  lemma EveryStateRestarts(plan: UpgradePlan, path: seq<Host>, i: nat)
    requires LawfulPath(plan, path) && i < |path| && Truthful(path[0])
    ensures Truthful(path[i])
  {
    if i > 0 {
      assert LawfulMove(plan, path[i - 1], path[i]);
    }
  }

  // ----- what the local flags tell about the host -----

  datatype Flags = Flags(
    transitionStarted: bool,
    migrationAttempted: bool,
    schemaMigrated: bool,
    compatibilityPersisted: bool,
    compatibilityPersistenceAttempted: bool,
    targetActivated: bool,
    targetSafetyStarted: bool,
    recovering: bool)           // the handler has been entered

  /** The flags as the try is entered. */
  function InitialFlags(plan: UpgradePlan, h0: Host): Flags {
    Flags(false, false, h0.revision == plan.target.revision, false, false, h0.symlink == plan.target, false, false)
  }

  /** The relation between the host before the transition, the host now, and the flags. */
  predicate Told(plan: UpgradePlan, h0: Host, h: Host, f: Flags) {
    && h.EntryHeld() && h.ownerApi == h0.ownerApi && Truthful(h)
    && h.installed == h0.installed && plan.target in h.installed && h0.symlink in h.installed
    // the schema
    && (h.revision == h0.revision || (f.migrationAttempted && h.revision == plan.target.revision))
    && (f.schemaMigrated ==> h.revision == plan.target.revision)
    && (h0.revision == plan.sourceRevision || (h0.revision == plan.target.revision && f.schemaMigrated && !f.migrationAttempted))
    && (f.migrationAttempted && !f.schemaMigrated ==> h.running == map[])
    // the fact
    && (f.compatibilityPersisted ==> h.Holds(plan.fact) && f.compatibilityPersistenceAttempted)
    && (f.compatibilityPersistenceAttempted ==> f.schemaMigrated)
    && (!f.compatibilityPersistenceAttempted ==> h.facts == h0.facts)
    && (!f.compatibilityPersistenceAttempted && f.schemaMigrated ==> h.running.Keys <= h0.running.Keys)
    && (f.compatibilityPersistenceAttempted && !f.compatibilityPersisted && !f.recovering ==> h.running == map[])
    // the symlink, the environment and the unit files
    && (h.symlink == h0.symlink || (h.symlink == plan.target && f.compatibilityPersisted))
    && (!f.compatibilityPersisted ==> h.environment == h0.environment && h.units == h0.units)
    && (if h0.symlink == plan.target then h0.revision == plan.target.revision && h.Holds(plan.fact)
        else h0.symlink.revision == plan.sourceRevision && (h0.symlink, SchemaRevision) in h.markers
             && h.markers[(h0.symlink, SchemaRevision)] == plan.sourceRevision)
  }

  // ----- what a refusal is grounded in -----

  /** What the certification of the source is asked for. */
  predicate SourceCertified(plan: UpgradePlan, c: Certification, flat: bool) {
    && c.pass && flat && c.revision == plan.sourceRevision && c.identity.revision == plan.sourceRevision
    && IsSeedIdentity(c.identity.seed) && IsSeedIdentity(c.digest)
  }

  /** The certification shows the universe the baseline preserved. */
  predicate KeepsUniverse(c: Certification, baseline: Baseline) {
    c.preserved.Some? && c.preserved.value.universeDigest == baseline.preserved.universeDigest
  }

  /** The baseline beside the target describes exactly this step. */
  predicate BaselineOfStep(plan: UpgradePlan, h: Host) {
    && plan.target in h.baselines
    && var baseline := h.baselines[plan.target];
       && baseline.sourceCommit == plan.fact.fromCommit && baseline.targetCommit == plan.target.commit
       && baseline.sourceRevision == plan.sourceRevision && IsSeedIdentity(baseline.preservationDigest)
  }

  /** What the marker of the source release must say. */
  function SourceMarker(plan: UpgradePlan, h: Host, marker: Marker): string {
    match marker
    case RuntimeCommit => plan.fact.fromCommit
    case SchemaRevision => plan.sourceRevision
    case SeedIdentity => h.identity.seed
  }

  /** What every refusal says of the host it was made on: no deployment is refused without it. */
  predicate Grounded(plan: UpgradePlan, h0: Host, h: Host, seen: seq<Sight>, answers: seq<Answer>, refusal: Refusal) {
    match refusal
    case EntryNotHeld => !h.EntryHeld()
    case SchemaRefused(answer) =>
      Inspected(answer) in answers && answer != Some(plan.sourceRevision) && answer != Some(plan.target.revision)
    case SourceNotCertified(c, flat) => Certified(h, c) in seen && Probed(h, flat) in seen && !SourceCertified(plan, c, flat)
    case SourceCommitDiffers => h.identity.commit != plan.fact.fromCommit
    case MarkerDiffers(release, marker, expected) =>
      && (release, marker) in h.markers && h.markers[(release, marker)] != expected
      && (|| (release == h0.symlink && expected == SourceMarker(plan, h, marker))
          || (release == plan.target && expected == MarkerOf(plan.target, marker, h.identity.seed)))
    case FactDiffers => !h.Holds(plan.fact)
    case FactMissing => plan.fact.id !in h.facts && h.symlink == plan.target
    case SeedInvalid(seed) =>
      && !IsSeedIdentity(seed)
      && (|| seed == h.identity.seed
          || ((h.symlink, SeedIdentity) in h.markers && seed == h.markers[(h.symlink, SeedIdentity)]))
    case WritersNotStopped => !(h.Quiescent() && h.fenced && !h.entryEnabled)
    case SourceIdentityChanged => h.identity != h0.identity
    case PreservedMissing(c) => Certified(h, c) in seen && c.preserved.None?
    case PreservationDiffers(c) =>
      && Certified(h, c) in seen && plan.target in h.baselines
      && !(c.pass && c.revision == plan.target.revision && c.digest == h.baselines[plan.target].preservationDigest)
    case RecoveryNotCertified(c) => Certified(h, c) in seen && !(c.pass && c.revision == plan.target.revision)
    case CurrentDiffers(release) => (release == plan.target || release == h0.symlink) && h.symlink != release
    case NotCertified(c, flat) => Certified(h, c) in seen && Probed(h, flat) in seen && !(c.pass && flat)
    case IdentityDiffers(wanted) =>
      h.identity != wanted && wanted == Identity(plan.target.commit, plan.target.revision, h.identity.seed)
    case BaselineDiffers(_) => plan.target in h.baselines && !BaselineOfStep(plan, h)
    case UniverseDiffers(c) =>
      Certified(h, c) in seen && plan.target in h.baselines && !KeepsUniverse(c, h.baselines[plan.target])
    case ServicesDiffer => !(h.running.Keys == SAFETY_SERVICES && !h.entryRunning)
    case _ => false
  }

  lemma GroundedInWriters(plan: UpgradePlan, h0: Host, h: Host, seen: seq<Sight>, answers: seq<Answer>)
    requires !(h.Quiescent() && h.fenced && !h.entryEnabled)
    ensures Grounded(plan, h0, h, seen, answers, WritersNotStopped)
  {
  }

  // ----- how each effect keeps what is told -----

  lemma FenceKeeps(plan: UpgradePlan, h0: Host, h: Host, h': Host, f: Flags)
    requires Told(plan, h0, h, f) && FencedSome(h, h')
    ensures Told(plan, h0, h', f) && LawfulMove(plan, h, h') && h' == h
  {
  }

  lemma StopKeeps(plan: UpgradePlan, h0: Host, h: Host, h': Host, f: Flags)
    requires Told(plan, h0, h, f) && StoppedSome(h, h', SAFETY_SERVICES)
    ensures Told(plan, h0, h', f) && LawfulMove(plan, h, h')
  {
  }

  lemma RecordKeeps(plan: UpgradePlan, h0: Host, h: Host, h': Host, f: Flags)
    requires Told(plan, h0, h, f) && h' == h.(baselines := h'.baselines)
    ensures Told(plan, h0, h', f) && LawfulMove(plan, h, h')
  {
  }

  lemma MigrateKeeps(plan: UpgradePlan, h0: Host, h: Host, h': Host, f: Flags)
    requires plan.Valid() && Told(plan, h0, h, f) && f.migrationAttempted && h.Quiescent()
    requires h' == h || h' == h.(revision := plan.target.revision)
    ensures Told(plan, h0, h', f) && LawfulMove(plan, h, h')
  {
  }

  lemma PersistKeeps(plan: UpgradePlan, h0: Host, h: Host, h': Host, f: Flags)
    requires Told(plan, h0, h, f) && f.compatibilityPersistenceAttempted
    requires h' == h || h' == h.(facts := h.facts[plan.fact.id := plan.fact])
    ensures Told(plan, h0, h', f) && LawfulMove(plan, h, h')
  {
  }

  lemma RotateKeeps(plan: UpgradePlan, h0: Host, h: Host, h': Host, f: Flags)
    requires Told(plan, h0, h, f) && h' == h.(identity := h'.identity)
    ensures Told(plan, h0, h', f) && LawfulMove(plan, h, h')
  {
  }

  lemma ActivateKeeps(plan: UpgradePlan, h0: Host, h: Host, seed: string, n: nat, f: Flags)
    requires plan.Valid() && Told(plan, h0, h, f) && f.schemaMigrated && f.compatibilityPersisted && h.running == map[]
    ensures Told(plan, h0, Activating(h, plan.target, seed, n), f)
    ensures LawfulMove(plan, h, Activating(h, plan.target, seed, n))
  {
  }

  /** Services may be started from the source on the source schema, or from the target with everything in place. */
  lemma StartKeeps(plan: UpgradePlan, h0: Host, h: Host, h': Host, f: Flags)
    requires plan.Valid() && Told(plan, h0, h, f) && StartedSome(h, h', SAFETY_SERVICES)
    requires || (!f.migrationAttempted && !f.schemaMigrated)
             || (f.schemaMigrated && f.compatibilityPersisted && h.symlink == plan.target)
    ensures Told(plan, h0, h', f) && LawfulMove(plan, h, h')
  {
  }

  // ----- how each flag is earned -----

  lemma AttemptMigration(plan: UpgradePlan, h0: Host, h: Host, f: Flags)
    requires plan.Valid() && Told(plan, h0, h, f) && h.running == map[] && h0.revision == plan.sourceRevision
    ensures Told(plan, h0, h, f.(migrationAttempted := true))
  {
  }

  lemma ConfirmMigration(plan: UpgradePlan, h0: Host, h: Host, f: Flags)
    requires plan.Valid() && Told(plan, h0, h, f) && h.revision == plan.target.revision && h.running == map[]
    ensures Told(plan, h0, h, f.(schemaMigrated := true))
  {
  }

  lemma AttemptPersistence(plan: UpgradePlan, h0: Host, h: Host, f: Flags)
    requires Told(plan, h0, h, f) && f.schemaMigrated && (h.running == map[] || f.recovering)
    ensures Told(plan, h0, h, f.(compatibilityPersistenceAttempted := true))
  {
  }

  lemma ConfirmPersistence(plan: UpgradePlan, h0: Host, h: Host, f: Flags)
    requires Told(plan, h0, h, f) && f.compatibilityPersistenceAttempted && h.Holds(plan.fact)
    ensures Told(plan, h0, h, f.(compatibilityPersisted := true))
  {
  }

  /** Flags nothing is told by. */
  lemma Untold(plan: UpgradePlan, h0: Host, h: Host, f: Flags, f': Flags)
    requires Told(plan, h0, h, f)
    requires f' == f.(transitionStarted := f'.transitionStarted, targetActivated := f'.targetActivated,
                      targetSafetyStarted := f'.targetSafetyStarted, recovering := f'.recovering)
    requires f.recovering ==> f'.recovering
    ensures Told(plan, h0, h, f')
  {
  }

  // ----- the handler -----

  /** The host a handler without faults makes of the host and the flags at the failure; `certified` is the
      verdict of its own recovery certification, if it comes to one. */
  function Handled(plan: UpgradePlan, h: Host, f: Flags, seed: string, certified: bool): Host {
    if !f.migrationAttempted && !f.schemaMigrated then h.Started(SAFETY_SERVICES)
    else if !f.schemaMigrated then h
    else if f.compatibilityPersisted then TargetStarted(plan, h, seed)
    else if f.compatibilityPersistenceAttempted || !certified then h
    else
      var stored := Stored(plan, h);
      if stored.Holds(plan.fact) then TargetStarted(plan, stored, seed) else stored
  }

  /** The handler does not look at whether it is at work. */
  lemma HandledAnyway(plan: UpgradePlan, h: Host, f: Flags, seed: string)
    ensures forall certified ::
              Handled(plan, h, f.(recovering := true), seed, certified) == Handled(plan, h, f, seed, certified)
  {
  }

  /** The fact stored, unless its id is taken. */
  function Stored(plan: UpgradePlan, h: Host): Host {
    if plan.fact.id in h.facts then h else h.(facts := h.facts[plan.fact.id := plan.fact])
  }

  /** The symlink at the target and its services started. */
  function TargetStarted(plan: UpgradePlan, h: Host, seed: string): Host {
    var active := if h.symlink == plan.target then h else Activated(h, plan.target, seed);
    active.Started(SAFETY_SERVICES)
  }

  // ----- the exits -----

  /** The source release, on the source schema, with nothing of the target stored by this transition. */
  predicate SourceRunning(plan: UpgradePlan, h0: Host, h: Host) {
    && h.symlink == h0.symlink && h.revision == h0.revision == plan.sourceRevision
    && h.facts == h0.facts
    && h.AllRunning(h.symlink) && h.Equipped()
  }

  /** The target release, on the migrated schema, with the exact fact stored. */
  predicate TargetRunning(plan: UpgradePlan, h: Host) {
    && h.symlink == plan.target && h.revision == plan.target.revision && h.Holds(plan.fact)
    && h.AllRunning(plan.target) && h.Equipped()
  }

  predicate NothingRunning(h: Host) {
    h.running == map[]
  }

  /** The three exits the design names. */
  predicate DesignedExit(plan: UpgradePlan, h0: Host, h: Host) {
    SourceRunning(plan, h0, h) || TargetRunning(plan, h) || NothingRunning(h)
  }

  /** A failure of the try, after the fence call returned. */
  predicate FailedWith(plan: UpgradePlan, h0: Host, h: Host, f: Flags) {
    plan.Valid() && Told(plan, h0, h, f) && f.transitionStarted && !f.recovering
  }

  lemma SourceStarted(plan: UpgradePlan, h0: Host, h: Host, f: Flags)
    requires plan.Valid() && Told(plan, h0, h, f) && !f.migrationAttempted && !f.schemaMigrated
    ensures SourceRunning(plan, h0, h.Started(SAFETY_SERVICES))
    ensures (h0.symlink, SchemaRevision) in h.markers && h.markers[(h0.symlink, SchemaRevision)] == plan.sourceRevision
    ensures h.symlink == h0.symlink
  {
    AreSafety(h.running.Keys);
  }

  /** With the database at the target and the symlink elsewhere nothing can be running. */
  lemma NotYetActivated(plan: UpgradePlan, h0: Host, h: Host, f: Flags)
    requires plan.Valid() && Told(plan, h0, h, f) && f.schemaMigrated
    ensures h.symlink == plan.target || h.running == map[]
  {
  }

  lemma TargetIsStarted(plan: UpgradePlan, h0: Host, h: Host, f: Flags, seed: string)
    requires plan.Valid() && Told(plan, h0, h, f) && f.schemaMigrated && h.Holds(plan.fact)
    ensures TargetRunning(plan, TargetStarted(plan, h, seed))
  {
    NotYetActivated(plan, h0, h, f);
    AreSafety(h.running.Keys);
  }

  /** Exactly what the handler leaves, by the flags at the failure and the verdict of its certification. */
  lemma HandledByFlags(plan: UpgradePlan, h0: Host, h: Host, f: Flags, seed: string, certified: bool)
    requires FailedWith(plan, h0, h, f)
    ensures
      var end := Handled(plan, h, f, seed, certified);
      && end.identity == h.identity && end.EntryHeld()
      && (!f.migrationAttempted && !f.schemaMigrated ==> SourceRunning(plan, h0, end))
      && (f.migrationAttempted && !f.schemaMigrated ==> NothingRunning(end) && end == h)
      && (f.compatibilityPersisted ==> TargetRunning(plan, end))
      && (f.compatibilityPersistenceAttempted && !f.compatibilityPersisted ==> NothingRunning(end) && end == h)
      && (f.schemaMigrated && !f.compatibilityPersistenceAttempted ==>
            if !certified then end == h && end.running.Keys <= h0.running.Keys
            else if Stored(plan, h).Holds(plan.fact) then TargetRunning(plan, end)
            else NothingRunning(end) && end == h)
  {
    hide TargetRunning, SourceRunning, Stored, TargetStarted, Host.Started;
    if !f.migrationAttempted && !f.schemaMigrated {
      SourceStarted(plan, h0, h, f);
    } else if f.compatibilityPersisted {
      TargetIsStarted(plan, h0, h, f, seed);
      HandlerKeeps(plan, h, seed);
    } else if f.schemaMigrated && !f.compatibilityPersistenceAttempted && certified {
      NotYetActivated(plan, h0, h, f);
      HandlerKeeps(plan, Stored(plan, h), seed);
      StoredTold(plan, h0, h, f);
      if Stored(plan, h).Holds(plan.fact) {
        TargetIsStarted(plan, h0, Stored(plan, h), f.(compatibilityPersistenceAttempted := true, recovering := true), seed);
      }
    }
    HandlerKeeps(plan, h, seed);
  }

  /** The handler leaves the identity row and ENTRY alone. */
  lemma HandlerKeeps(plan: UpgradePlan, h: Host, seed: string)
    ensures h.Started(SAFETY_SERVICES).identity == TargetStarted(plan, h, seed).identity == Stored(plan, h).identity == h.identity
    ensures h.EntryHeld() ==>
              h.Started(SAFETY_SERVICES).EntryHeld() && TargetStarted(plan, h, seed).EntryHeld() && Stored(plan, h).EntryHeld()
  {
  }

  lemma StoredTold(plan: UpgradePlan, h0: Host, h: Host, f: Flags)
    requires plan.Valid() && Told(plan, h0, h, f) && f.schemaMigrated
    ensures Told(plan, h0, Stored(plan, h), f.(compatibilityPersistenceAttempted := true, recovering := true))
    ensures !Stored(plan, h).Holds(plan.fact) ==> Stored(plan, h) == h && h.symlink != plan.target
  {
  }

  /** With another release current, or nothing running, at the start, every failure a faultless handler meets
      ends in one of the three designed exits. */
  lemma DesignedExits(plan: UpgradePlan, h0: Host, h: Host, f: Flags, seed: string, certified: bool)
    requires FailedWith(plan, h0, h, f)
    requires h0.symlink != plan.target || h0.running == map[]
    ensures DesignedExit(plan, h0, Handled(plan, h, f, seed, certified))
  {
    HandledByFlags(plan, h0, h, f, seed, certified);
    if f.schemaMigrated {
      NotYetActivated(plan, h0, h, f);
    }
    hide Handled;
    assert h0.running == map[] && h.running.Keys <= h0.running.Keys ==> h.running == map[];
  }

  /** After such a handler the identity row is the target's exactly if an identity rotation took effect before the
      failure, or the row was the target's all along: running the target does not make it so. */
  lemma IdentityExactly(plan: UpgradePlan, h0: Host, h: Host, f: Flags, seed: string, certified: bool, rotated: bool)
    requires FailedWith(plan, h0, h, f)
    requires if rotated then h.identity.commit == plan.target.commit else h.identity == h0.identity
    ensures Handled(plan, h, f, seed, certified).identity.commit == plan.target.commit
            <==> rotated || h0.identity.commit == plan.target.commit
  {
    HandledByFlags(plan, h0, h, f, seed, certified);
  }
}
