/** `_deploy_compatible_upgrade`: a schema upgrade with recovery, under a fault at any call. */
module CompatibleUpgrade {
  import opened Wrappers
  import opened TokyoHost
  import opened DeploymentGates
  import opened UpgradeState
  import opened UpgradeGates
  import opened UpgradeRecord

  // ----- the upgrade -----

  /** The upgrade once its plan, its current release and its flags are settled. */
  class Upgrade {
    const b: TokyoReleaseBackend
    const plan: UpgradePlan
    ghost const h0: Host
    ghost const origin: seq<Host>        // the states, the effects and the answers before the try
    ghost const before: seq<Effect>
    ghost const asked: seq<Answer>
    const current: Release
    const databaseRevision: string
    const sourceIdentity: Option<Identity>
    ghost const seed0: string            // the seed it would recover with at first
    var recoverySeed: string
    var f: Flags
    var failure: Option<Exn>             // the exception the try was left with
    ghost var rotated: bool              // an identity rotation took effect
    ghost var tried: seq<Effect>         // the effects and the answers since the try began
    ghost var heard: seq<Answer>

    ghost predicate Valid()
      reads this`f, this`rotated, b`host, b`path
    {
      && plan.Valid() && b.Valid()
      && current == h0.symlink && databaseRevision == h0.revision
      && (databaseRevision == plan.sourceRevision ==> sourceIdentity == Some(h0.identity))
      && Told(plan, h0, b.host, f) && LawfulPath(plan, b.path) && origin <= b.path
      && if rotated then b.host.identity.commit == plan.target.commit else b.host.identity == h0.identity
    }

    /** What was tried is on the backend's record; until the handler is entered it follows the script, and the flags
        are what it and the confirming readings say. The seed to recover with is the rotated one, once a rotation has
        returned a valid one. */
    ghost predicate Credited()
      reads this`f, this`tried, this`heard, this`recoverySeed, b`host, b`effects, b`answers
    {
      && b.effects == before + tried && b.answers == asked + heard
      && recoverySeed == SeedAfter(plan, seed0, b.host, tried)
      && (!f.recovering ==> OnRecord(plan, h0, f, tried, heard))
    }

    /** The first n effects of the script are done; or the handler is at work. */
    ghost predicate Done(n: nat)
      reads this`f, this`tried
    {
      f.recovering || (|tried| == n && Clean(tried))
    }

    /** The place of an operation in the script, counted from the storing of the fact. */
    ghost function FromFact(k: nat): nat {
      BeforeFact(plan, h0) + k
    }

    constructor (b: TokyoReleaseBackend, plan: UpgradePlan, databaseRevision: string, current: Release,
                 sourceIdentity: Option<Identity>, recoverySeed: string)
      ensures this.b == b && this.plan == plan && h0 == b.host && origin == b.path && this.current == current
      ensures this.databaseRevision == databaseRevision && this.sourceIdentity == sourceIdentity
      ensures before == b.effects && asked == b.answers && tried == [] && heard == []
      ensures this.recoverySeed == recoverySeed == seed0
      ensures f == Flags(false, false, databaseRevision == plan.target.revision, false, false, current == plan.target, false, false)
      ensures !rotated && failure.None?
    {
      this.b, this.plan, this.h0, this.origin := b, plan, b.host, b.path;
      this.databaseRevision, this.current := databaseRevision, current;
      this.sourceIdentity, this.recoverySeed, this.seed0 := sourceIdentity, recoverySeed, recoverySeed;
      before, asked, tried, heard := b.effects, b.answers, [], [];
      f := Flags(false, false, databaseRevision == plan.target.revision, false, false, current == plan.target, false, false);
      failure, rotated := None, false;
    }

    // ----- the effects -----

    /** The next effect of the script is the given one; the handler follows no script. */
    ghost predicate Turn(op: Operation)
      reads this`f, this`tried
    {
      f.recovering || Due(plan, h0, tried, op)
    }

    /** One effect more was tried, and the backend knows it. */
    twostate predicate Tried(new e: Effect)
      reads this, b
    {
      && tried == old(tried) + [e] && b.effects == old(b.effects) + [e]
      && heard == old(heard) && b.answers == old(b.answers)
      && f.recovering == old(f).recovering && (!f.recovering ==> f == CreditedBy(old(f), e))
    }

    twostate lemma Credits(new e: Effect)
      requires old(Credited()) && old(Turn(e.op)) && Tried(e) && plan.Valid()
      requires e.op.Migrate? || e.op.Persist? ==> e.returned
      requires !e.op.Rotate? && b.host.identity == old(b.host.identity) && recoverySeed == old(recoverySeed)
      ensures Credited() && (e.returned ==> f.recovering || Clean(tried))
    {
      if !f.recovering {
        TryKeeps(plan, h0, old(f), old(tried), heard, e);
      }
      hide OnRecord;
      assert before + (old(tried) + [e]) == (before + old(tried)) + [e];
      SeedStays(old(tried), e);
    }

    lemma SeedStays(effects: seq<Effect>, e: Effect)
      requires !e.op.Rotate?
      ensures SeedAfter(plan, seed0, b.host, effects + [e]) == SeedAfter(plan, seed0, b.host, effects)
    {
      BesidesAlike(effects, e, Rotate(plan.target.commit, plan.target.revision));
    }

    /** A rotation, after which the seed to recover with is the new one, if it is valid. */
    twostate lemma CreditsRotation(new e: Effect)
      requires old(Credited()) && old(Turn(e.op)) && Tried(e) && plan.Valid() && !f.recovering
      requires e.op == Rotate(plan.target.commit, plan.target.revision)
      requires recoverySeed == if e.returned && IsSeedIdentity(b.host.identity.seed) then b.host.identity.seed else old(recoverySeed)
      ensures Credited() && (e.returned ==> Clean(tried))
    {
      TryKeeps(plan, h0, old(f), old(tried), heard, e);
      Untried(plan, h0, old(tried), e.op);
      Besides(old(tried), e);
      hide OnRecord, IsSeedIdentity;
      assert before + (old(tried) + [e]) == (before + old(tried)) + [e];
    }

    /** An effect that raised and was inspected, or read back. */
    twostate predicate TriedAndAsked(new e: Effect, new answer: Answer)
      reads this, b
    {
      && tried == old(tried) + [e] && b.effects == old(b.effects) + [e]
      && heard == old(heard) + [answer] && b.answers == old(b.answers) + [answer]
      && b.host.identity == old(b.host.identity) && recoverySeed == old(recoverySeed)
      && f.recovering == old(f).recovering
    }

    twostate lemma CreditsMigrationRaised(new answer: Answer)
      requires old(Credited()) && old(Turn(Migrate(plan.target.revision))) && plan.Valid() && !f.recovering
      requires TriedAndAsked(Effect(Migrate(plan.target.revision), false), answer)
      requires |old(tried)| == 3
      requires answer.Inspected? || answer.InspectionRaised?
      requires f == if answer == Inspected(Some(plan.target.revision)) then old(f).(migrationAttempted := true, schemaMigrated := true)
                    else old(f).(migrationAttempted := true)
      ensures Credited()
    {
      var e := Effect(Migrate(plan.target.revision), false);
      MigrationRaised(plan, h0, old(f), old(tried), old(heard), answer);
      hide OnRecord;
      assert before + (old(tried) + [e]) == (before + old(tried)) + [e];
      assert asked + (old(heard) + [answer]) == (asked + old(heard)) + [answer];
      SeedStays(old(tried), e);
    }

    twostate lemma CreditsStoringRaised(new answer: Answer)
      requires old(Credited()) && old(Turn(Persist(plan.fact))) && plan.Valid()
      requires TriedAndAsked(Effect(Persist(plan.fact), false), answer)
      requires (answer.FactRead? || answer.FactReadRaised?) && answer.id == plan.fact.id
      requires !f.recovering ==>
                 f == if answer == FactRead(plan.fact.id, Some(plan.fact))
                      then old(f).(compatibilityPersistenceAttempted := true, compatibilityPersisted := true)
                      else old(f).(compatibilityPersistenceAttempted := true)
      ensures Credited() && (f.recovering || Clean(tried))
    {
      var e := Effect(Persist(plan.fact), false);
      if !f.recovering {
        StoringRaised(plan, h0, old(f), old(tried), old(heard), answer);
      }
      hide OnRecord;
      assert before + (old(tried) + [e]) == (before + old(tried)) + [e];
      assert asked + (old(heard) + [answer]) == (asked + old(heard)) + [answer];
      SeedStays(old(tried), e);
    }

    lemma PlanIsValid()
      requires Valid()
      ensures plan.Valid()
    {
    }

    /** What comes next once n effects are done. */
    lemma Comes(n: nat)
      requires Done(n) && n < |Script(plan, h0)|
      ensures Turn(Script(plan, h0)[n])
    {
    }

    method CallFence() returns (r: Result<(), Exn>)
      requires Valid()
      modifies b`host, b`calls, b`effects, b`path
      ensures Valid() && Made(old(b.calls), b.calls, r) && b.host == old(b.host)
      ensures b.effects == old(b.effects) + [Effect(Operation.Fence, r.Ok?)]
      ensures r.Err? ==> !b.steady && r.error.reason.CallFailed?
    {
      hide Told, LawfulMove, LawfulPath;
      r := b.FenceEntry();
      FenceKeeps(plan, h0, old(b.host), b.host, f);
      PathGrows(plan, old(b.path), b.host);
    }

    /** The fence; before the handler, the transition has started once it returns. */
    method Fence() returns (r: Result<(), Exn>)
      requires Valid() && Credited() && Turn(Operation.Fence) && (f.recovering ==> f.transitionStarted)
      modifies this`f, this`tried, b`host, b`calls, b`effects, b`path
      ensures old(b.effects) <= b.effects
      ensures Valid() && Credited() && Made(old(b.calls), b.calls, r) && b.host == old(b.host)
      ensures f == if r.Ok? then old(f).(transitionStarted := true) else old(f)
      ensures tried == old(tried) + [Effect(Operation.Fence, r.Ok?)] && (r.Ok? ==> f.recovering || Clean(tried))
      ensures r.Err? ==> !b.steady && r.error.reason.CallFailed?
    {
      hide Valid, Credited, Turn, Clean;
      r := CallFence();
      tried := tried + [Effect(Operation.Fence, r.Ok?)];
      if r.Ok? {
        NoteTransition();
      }
      PlanIsValid();
      Credits(Effect(Operation.Fence, r.Ok?));
    }

    method CallStop() returns (r: Result<(), Exn>)
      requires Valid()
      modifies b`host, b`calls, b`effects, b`path
      ensures Valid() && Made(old(b.calls), b.calls, r) && StoppedSome(old(b.host), b.host, SAFETY_SERVICES)
      ensures b.effects == old(b.effects) + [Effect(Operation.Stop(SAFETY_SERVICES, false), r.Ok?)]
      ensures r.Err? ==> r.error.reason.CallFailed?
    {
      hide Told, LawfulMove, LawfulPath;
      r := b.StopServices(SAFETY_SERVICES, false);
      assert old(b.host).(entryRunning := b.host.entryRunning) == old(b.host);
      StopKeeps(plan, h0, old(b.host), b.host, f);
      PathGrows(plan, old(b.path), b.host);
    }

    method Stop() returns (r: Result<(), Exn>)
      requires Valid() && Credited() && Turn(Operation.Stop(SAFETY_SERVICES, false))
      modifies this`tried, b`host, b`calls, b`effects, b`path
      ensures Valid() && Credited() && Made(old(b.calls), b.calls, r) && StoppedSome(old(b.host), b.host, SAFETY_SERVICES)
      ensures |tried| == |old(tried)| + 1 && (r.Ok? ==> f.recovering || Clean(tried))
      ensures r.Err? ==> r.error.reason.CallFailed?
    {
      hide Valid, Credited, Turn, Clean, SAFETY_SERVICES;
      r := CallStop();
      ghost var e := Effect(Operation.Stop(SAFETY_SERVICES, false), r.Ok?);
      tried := tried + [e];
      PlanIsValid();
      Credits(e);
    }

    method CallRecord(baseline: Baseline) returns (r: Result<(), Exn>)
      requires Valid()
      modifies b`host, b`calls, b`effects, b`path
      ensures Valid() && Made(old(b.calls), b.calls, r) && b.host == old(b.host).(baselines := b.host.baselines)
      ensures b.effects == old(b.effects) + [Effect(Operation.Record(plan.target), r.Ok?)]
      ensures r.Ok? ==> plan.target in b.host.baselines && b.host.baselines[plan.target] == baseline
      ensures r.Err? ==> r.error.reason.CallFailed?
    {
      hide Told, LawfulMove, LawfulPath;
      r := b.RecordPreservedRuntime(plan.target, baseline);
      RecordKeeps(plan, h0, old(b.host), b.host, f);
      PathGrows(plan, old(b.path), b.host);
    }

    method Record(baseline: Baseline) returns (r: Result<(), Exn>)
      requires Valid() && Credited() && Turn(Operation.Record(plan.target))
      modifies this`tried, b`host, b`calls, b`effects, b`path
      ensures Valid() && Credited() && Made(old(b.calls), b.calls, r)
      ensures b.host == old(b.host).(baselines := b.host.baselines)
      ensures r.Ok? ==> plan.target in b.host.baselines && b.host.baselines[plan.target] == baseline
      ensures |tried| == |old(tried)| + 1 && (r.Ok? ==> f.recovering || Clean(tried))
      ensures r.Err? ==> r.error.reason.CallFailed?
    {
      hide Valid, Credited, Turn, Clean;
      r := CallRecord(baseline);
      ghost var e := Effect(Operation.Record(plan.target), r.Ok?);
      tried := tried + [e];
      PlanIsValid();
      Credits(e);
    }

    method CallMigrate() returns (r: Result<(), Exn>)
      requires Valid() && f.migrationAttempted && b.host.Quiescent()
      modifies b`host, b`calls, b`effects, b`path
      ensures Valid() && Made(old(b.calls), b.calls, r) && b.host == old(b.host).(revision := b.host.revision)
      ensures b.effects == old(b.effects) + [Effect(Operation.Migrate(plan.target.revision), r.Ok?)]
      ensures r.Ok? ==> b.host.revision == plan.target.revision
      ensures r.Err? ==> r.error.reason.CallFailed?
    {
      hide Told, LawfulMove, LawfulPath;
      r := b.MigrateSchema(plan.target.revision);
      MigrateKeeps(plan, h0, old(b.host), b.host, f);
      PathGrows(plan, old(b.path), b.host);
    }

    method CallPersist() returns (r: Result<(), Exn>, ghost e: Effect, ghost answer: Option<Answer>)
      requires Valid() && f.compatibilityPersistenceAttempted
      modifies b`host, b`calls, b`effects, b`answers, b`path
      ensures Valid() && Made(old(b.calls), b.calls, r) && b.host == old(b.host).(facts := b.host.facts)
      ensures r.Ok? ==> b.host.Holds(plan.fact)
      ensures r.Err? ==> r.error.reason.CallFailed?
      ensures b.steady ==> b.host == Stored(plan, old(b.host)) && (r.Ok? <==> b.host.Holds(plan.fact))
      ensures e.op == Operation.Persist(plan.fact) && b.effects == old(b.effects) + [e]
      ensures e.returned <==> answer.None?
      ensures answer.None? ==> r.Ok? && b.answers == old(b.answers)
      ensures answer.Some? ==>
                && b.answers == old(b.answers) + [answer.value]
                && (answer.value.FactRead? || answer.value.FactReadRaised?) && answer.value.id == plan.fact.id
                && (r.Ok? <==> answer.value == FactRead(plan.fact.id, Some(plan.fact)))
    {
      hide Told, LawfulMove, LawfulPath;
      r, e, answer := PersistExact(b, plan);
      PersistKeeps(plan, h0, old(b.host), b.host, f);
      PathGrows(plan, old(b.path), b.host);
    }

    method CallRotate() returns (r: Result<Identity, Exn>)
      requires Valid() && f.compatibilityPersisted
      modifies this`rotated, b`host, b`calls, b`effects, b`path
      ensures Valid() && Made(old(b.calls), b.calls, r) && b.host == old(b.host).(identity := b.host.identity)
      ensures b.effects == old(b.effects) + [Effect(Operation.Rotate(plan.target.commit, plan.target.revision), r.Ok?)]
      ensures old(rotated) ==> rotated
      ensures r.Ok? ==> rotated && r.value == b.host.identity && r.value.commit == plan.target.commit
      ensures r.Err? ==> r.error.reason.CallFailed?
    {
      hide Told, LawfulMove, LawfulPath;
      ghost var tookEffect;
      r, tookEffect := b.DeployIdentity(plan.target.commit, plan.target.revision);
      rotated := rotated || tookEffect;
      RotateKeeps(plan, h0, old(b.host), b.host, f);
      PathGrows(plan, old(b.path), b.host);
    }

    /** The rotation, and the seed it returns: from then on the one to recover with. */
    method RotateIdentity() returns (r: Result<string, Exn>)
      requires Valid() && Credited() && !f.recovering && f.compatibilityPersisted
      requires Turn(Operation.Rotate(plan.target.commit, plan.target.revision))
      modifies this`recoverySeed, this`rotated, this`tried, b`host, b`calls, b`effects, b`path
      ensures Valid() && Credited() && Made(old(b.calls), b.calls, r)
      ensures r.Err? ==> Justified(plan, h0, b, r.error)
      ensures b.host == old(b.host).(identity := b.host.identity)
      ensures old(rotated) ==> rotated
      ensures |tried| == |old(tried)| + 1 && (r.Ok? ==> Clean(tried))
      ensures r.Ok? ==> rotated && b.host.identity.commit == plan.target.commit && b.host.identity.seed == r.value
    {
      hide Valid, Credited, Turn, Clean, IsSeedIdentity;
      var identity := CallRotate();
      ghost var e := Effect(Operation.Rotate(plan.target.commit, plan.target.revision), identity.Ok?);
      tried := tried + [e];
      PlanIsValid();
      if identity.Err? {
        r := Err(identity.error);
      } else if !IsSeedIdentity(identity.value.seed) {
        r := Err(Exn(Blocked(SeedInvalid(identity.value.seed)), |b.calls|));
      } else {
        recoverySeed := identity.value.seed;
        r := Ok(identity.value.seed);
      }
      CreditsRotation(e);
    }

    method CallActivate(seed: string) returns (r: Result<(), Exn>)
      requires Valid() && f.schemaMigrated && f.compatibilityPersisted && b.host.running == map[]
      modifies b`host, b`calls, b`effects, b`path
      ensures Valid() && Made(old(b.calls), b.calls, r)
      ensures b.host == old(b.host).(markers := b.host.markers, environment := b.host.environment,
                                     units := b.host.units, symlink := b.host.symlink)
      ensures b.effects == old(b.effects) + [Effect(Operation.Activate(plan.target), r.Ok?)]
      ensures r.Ok? ==> b.host == Activated(old(b.host), plan.target, seed) && b.host.symlink == plan.target
      ensures r.Err? ==> !b.steady && r.error.reason.CallFailed?
    {
      hide Told, LawfulMove, LawfulPath;
      ghost var writes;
      r, writes := b.ActivateRelease(plan.target, seed);
      ActivateKeeps(plan, h0, old(b.host), seed, writes, f);
      PathGrows(plan, old(b.path), b.host);
    }

    method Activate(seed: string) returns (r: Result<(), Exn>)
      requires Valid() && Credited() && Turn(Operation.Activate(plan.target))
      requires f.schemaMigrated && f.compatibilityPersisted && b.host.running == map[]
      modifies this`f, this`tried, b`host, b`calls, b`effects, b`path
      ensures old(b.effects) <= b.effects
      ensures Valid() && Credited() && Made(old(b.calls), b.calls, r)
      ensures f == if r.Ok? then old(f).(targetActivated := true) else old(f)
      ensures b.host == old(b.host).(markers := b.host.markers, environment := b.host.environment,
                                     units := b.host.units, symlink := b.host.symlink)
      ensures |tried| == |old(tried)| + 1 && (r.Ok? ==> f.recovering || Clean(tried))
      ensures r.Ok? ==> b.host == Activated(old(b.host), plan.target, seed) && b.host.symlink == plan.target
      ensures r.Err? ==> !b.steady && r.error.reason.CallFailed?
    {
      hide Valid, Credited, Turn, Clean, Activated;
      r := CallActivate(seed);
      ghost var e := Effect(Operation.Activate(plan.target), r.Ok?);
      tried := tried + [e];
      if r.Ok? {
        NoteActivated(true);
      }
      PlanIsValid();
      Credits(e);
    }

    method CallStart() returns (r: Result<(), Exn>)
      requires Valid()
      requires || (!f.migrationAttempted && !f.schemaMigrated)
               || (f.schemaMigrated && f.compatibilityPersisted && b.host.symlink == plan.target)
      modifies b`host, b`calls, b`effects, b`path
      ensures Valid() && Made(old(b.calls), b.calls, r) && b.host == old(b.host).(running := b.host.running)
      ensures b.effects == old(b.effects) + [Effect(Operation.Start(SAFETY_SERVICES), r.Ok?)]
      ensures r.Ok? ==> b.host == old(b.host).Started(SAFETY_SERVICES)
      ensures r.Err? ==> !b.steady && r.error.reason.CallFailed?
    {
      hide Told, LawfulMove, LawfulPath;
      r := b.StartServices(SAFETY_SERVICES);
      StartKeeps(plan, h0, old(b.host), b.host, f);
      PathGrows(plan, old(b.path), b.host);
    }

    /** The handler starts the source again. */
    method StartSource() returns (r: Result<(), Exn>)
      requires Valid() && Credited() && f.recovering && !f.migrationAttempted && !f.schemaMigrated
      modifies this`tried, b`host, b`calls, b`effects, b`path
      ensures old(b.effects) <= b.effects
      ensures Valid() && Credited() && Made(old(b.calls), b.calls, r)
      ensures r.Ok? ==> b.host == old(b.host).Started(SAFETY_SERVICES)
      ensures r.Err? ==> !b.steady && r.error.reason.CallFailed?
    {
      hide Valid, Credited, Clean, SAFETY_SERVICES, Host.Started;
      r := CallStart();
      ghost var e := Effect(Operation.Start(SAFETY_SERVICES), r.Ok?);
      tried := tried + [e];
      PlanIsValid();
      Credits(e);
    }

    /** The target's services, for which the flag is set. */
    method StartAsTarget() returns (r: Result<(), Exn>)
      requires Valid() && Credited() && Turn(Operation.Start(SAFETY_SERVICES))
      requires f.schemaMigrated && f.compatibilityPersisted && b.host.symlink == plan.target
      modifies this`f, this`tried, b`host, b`calls, b`effects, b`path
      ensures old(b.effects) <= b.effects
      ensures Valid() && Credited() && Made(old(b.calls), b.calls, r)
      ensures f == if r.Ok? then old(f).(targetSafetyStarted := true) else old(f)
      ensures b.host == old(b.host).(running := b.host.running)
      ensures |tried| == |old(tried)| + 1 && (r.Ok? ==> f.recovering || Clean(tried))
      ensures r.Ok? ==> b.host == old(b.host).Started(SAFETY_SERVICES)
      ensures r.Err? ==> !b.steady && r.error.reason.CallFailed?
    {
      hide Valid, Credited, Turn, Clean, SAFETY_SERVICES, Host.Started;
      r := CallStart();
      ghost var e := Effect(Operation.Start(SAFETY_SERVICES), r.Ok?);
      tried := tried + [e];
      if r.Ok? {
        NoteSafetyStarted();
      }
      PlanIsValid();
      Credits(e);
    }

    // ----- the flags -----

    method NoteTransition()
      requires Valid()
      modifies this`f
      ensures Valid() && f == old(f).(transitionStarted := true)
    {
      Untold(plan, h0, b.host, f, f.(transitionStarted := true));
      f := f.(transitionStarted := true);
    }

    method NoteMigrationAttempted()
      requires Valid() && b.host.running == map[] && databaseRevision == plan.sourceRevision
      modifies this`f
      ensures Valid() && f == old(f).(migrationAttempted := true)
    {
      AttemptMigration(plan, h0, b.host, f);
      f := f.(migrationAttempted := true);
    }

    method NoteMigrated()
      requires Valid() && b.host.revision == plan.target.revision && b.host.running == map[]
      modifies this`f
      ensures Valid() && f == old(f).(schemaMigrated := true)
    {
      ConfirmMigration(plan, h0, b.host, f);
      f := f.(schemaMigrated := true);
    }

    method NotePersistenceAttempted()
      requires Valid() && f.schemaMigrated && (b.host.running == map[] || f.recovering)
      modifies this`f
      ensures Valid() && f == old(f).(compatibilityPersistenceAttempted := true)
    {
      AttemptPersistence(plan, h0, b.host, f);
      f := f.(compatibilityPersistenceAttempted := true);
    }

    method NotePersisted()
      requires Valid() && f.compatibilityPersistenceAttempted && b.host.Holds(plan.fact)
      modifies this`f
      ensures Valid() && f == old(f).(compatibilityPersisted := true)
    {
      ConfirmPersistence(plan, h0, b.host, f);
      f := f.(compatibilityPersisted := true);
    }

    method NoteActivated(activated: bool)
      requires Valid()
      modifies this`f
      ensures Valid() && f == old(f).(targetActivated := activated)
    {
      Untold(plan, h0, b.host, f, f.(targetActivated := activated));
      f := f.(targetActivated := activated);
    }

    method NoteSafetyStarted()
      requires Valid()
      modifies this`f
      ensures Valid() && f == old(f).(targetSafetyStarted := true)
    {
      Untold(plan, h0, b.host, f, f.(targetSafetyStarted := true));
      f := f.(targetSafetyStarted := true);
    }

    method NoteRecovery()
      requires Valid()
      modifies this`f
      ensures Valid() && f == old(f).(recovering := true)
    {
      Untold(plan, h0, b.host, f, f.(recovering := true));
      f := f.(recovering := true);
    }

    /** Started from here, the target is the target running. */
    lemma Settled()
      requires Valid() && f.schemaMigrated && f.compatibilityPersisted && b.host.symlink == plan.target
      ensures TargetRunning(plan, b.host.Started(SAFETY_SERVICES))
      ensures b.host.running.Keys == SAFETY_SERVICES ==> b.host.Started(SAFETY_SERVICES) == b.host
    {
      TargetIsStarted(plan, h0, b.host, f, "");
      if b.host.running.Keys == SAFETY_SERVICES {
        assert b.host.Started(SAFETY_SERVICES).running == b.host.running;
      }
    }


    // ----- the stages of the transition -----

    /** Fence, stop, and confirm that nothing that could write is left. */
    method EnterTransition() returns (r: Result<(), Exn>)
      requires Valid() && Credited() && Done(0) && !f.transitionStarted && !f.recovering && b.host == h0
      modifies this`f, this`tried, b`host, b`calls, b`effects, b`path
      ensures Valid() && Credited() && Made(old(b.calls), b.calls, r)
      ensures r.Err? ==> Justified(plan, h0, b, r.error)
      ensures f == old(f).(transitionStarted := f.transitionStarted)
      ensures !f.transitionStarted ==> r.Err? && b.host == h0
      ensures r.Ok? ==> b.host.Quiescent() && Done(2)
    {
      Comes(0);
      hide Valid, Credited, Turn, Clean, Grounded;
      assert Script(plan, h0)[0] == Operation.Fence;
      var _ :- Fence();
      r := StopWriters();
    }

    method StopWriters() returns (r: Result<(), Exn>)
      requires Valid() && Credited() && Done(1) && !f.recovering
      modifies this`tried, b`host, b`calls, b`effects, b`path
      ensures Valid() && Credited() && Made(old(b.calls), b.calls, r)
      ensures r.Err? ==> Justified(plan, h0, b, r.error)
      ensures r.Ok? ==> b.host.Quiescent() && Done(2)
    {
      Comes(1);
      hide Valid, Credited, Turn, Clean, SAFETY_SERVICES, Grounded;
      var _ :- Stop();
      var stopped :- b.MigrationWritersStoppedAndEntryFenced();
      if !stopped {
        GroundedInWriters(plan, h0, b.host, b.seen, b.answers);
        return Err(Exn(Blocked(WritersNotStopped), |b.calls|));
      }
      return Ok(());
    }

    method CallMigrateNoted() returns (r: Result<(), Exn>)
      requires Valid() && b.host.Quiescent() && databaseRevision == plan.sourceRevision && !f.schemaMigrated
      modifies this`f, b`host, b`calls, b`effects, b`path
      ensures Valid() && Made(old(b.calls), b.calls, r)
      ensures f == if r.Ok? then old(f).(migrationAttempted := true, schemaMigrated := true)
                   else old(f).(migrationAttempted := true)
      ensures b.effects == old(b.effects) + [Effect(Operation.Migrate(plan.target.revision), r.Ok?)]
      ensures b.host == old(b.host).(revision := b.host.revision)
      ensures r.Err? ==> r.error.reason.CallFailed?
    {
      hide Valid;
      NoteMigrationAttempted();
      r := CallMigrate();
      if r.Ok? {
        NoteMigrated();
      }
    }

    /** The inspection after a migration that raised. */
    method InspectRaised() returns (ghost answer: Answer)
      requires Valid() && b.host.running == map[] && !f.schemaMigrated
      modifies this`f, b`calls, b`answers
      ensures Valid() && old(b.calls) <= b.calls
      ensures b.answers == old(b.answers) + [answer] && (answer.Inspected? || answer.InspectionRaised?)
      ensures f == if answer == Inspected(Some(plan.target.revision)) then old(f).(schemaMigrated := true) else old(f)
    {
      hide Valid;
      var inspection := b.InspectSchema();
      answer := if inspection.Ok? then Inspected(inspection.value) else InspectionRaised;
      if inspection.Ok? && inspection.value == Some(plan.target.revision) {
        NoteMigrated();
      }
    }

    /** The migration itself; when it raises, an inspection may still confirm it. */
    method MigrateConfirmed() returns (r: Result<(), Exn>)
      requires Valid() && Credited() && Done(3) && !f.recovering
      requires b.host.Quiescent() && databaseRevision == plan.sourceRevision && !f.schemaMigrated
      modifies this`f, this`tried, this`heard, b`host, b`calls, b`effects, b`answers, b`path
      ensures Valid() && Credited() && Made(old(b.calls), b.calls, r)
      ensures r.Err? ==> Justified(plan, h0, b, r.error)
      ensures f == old(f).(migrationAttempted := true) || f == old(f).(migrationAttempted := true, schemaMigrated := true)
      ensures b.host == old(b.host).(revision := b.host.revision)
      ensures r.Ok? ==> f.schemaMigrated && Done(4)
    {
      MigrationComes();
      hide Valid, Credited, Turn, Clean, Grounded;
      PlanIsValid();
      r := CallMigrateNoted();
      ghost var e := Effect(Operation.Migrate(plan.target.revision), r.Ok?);
      tried := tried + [e];
      if r.Ok? {
        Credits(e);
      } else {
        ghost var answer := InspectRaised();
        heard := heard + [answer];
        CreditsMigrationRaised(answer);
      }
    }

    lemma MigrationComes()
      requires Valid() && Done(3) && !f.recovering && databaseRevision == plan.sourceRevision
      ensures Turn(Operation.Migrate(plan.target.revision)) && |tried| == 3
    {
      Comes(3);
    }

    /** Fresh facts of the stopped source, and the baseline they leave behind. */
    method RecordBaseline() returns (r: Result<Baseline, Exn>)
      requires Valid() && Credited() && Done(2) && !f.recovering
      requires b.host.Quiescent() && databaseRevision == plan.sourceRevision
      modifies this`tried, b`host, b`calls, b`effects, b`seen, b`path
      ensures Valid() && Credited() && Made(old(b.calls), b.calls, r) && old(b.seen) <= b.seen
      ensures r.Err? ==> Justified(plan, h0, b, r.error)
      ensures b.host == old(b.host).(baselines := b.host.baselines)
      ensures r.Ok? ==> sourceIdentity == Some(b.host.identity)
      ensures r.Ok? ==> BaselineTaken(plan, b.seen, r.value) && Done(3)
                        && plan.target in b.host.baselines && b.host.baselines[plan.target] == r.value
    {
      RecordComes();
      hide Valid, Credited, Turn, Clean, Checked, Grounded, BaselineTaken;
      var source :- ReadCompatibleSourceFacts(b, plan);
      var baseline :- CompareSource(source);
      var _ :- Record(baseline);
      return Ok(baseline);
    }

    /** The stopped source is the one read before, and shows what is to be preserved. */
    method CompareSource(source: Certification) returns (r: Result<Baseline, Exn>)
      requires Valid() && databaseRevision == plan.sourceRevision && b.host.Quiescent()
      requires Checked(b.seen, b.host, source) && SourceCertified(plan, source, true) && source.identity == b.host.identity
      requires b.calls != [] && b.calls[|b.calls| - 1].Returned?
      ensures r.Err? ==> Justified(plan, h0, b, r.error) && r.error == Exn(r.error.reason, |b.calls|) && r.error.reason.Blocked?
      ensures r.Ok? ==> BaselineTaken(plan, b.seen, r.value) && sourceIdentity == Some(b.host.identity)
    {
      if Some(source.identity) != sourceIdentity {
        return Err(Exn(Blocked(SourceIdentityChanged), |b.calls|));
      }
      if source.preserved.None? {
        return Err(Exn(Blocked(PreservedMissing(source)), |b.calls|));
      }
      return Ok(Baseline(plan.fact.fromCommit, plan.target.commit, plan.sourceRevision, source.digest,
                         source.preserved.value, ""));
    }

    lemma RecordComes()
      requires Valid() && Done(2) && !f.recovering && databaseRevision == plan.sourceRevision
      ensures Turn(Operation.Record(plan.target)) && |tried| == 2
    {
      Comes(2);
    }

    /** From the source schema, stopped: fresh source facts, the preserved baseline, the migration, and the
        preservation digest again on the other side. */
    method MigrateStopped() returns (r: Result<(), Exn>)
      requires Valid() && Credited() && Done(2) && !f.recovering
      requires b.host.Quiescent() && databaseRevision == plan.sourceRevision && !f.schemaMigrated
      modifies this`f, this`tried, this`heard, b`host, b`calls, b`effects, b`answers, b`seen, b`path
      ensures Valid() && Credited() && Made(old(b.calls), b.calls, r) && old(b.seen) <= b.seen
      ensures r.Err? ==> Justified(plan, h0, b, r.error)
      ensures || f == old(f) || f == old(f).(migrationAttempted := true)
              || f == old(f).(migrationAttempted := true, schemaMigrated := true)
      ensures r.Ok? ==> f.schemaMigrated && b.host.Quiescent() && PreservedOn(plan, b.seen, b.host) && Done(4)
    {
      hide Valid, Credited, Turn, Clean, Grounded, BaselineTaken, PreservedAcross;
      var baseline :- RecordBaseline();
      var _ :- MigrateConfirmed();
      r := VerifyPreservation(b, plan, baseline);
    }

    /** Storing the fact, with both its flags, put on record. */
    method CallPersistNoted() returns (r: Result<(), Exn>, ghost e: Effect, ghost answer: Option<Answer>)
      requires Valid() && f.schemaMigrated && (b.host.running == map[] || f.recovering)
      modifies this`f, this`tried, this`heard, b`host, b`calls, b`effects, b`answers, b`path
      ensures old(b.effects) <= b.effects
      ensures Valid() && Made(old(b.calls), b.calls, r) && FactTried(e, answer)
      ensures r.Ok? <==> answer.None? || answer.value == FactRead(plan.fact.id, Some(plan.fact))
      ensures b.host == old(b.host).(facts := b.host.facts)
      ensures r.Err? ==> r.error.reason.CallFailed?
      ensures b.steady ==> b.host == Stored(plan, old(b.host)) && (r.Ok? <==> b.host.Holds(plan.fact))
    {
      hide Valid, Stored;
      NotePersistenceAttempted();
      r, e, answer := CallPersist();
      tried := tried + [e];
      if r.Ok? {
        NotePersisted();
      }
      if answer.Some? {
        heard := heard + [answer.value];
      }
    }

    method PersistFact() returns (r: Result<(), Exn>)
      requires Valid() && Credited() && Done(FromFact(0)) && f.schemaMigrated && (b.host.running == map[] || f.recovering)
      modifies this`f, this`tried, this`heard, b`host, b`calls, b`effects, b`answers, b`path
      ensures old(b.effects) <= b.effects
      ensures Valid() && Credited() && Made(old(b.calls), b.calls, r)
      ensures r.Err? ==> r.error.reason.CallFailed?
      ensures f == if r.Ok? then old(f).(compatibilityPersistenceAttempted := true, compatibilityPersisted := true)
                   else old(f).(compatibilityPersistenceAttempted := true)
      ensures b.host == old(b.host).(facts := b.host.facts)
      ensures r.Ok? ==> Done(FromFact(1))
      ensures b.steady ==> b.host == Stored(plan, old(b.host)) && (r.Ok? <==> b.host.Holds(plan.fact))
    {
      FactComes();
      hide Valid, Credited, Turn, Clean, Stored;
      PlanIsValid();
      ghost var e, answer;
      r, e, answer := CallPersistNoted();
      CreditsFact(e, answer);
    }

    /** The storing of the fact was tried, and returned or was read back. */
    twostate predicate FactTried(new e: Effect, new answer: Option<Answer>)
      reads this, b
    {
      && e == Effect(Operation.Persist(plan.fact), answer.None?)
      && tried == old(tried) + [e] && b.effects == old(b.effects) + [e]
      && b.host.identity == old(b.host.identity) && recoverySeed == old(recoverySeed)
      && f.recovering == old(f).recovering
      && match answer
         case None =>
           && heard == old(heard) && b.answers == old(b.answers)
           && f == old(f).(compatibilityPersistenceAttempted := true, compatibilityPersisted := true)
         case Some(a) =>
           && heard == old(heard) + [a] && b.answers == old(b.answers) + [a]
           && (a.FactRead? || a.FactReadRaised?) && a.id == plan.fact.id
           && f == if a == FactRead(plan.fact.id, Some(plan.fact))
                   then old(f).(compatibilityPersistenceAttempted := true, compatibilityPersisted := true)
                   else old(f).(compatibilityPersistenceAttempted := true)
    }

    twostate lemma CreditsFact(new e: Effect, new answer: Option<Answer>)
      requires old(Credited()) && old(Turn(Operation.Persist(plan.fact))) && plan.Valid() && FactTried(e, answer)
      ensures Credited() && (f.recovering || Clean(tried))
    {
      hide Credited, Turn, Clean;
      if answer.None? {
        Credits(e);
      } else {
        CreditsStoringRaised(answer.value);
      }
    }

    lemma FactComes()
      requires Valid() && Done(FromFact(0))
      ensures Turn(Operation.Persist(plan.fact)) && (f.recovering || |tried| == FromFact(0))
    {
    }

    /** The identity rotation, behind its certification; returns the new seed. */
    method DeployTargetIdentity() returns (r: Result<string, Exn>)
      requires Valid() && Credited() && !f.recovering && Done(FromFact(1))
      requires f.compatibilityPersisted && b.host.running == map[]
      modifies this`recoverySeed, this`rotated, this`tried, b`host, b`calls, b`effects, b`seen, b`path
      ensures Valid() && Credited() && Made(old(b.calls), b.calls, r)
      ensures r.Err? ==> Justified(plan, h0, b, r.error)
      ensures b.host == old(b.host).(identity := b.host.identity)
      ensures r.Ok? ==> b.host.identity.commit == plan.target.commit && b.host.identity.seed == r.value
                        && rotated && Done(FromFact(2))
      ensures old(b.seen) <= b.seen
      ensures r.Ok? ==> RecoveryCertified(plan, b.seen)
    {
      FactStored();
      RotationComes();
      hide Valid, Credited, Turn, Clean, Grounded, IsSeedIdentity, Host.Holds;
      ghost var passed;
      var certified;
      certified, passed := CertifyR4Recovery(b, plan);
      if certified.Err? {
        return Err(certified.error);
      }
      r := RotateIdentity();
    }

    lemma FactStored()
      requires Valid() && f.compatibilityPersisted
      ensures b.host.Holds(plan.fact)
    {
    }

    lemma RotationComes()
      requires Valid() && Done(FromFact(1)) && !f.recovering
      ensures Turn(Operation.Rotate(plan.target.commit, plan.target.revision)) && |tried| == FromFact(1)
    {
    }

    /** The symlink, and what the host then says of itself. */
    method SwitchRelease(seed: string) returns (r: Result<(), Exn>)
      requires Valid() && Credited() && !f.recovering && Done(FromFact(2)) && b.host.identity.seed == seed
      requires f.schemaMigrated && f.compatibilityPersisted && b.host.running == map[]
      modifies this`f, this`tried, b`host, b`calls, b`effects, b`path
      ensures Valid() && Credited() && Made(old(b.calls), b.calls, r)
      ensures r.Err? ==> Justified(plan, h0, b, r.error)
      ensures f == old(f).(targetActivated := f.targetActivated)
      ensures b.host == old(b.host).(markers := b.host.markers, environment := b.host.environment,
                                     units := b.host.units, symlink := b.host.symlink)
      ensures r.Ok? ==> b.host.symlink == plan.target && TargetMarked(plan.target, b.host, seed) && Done(FromFact(3))
    {
      ActivationComes();
      hide Valid, Credited, Turn, Clean, Grounded, TargetMarked, Activated;
      var _ :- Activate(seed);
      r := RequireActivated(b, plan, seed);
    }

    lemma ActivationComes()
      requires Valid() && Done(FromFact(2)) && !f.recovering
      ensures Turn(Operation.Activate(plan.target)) && |tried| == FromFact(2)
    {
    }

    /** Certification, the identity rotation, the symlink; and the target's own account of itself. */
    method ActivateTarget() returns (r: Result<string, Exn>)
      requires Valid() && Credited() && !f.recovering && Done(FromFact(1))
      requires f.schemaMigrated && f.compatibilityPersisted && b.host.running == map[]
      modifies this`f, this`recoverySeed, this`rotated, this`tried, b`host, b`calls, b`effects, b`seen, b`path
      ensures Valid() && Credited() && Made(old(b.calls), b.calls, r) && old(b.seen) <= b.seen
      ensures r.Err? ==> Justified(plan, h0, b, r.error)
      ensures f == old(f).(targetActivated := f.targetActivated)
      ensures r.Ok? ==> b.host.symlink == plan.target && b.host.identity.commit == plan.target.commit
                        && b.host.identity.seed == r.value && rotated && Done(FromFact(3))
      ensures b.host.baselines == old(b.host).baselines && b.host.running == map[]
      ensures r.Ok? ==> RecoveryCertified(plan, b.seen)
      ensures r.Ok? ==> TargetMarked(plan.target, b.host, r.value)
    {
      hide Valid, Credited, Clean, Done, FromFact, Grounded, RecoveryCertified, TargetMarked;
      var seed :- DeployTargetIdentity();
      var _ :- SwitchRelease(seed);
      return Ok(seed);
    }

    twostate lemma HearsAgain(new answer: Answer)
      requires old(Credited()) && heard == old(heard) + [answer] && b.answers == old(b.answers) + [answer]
      requires tried == old(tried) && b.effects == old(b.effects) && f == old(f) && recoverySeed == old(recoverySeed)
      requires b.host == old(b.host) && !f.recovering && f.compatibilityPersisted && Clean(tried)
      requires answer.FactRead? || answer.FactReadRaised?
      ensures Credited()
    {
      HeardAgain(plan, h0, f, tried, old(heard), answer);
      hide OnRecord;
      assert asked + (old(heard) + [answer]) == (asked + old(heard)) + [answer];
    }

    /** `_require_target_postflight`, while the target is still stopped: the exact fact, the exact identity, and a
        baseline of exactly this step. */
    method Postflight(seed: string) returns (r: Result<(), Exn>)
      requires Valid() && Credited() && !f.recovering && Done(FromFact(3)) && f.compatibilityPersisted
      requires b.host.symlink == plan.target && b.host.running == map[] && b.host.identity.seed == seed
      modifies this`heard, b`calls, b`answers, b`seen
      ensures Valid() && Credited() && Made(old(b.calls), b.calls, r) && old(b.seen) <= b.seen
      ensures r.Err? ==> Justified(plan, h0, b, r.error)
      ensures r.Ok? ==> PostflightOn(plan, b.seen, b.host)
    {
      PlanIsValid();
      hide Valid, Credited, Clean, Grounded, FromFact, PostflightOn, Host.Holds;
      ghost var answer;
      r, answer := RequireFact(b, plan);
      heard := heard + [answer];
      HearsAgain(answer);
      if r.Ok? {
        r := RequireStopped(b, plan, seed);
      }
    }

    method StartTarget(seed: string) returns (r: Result<(), Exn>)
      requires Valid() && Credited() && !f.recovering && Done(FromFact(3)) && b.host.identity.seed == seed
      requires f.schemaMigrated && f.compatibilityPersisted && b.host.symlink == plan.target
      requires b.host.running == map[]
      modifies this`f, this`tried, this`heard, b`host, b`calls, b`effects, b`answers, b`seen, b`path
      ensures Valid() && Credited() && Made(old(b.calls), b.calls, r) && old(b.seen) <= b.seen
      ensures r.Err? ==> Justified(plan, h0, b, r.error)
      ensures f == old(f).(targetSafetyStarted := f.targetSafetyStarted)
      ensures b.host.baselines == old(b.host).baselines && b.host.markers == old(b.host).markers
      ensures r.Ok? ==>
                && TargetRunning(plan, b.host) && b.host.EntryHeld() && Done(FromFact(4))
                && b.host.identity == Identity(plan.target.commit, plan.target.revision, seed)
                && PostflightOn(plan, b.seen, b.host) && CertifiedOn(plan, b.seen, b.host)
    {
      hide Valid, Credited, Clean, Done, FromFact, Grounded, TargetRunning, PostflightOn, CertifiedOn, SAFETY_SERVICES, Host.EntryHeld;
      var _ :- Postflight(seed);
      ghost var seen, h := b.seen, b.host;
      var _ :- StartCertified(seed);
      PostflightStays(plan, seen, b.seen, h, b.host);
      return Ok(());
    }

    method StartCertified(seed: string) returns (r: Result<(), Exn>)
      requires Valid() && Credited() && !f.recovering && Done(FromFact(3)) && b.host.identity.seed == seed
      requires f.schemaMigrated && f.compatibilityPersisted && b.host.symlink == plan.target
      modifies this`f, this`tried, b`host, b`calls, b`effects, b`seen, b`path
      ensures Valid() && Credited() && Made(old(b.calls), b.calls, r) && old(b.seen) <= b.seen
      ensures r.Err? ==> Justified(plan, h0, b, r.error)
      ensures f == old(f).(targetSafetyStarted := f.targetSafetyStarted)
      ensures b.host == old(b.host).(running := b.host.running)
      ensures r.Ok? ==>
                && TargetRunning(plan, b.host) && b.host.EntryHeld() && CertifiedOn(plan, b.seen, b.host)
                && b.host.identity == Identity(plan.target.commit, plan.target.revision, seed) && Done(FromFact(4))
    {
      StartComes();
      Settled();
      hide Valid, Credited, Turn, Clean, Grounded, TargetRunning, CertifiedOn, SAFETY_SERVICES, Host.EntryHeld, Host.Started;
      var _ :- StartAsTarget();
      r := RequireRunning(b, plan, seed);
    }

    lemma StartComes()
      requires Valid() && Done(FromFact(3)) && !f.recovering
      ensures Turn(Operation.Start(SAFETY_SERVICES)) && |tried| == FromFact(3)
    {
    }

    /** Up to the stored fact, with everything stopped. */
    method ReachFact() returns (r: Result<(), Exn>)
      requires plan.Valid() && Valid() && Credited() && Done(0) && b.host == h0 && f == InitialFlags(plan, h0)
      requires databaseRevision == h0.revision
      requires databaseRevision == plan.sourceRevision || databaseRevision == plan.target.revision
      modifies this`f, this`tried, this`heard, b`host, b`calls, b`effects, b`answers, b`seen, b`path
      ensures Valid() && Credited() && Made(old(b.calls), b.calls, r) && old(b.seen) <= b.seen
      ensures r.Err? ==> Justified(plan, h0, b, r.error)
      ensures !f.transitionStarted ==> r.Err? && b.host == h0
      ensures !f.recovering
      ensures r.Ok? ==>
                && f.schemaMigrated && f.compatibilityPersisted && b.host.running == map[] && Done(FromFact(1))
                && (databaseRevision == plan.sourceRevision ==> PreservedOn(plan, b.seen, b.host))
    {
      hide Valid, Credited, Clean, Grounded, PreservedOn;
      var _ :- EnterTransition();
      if databaseRevision == plan.sourceRevision {
        var _ :- MigrateStopped();
      }
      ghost var h := b.host;
      r := PersistFact();
      SightsStay(plan, b.seen, b.seen, h, b.host);
    }

    /** From there: the activated and started target. */
    method ReachTarget() returns (r: Result<(), Exn>)
      requires Valid() && Credited() && !f.recovering && Done(FromFact(1))
      requires f.schemaMigrated && f.compatibilityPersisted && b.host.running == map[]
      modifies this`f, this`recoverySeed, this`rotated, this`tried, this`heard
      modifies b`host, b`calls, b`effects, b`answers, b`seen, b`path
      ensures Valid() && Credited() && Made(old(b.calls), b.calls, r) && old(b.seen) <= b.seen
      ensures r.Err? ==> Justified(plan, h0, b, r.error)
      ensures f == old(f).(targetActivated := f.targetActivated, targetSafetyStarted := f.targetSafetyStarted)
      ensures b.host.baselines == old(b.host).baselines
      ensures r.Ok? ==>
                && TargetRunning(plan, b.host) && b.host.EntryHeld() && rotated && Done(FromFact(4))
                && b.host.identity.commit == plan.target.commit && b.host.identity.revision == plan.target.revision
                && RecoveryCertified(plan, b.seen) && PostflightOn(plan, b.seen, b.host) && CertifiedOn(plan, b.seen, b.host)
                && TargetMarked(plan.target, b.host, b.host.identity.seed)
    {
      hide Valid, Credited, Done, Clean, Grounded, TargetRunning, TargetMarked, RecoveryCertified, PostflightOn, CertifiedOn;
      var seed :- ActivateTarget();
      ghost var seen, h := b.seen, b.host;
      r := StartTarget(seed);
      MarkedStays(plan.target, h, b.host, seed);
      SightsStay(plan, seen, b.seen, h, b.host);
    }

    method Body() returns (r: Result<(), Exn>)
      requires plan.Valid() && Valid() && Credited() && Done(0) && b.host == h0 && f == InitialFlags(plan, h0)
      requires databaseRevision == plan.sourceRevision || databaseRevision == plan.target.revision
      modifies this`f, this`recoverySeed, this`rotated, this`tried, this`heard
      modifies b`host, b`calls, b`effects, b`answers, b`seen, b`path
      ensures Valid() && Credited() && Made(old(b.calls), b.calls, r) && old(b.seen) <= b.seen
      ensures r.Err? ==> Justified(plan, h0, b, r.error)
      ensures !f.transitionStarted ==> r.Err? && b.host == h0
      ensures !f.recovering
      ensures r.Ok? ==>
                && TargetRunning(plan, b.host) && b.host.EntryHeld() && rotated && Done(FromFact(4))
                && b.host.identity.commit == plan.target.commit && b.host.identity.revision == plan.target.revision
                && CertifiedThroughout(plan, databaseRevision, b.seen, b.host)
                && TargetMarked(plan.target, b.host, b.host.identity.seed)
    {
      Located();
      hide Valid, Credited, Done, FromFact, Clean, Grounded, TargetRunning, TargetMarked, PreservedOn, RecoveryCertified,
        PostflightOn, CertifiedOn;
      var _ :- ReachFact();
      ghost var seen, h := b.seen, b.host;
      r := ReachTarget();
      SightsStay(plan, seen, b.seen, h, b.host);
    }

    /** The try: its body, and the exception it is left with. */
    method Transition() returns (r: Result<(), Exn>)
      requires plan.Valid() && Valid() && Credited() && Done(0) && b.host == h0 && f == InitialFlags(plan, h0)
      requires databaseRevision == plan.sourceRevision || databaseRevision == plan.target.revision
      modifies this, b`host, b`calls, b`effects, b`answers, b`seen, b`path
      ensures Valid() && Credited() && Made(old(b.calls), b.calls, r) && old(b.seen) <= b.seen
      ensures failure == if r.Err? then Some(r.error) else None
      ensures r.Err? ==> Justified(plan, h0, b, r.error)
      ensures !f.transitionStarted ==> r.Err? && b.host == h0
      ensures !f.recovering
      ensures r.Ok? ==>
                && TargetRunning(plan, b.host) && b.host.EntryHeld() && rotated && Done(FromFact(4))
                && b.host.identity.commit == plan.target.commit && b.host.identity.revision == plan.target.revision
                && CertifiedThroughout(plan, databaseRevision, b.seen, b.host)
                && TargetMarked(plan.target, b.host, b.host.identity.seed)
    {
      hide Valid, Credited, Done, FromFact, Grounded, TargetRunning, TargetMarked, CertifiedThroughout;
      r := Body();
      failure := if r.Err? then Some(r.error) else None;
    }

    /** What a standing upgrade says of the host. */
    lemma Standing()
      requires Valid()
      ensures b.Valid() && LawfulPath(plan, b.path) && origin <= b.path && Truthful(b.host)
      ensures f.transitionStarted && !f.recovering ==> FailedWith(plan, h0, b.host, f)
      ensures if rotated then b.host.identity.commit == plan.target.commit else b.host.identity == h0.identity
    {
    }

    /** What the record of a try says. */
    lemma Recorded()
      requires Credited()
      ensures b.effects == before + tried && b.answers == asked + heard
      ensures !f.recovering ==> OnRecord(plan, h0, f, tried, heard)
      ensures !f.recovering && Done(FromFact(4)) ==> |tried| == |Script(plan, h0)| && Clean(tried)
      ensures recoverySeed == SeedAfter(plan, seed0, b.host, tried)
    {
    }

    lemma Located()
      requires Valid()
      ensures databaseRevision == h0.revision && current == h0.symlink
    {
    }

    // ----- the recovery -----

    /** Nothing was migrated: back to the source, once it is confirmed to be the current release. */
    method RecoverSource() returns (r: Result<(), Exn>)
      requires Valid() && Credited() && f.recovering && !f.migrationAttempted && !f.schemaMigrated
      modifies this`tried, b`host, b`calls, b`effects, b`path
      ensures Valid() && Credited() && Made(old(b.calls), b.calls, r)
      ensures r.Err? ==> Justified(plan, h0, b, r.error)
      ensures old(b.effects) <= b.effects
      ensures b.steady ==> r.Ok? && b.host == old(b.host).Started(SAFETY_SERVICES)
    {
      SourceStarted(plan, h0, b.host, f);
      Located();
      hide Valid, Credited, SAFETY_SERVICES;
      var _ :- RequireCurrent(b, current);
      var _ :- RequireMarker(b, current, SchemaRevision, plan.sourceRevision);
      r := StartSource();
    }

    /** The migration is confirmed; a fact never tried is certified and stored. */
    method RecoverPersistence() returns (r: Result<(), Exn>, ghost certified: bool)
      requires Valid() && Credited() && f.schemaMigrated && f.recovering
      modifies this`f, this`tried, this`heard, b`host, b`calls, b`effects, b`answers, b`seen, b`path
      ensures Valid() && Credited() && ((r.Ok? && b.calls == old(b.calls)) || Made(old(b.calls), b.calls, r))
      ensures r.Err? ==> Justified(plan, h0, b, r.error)
      ensures old(b.effects) <= b.effects
      ensures f == old(f).(compatibilityPersistenceAttempted := f.compatibilityPersistenceAttempted,
                           compatibilityPersisted := f.compatibilityPersisted)
      ensures if old(f).compatibilityPersisted || old(f).compatibilityPersistenceAttempted then
                r.Ok? && f == old(f) && b.host == old(b.host) && b.seen == old(b.seen) && !certified
              else
                && (r.Ok? ==> f.compatibilityPersisted)
                && (b.steady ==>
                      && b.host == (if certified then Stored(plan, old(b.host)) else old(b.host))
                      && (f.compatibilityPersisted <==> certified && b.host.Holds(plan.fact))
                      && (r.Ok? <==> f.compatibilityPersisted)
                      && (f.compatibilityPersistenceAttempted <==> certified)
                      && exists c :: b.seen == old(b.seen) + [Certified(old(b.host), c)]
                                     && (certified <==> PassesAt(c, plan.target.revision)))
      ensures b.host == old(b.host).(facts := b.host.facts) && old(b.seen) <= b.seen
    {
      hide Valid, Credited, Grounded, Stored;
      certified := false;
      if f.compatibilityPersisted || f.compatibilityPersistenceAttempted {
        return Ok(()), certified;
      }
      r, certified := CertifyR4Recovery(b, plan);
      if r.Ok? {
        r := PersistFact();
      }
    }

    lemma Idle()
      requires Valid() && f.schemaMigrated
      ensures b.host.symlink == plan.target || b.host.running == map[]
    {
      NotYetActivated(plan, h0, b.host, f);
    }

    /** With the fact stored, the symlink is brought to the target, unless it is already there. */
    method RecoverActivation() returns (r: Result<(), Exn>)
      requires Valid() && Credited() && f.recovering && f.schemaMigrated && f.compatibilityPersisted
      modifies this`f, this`tried, b`host, b`calls, b`effects, b`path
      ensures Valid() && Credited() && Made(old(b.calls), b.calls, r)
      ensures r.Err? ==> r.error.reason.CallFailed?
      ensures old(b.effects) <= b.effects
      ensures f == old(f).(targetActivated := f.targetActivated)
      ensures r.Ok? ==> (f.targetActivated <==> b.host.symlink == plan.target)
      ensures b.steady ==>
                && r.Ok? && f.targetActivated
                && b.host == if old(b.host).symlink == plan.target then old(b.host)
                             else Activated(old(b.host), plan.target, recoverySeed)
    {
      Idle();
      hide Valid, Credited, Activated;
      var release :- b.ReadCurrentRelease();
      FlagActivated(release == plan.target);
      if !f.targetActivated {
        r := Reactivate();
        return;
      }
      return Ok(());
    }

    /** The flag, in the handler. */
    method FlagActivated(activated: bool)
      requires Valid() && Credited() && f.recovering
      modifies this`f
      ensures Valid() && Credited() && f == old(f).(targetActivated := activated)
    {
      hide Valid, SeedAfter;
      NoteActivated(activated);
    }

    method Reactivate() returns (r: Result<(), Exn>)
      requires Valid() && Credited() && f.recovering && f.schemaMigrated && f.compatibilityPersisted && b.host.running == map[]
      modifies this`f, this`tried, b`host, b`calls, b`effects, b`path
      ensures Valid() && Credited() && Made(old(b.calls), b.calls, r)
      ensures r.Err? ==> r.error.reason.CallFailed?
      ensures old(b.effects) <= b.effects
      ensures f == old(f).(targetActivated := f.targetActivated)
      ensures r.Ok? ==> (f.targetActivated <==> b.host.symlink == plan.target)
      ensures b.steady ==> r.Ok? && f.targetActivated && b.host == Activated(old(b.host), plan.target, recoverySeed)
    {
      hide Valid, Credited, Activated;
      var _ :- Activate(recoverySeed);
      var release :- b.ReadCurrentRelease();
      FlagActivated(release == plan.target);
      return Ok(());
    }

    method RecoverTarget() returns (r: Result<(), Exn>)
      requires Valid() && Credited() && f.recovering
      requires f.schemaMigrated && f.compatibilityPersisted && b.host.symlink == plan.target
      modifies this`f, this`tried, b`host, b`calls, b`effects, b`path
      ensures Valid() && Credited() && Made(old(b.calls), b.calls, r)
      ensures r.Err? ==> r.error.reason.CallFailed?
      ensures old(b.effects) <= b.effects
      ensures f == old(f).(targetSafetyStarted := f.targetSafetyStarted)
      ensures b.steady ==> r.Ok? && b.host == old(b.host).Started(SAFETY_SERVICES)
    {
      Settled();
      hide Valid, Credited, TargetRunning, SAFETY_SERVICES, Host.AllRunning, Host.Holds;
      var exact :- OnlySafetyActive(b);
      if f.targetSafetyStarted && exact {
        return Ok(());
      }
      r := StartAsTarget();
    }

    /** Whether a certification of its own comes before the handler's storing of the fact, and its verdict. */
    twostate predicate CertifiedItself(f0: Flags, certified: bool)
      reads b
    {
      if f0.schemaMigrated && !f0.compatibilityPersisted && !f0.compatibilityPersistenceAttempted then
        exists c :: b.seen == old(b.seen) + [Certified(old(b.host), c)] && (certified <==> PassesAt(c, plan.target.revision))
      else b.seen == old(b.seen) && !certified
    }

    /** The schema is at the target: the fact, the symlink, and the services, as far as each may go. */
    method RecoverMigrated() returns (r: Result<(), Exn>, ghost certified: bool)
      requires Valid() && Credited() && f.schemaMigrated && f.recovering
      modifies this`f, this`tried, this`heard, b`host, b`calls, b`effects, b`answers, b`seen, b`path
      ensures Valid() && Credited() && ((r.Ok? && b.calls == old(b.calls)) || Made(old(b.calls), b.calls, r))
      ensures r.Err? ==> Justified(plan, h0, b, r.error)
      ensures old(b.effects) <= b.effects
      ensures old(b.seen) <= b.seen && f.recovering
      ensures b.steady ==>
                && b.host == Handled(plan, old(b.host), old(f), recoverySeed, certified)
                && CertifiedItself(old(f), certified)
                && (r.Err? <==> !old(f).compatibilityPersisted && !old(f).compatibilityPersistenceAttempted
                                && !(certified && Stored(plan, old(b.host)).Holds(plan.fact)))
    {
      hide Valid, Credited, Grounded, Stored, Host.Started, Activated, Host.Holds;
      r, certified := RecoverPersistence();
      if r.Err? {
        return;
      }
      if f.compatibilityPersisted {
        r := RecoverActivation();
        if r.Err? {
          return;
        }
        if f.targetActivated {
          r := RecoverTarget();
        }
      }
    }

    /** The handler. Without faults it leaves exactly what the flags at the failure and the verdict of its own
        certification decide, and raises only when that certification, or the storing after it, is refused. */
    method Recover() returns (r: Result<(), Exn>, ghost certified: bool)
      requires Valid() && Credited() && f.transitionStarted && !f.recovering
      modifies this`f, this`tried, this`heard, b`host, b`calls, b`effects, b`answers, b`seen, b`path
      ensures Valid() && Credited() && Made(old(b.calls), b.calls, r)
      ensures r.Err? ==> Justified(plan, h0, b, r.error)
      ensures old(b.effects) <= b.effects
      ensures old(b.seen) <= b.seen && f.recovering
      ensures b.steady ==>
                && b.host == Handled(plan, old(b.host), old(f), recoverySeed, certified)
                && CertifiedItself(old(f), certified)
                && (r.Err? <==> old(f).schemaMigrated && !old(f).compatibilityPersisted
                                && !old(f).compatibilityPersistenceAttempted
                                && !(certified && Stored(plan, old(b.host)).Holds(plan.fact)))
    {
      hide Valid, Grounded, Stored, Host.Started, Host.Holds, OnRecord, SeedAfter;
      HandledAnyway(plan, b.host, f, recoverySeed);
      NoteRecovery();
      hide Credited, Handled;
      var fenced := Fence();
      certified := false;
      if fenced.Err? {
        return fenced, certified;
      }
      if !f.migrationAttempted && !f.schemaMigrated {
        r := RecoverSource();
      } else if f.schemaMigrated {
        r, certified := RecoverMigrated();
      } else {
        r := Ok(());
      }
    }
  }

  // ----- before the transition -----

  datatype Preflighted = Preflighted(current: Release, databaseRevision: string, sourceIdentity: Option<Identity>, seed: string)

  /** Everything the flags will build on. */
  predicate Ready(plan: UpgradePlan, h: Host, p: Preflighted) {
    && p.current == h.symlink && p.databaseRevision == h.revision
    && (h.revision == plan.sourceRevision || h.revision == plan.target.revision)
    && Told(plan, h, h, InitialFlags(plan, h))
  }

  predicate SourceMarked(plan: UpgradePlan, h: Host, marker: Marker) {
    (h.symlink, marker) in h.markers && h.markers[(h.symlink, marker)] == SourceMarker(plan, h, marker)
  }

  /** The certified source is the fact's own source and the current release; its seed is the one to recover with. */
  ghost predicate DepartsFromSource(plan: UpgradePlan, h: Host, seen: seq<Sight>, sourceIdentity: Option<Identity>, seed: string) {
    && h.revision == plan.sourceRevision && h.identity.commit == plan.fact.fromCommit
    && (exists c :: Checked(seen, h, c) && SourceCertified(plan, c, true))
    && SourceMarked(plan, h, RuntimeCommit) && SourceMarked(plan, h, SchemaRevision) && SourceMarked(plan, h, SeedIdentity)
    && sourceIdentity == Some(h.identity) && seed == h.identity.seed
  }

  /** An interrupted upgrade of the same fact is resumed, before its activation or after it; the seed is the current
      release's own. */
  predicate DepartsInterrupted(plan: UpgradePlan, h: Host, seed: string) {
    && h.revision == plan.target.revision
    && (plan.fact.id in h.facts ==> h.Holds(plan.fact))
    && (if h.symlink == plan.target then h.Holds(plan.fact)
        else SourceMarked(plan, h, RuntimeCommit) && SourceMarked(plan, h, SchemaRevision))
    && (h.symlink, SeedIdentity) in h.markers && seed == h.markers[(h.symlink, SeedIdentity)] && IsSeedIdentity(seed)
  }

  /** What the try is entered on. */
  ghost predicate Departs(plan: UpgradePlan, h: Host, seen: seq<Sight>, sourceIdentity: Option<Identity>, seed: string) {
    && h.EntryHeld() && plan.target in h.installed
    && (DepartsFromSource(plan, h, seen, sourceIdentity, seed) || DepartsInterrupted(plan, h, seed))
  }

  lemma DepartsStill(plan: UpgradePlan, h: Host, seen: seq<Sight>, seen': seq<Sight>, sourceIdentity: Option<Identity>, seed: string)
    requires Departs(plan, h, seen, sourceIdentity, seed) && seen <= seen'
    ensures Departs(plan, h, seen', sourceIdentity, seed)
  {
    hide SourceMarked, SourceCertified, DepartsInterrupted;
    assert forall x :: x in seen ==> x in seen';
    assert forall c :: Checked(seen, h, c) ==> Checked(seen', h, c);
  }

  /** From the source schema: the certified source is the fact's own source and the current release. */
  method CheckSource(b: TokyoReleaseBackend, plan: UpgradePlan, current: Release)
    returns (r: Result<Identity, Exn>)
    requires current == b.host.symlink
    modifies b`calls, b`seen
    ensures Made(old(b.calls), b.calls, r) && old(b.seen) <= b.seen
    ensures r.Ok? ==> r.value == b.host.identity
                      && DepartsFromSource(plan, b.host, b.seen, Some(r.value), r.value.seed)
    ensures r.Err? ==> Justified(plan, b.host, b, r.error)
  {
    hide Checked, SourceCertified;
    var source :- ReadCompatibleSourceFacts(b, plan);
    var identity := source.identity;
    if plan.fact.fromCommit != identity.commit {
      return Err(Exn(Blocked(SourceCommitDiffers), |b.calls|));
    }
    var _ :- RequireMarker(b, current, RuntimeCommit, identity.commit);
    var _ :- RequireMarker(b, current, SchemaRevision, plan.sourceRevision);
    var _ :- RequireMarker(b, current, SeedIdentity, identity.seed);
    return Ok(identity);
  }

  /** From the target schema: an interrupted upgrade of the same fact, before or after its activation. */
  method CheckInterrupted(b: TokyoReleaseBackend, plan: UpgradePlan, current: Release)
    returns (r: Result<string, Exn>)
    requires current == b.host.symlink && b.host.revision == plan.target.revision
    modifies b`calls, b`answers
    ensures Made(old(b.calls), b.calls, r)
    ensures r.Ok? ==> DepartsInterrupted(plan, b.host, r.value)
    ensures r.Err? ==> Justified(plan, b.host, b, r.error)
  {
    hide IsSeedIdentity;
    var persisted :- b.ReadCompatibilityFact(plan.fact.id);
    if persisted.Some? && persisted != Some(plan.fact) {
      return Err(Exn(Blocked(FactDiffers), |b.calls|));
    }
    if current == plan.target {
      if persisted.None? {
        return Err(Exn(Blocked(FactMissing), |b.calls|));
      }
    } else {
      var _ :- RequireMarker(b, current, RuntimeCommit, plan.fact.fromCommit);
      var _ :- RequireMarker(b, current, SchemaRevision, plan.sourceRevision);
    }
    var seed :- b.ReadReleaseMarker(current, SeedIdentity);
    if !IsSeedIdentity(seed) {
      return Err(Exn(Blocked(SeedInvalid(seed)), |b.calls|));
    }
    return Ok(seed);
  }

  lemma InstallKeeps(plan: UpgradePlan, h: Host, h': Host)
    requires Truthful(h) && plan.target !in h.installed
    requires h' == h || h' == Erased(h, plan.target) || h' == Installed(h, plan.target)
    ensures LawfulMove(plan, h, h')
    ensures h' == h.(installed := h'.installed, markers := h'.markers, baselines := h'.baselines)
  {
  }

  /** The target is installed unless it already is. */
  method InstallIfMissing(b: TokyoReleaseBackend, plan: UpgradePlan) returns (r: Result<(), Exn>)
    requires b.Valid() && Truthful(b.host) && LawfulPath(plan, b.path)
    modifies b`host, b`calls, b`effects, b`path
    ensures b.Valid() && LawfulPath(plan, b.path) && old(b.path) <= b.path && Made(old(b.calls), b.calls, r)
    ensures b.host == old(b.host).(installed := b.host.installed, markers := b.host.markers, baselines := b.host.baselines)
    ensures Truthful(b.host) && (r.Ok? ==> plan.target in b.host.installed)
    ensures r.Err? ==> r.error.reason.CallFailed?
    ensures plan.target in old(b.host).installed ==> b.host == old(b.host)
    ensures InstalledOnce(plan, old(b.host), old(b.effects), b.effects, r.Ok?)
  {
    hide LawfulPath, LawfulMove, Erased;
    var present :- b.ReleaseExists(plan.target);
    if !present {
      r := b.InstallRelease(plan.target);
      InstallKeeps(plan, old(b.host), b.host);
      PathGrows(plan, old(b.path), b.host);
      MoveIsTruthful(plan, old(b.host), b.host);
      return;
    }
    return Ok(());
  }

  /** The one effect before the try: the target is installed exactly if it is missing. */
  predicate InstalledOnce(plan: UpgradePlan, h: Host, effects: seq<Effect>, effects': seq<Effect>, passed: bool) {
    || (effects' == effects && (passed ==> plan.target in h.installed))
    || (plan.target !in h.installed && effects' == effects + [Effect(Install(plan.target), true)])
    || (plan.target !in h.installed && !passed && effects' == effects + [Effect(Install(plan.target), false)])
  }

  lemma MoveIsTruthful(plan: UpgradePlan, h: Host, h': Host)
    requires LawfulMove(plan, h, h')
    ensures Truthful(h')
  {
  }

  lemma ReadyFrom(plan: UpgradePlan, h: Host, p: Preflighted)
    requires plan.Valid() && Truthful(h) && h.EntryHeld() && p.current == h.symlink && p.databaseRevision == h.revision
    requires plan.target in h.installed
    requires if h.revision == plan.target.revision && h.symlink == plan.target then h.Holds(plan.fact)
             else SourceMarked(plan, h, SchemaRevision)
    requires h.revision == plan.sourceRevision || h.revision == plan.target.revision
    ensures Ready(plan, h, p)
  {
  }

  /** The checks of the database and of the current release, by where the schema is. */
  method CheckSchema(b: TokyoReleaseBackend, plan: UpgradePlan, current: Release) returns (r: Result<Preflighted, Exn>)
    requires plan.Valid() && Truthful(b.host) && b.host.EntryHeld() && current == b.host.symlink
    requires plan.target in b.host.installed
    modifies b`calls, b`answers, b`seen
    ensures Made(old(b.calls), b.calls, r)
    ensures r.Ok? ==> Ready(plan, b.host, r.value) && Departs(plan, b.host, b.seen, r.value.sourceIdentity, r.value.seed)
                      && (r.value.sourceIdentity.Some? <==> b.host.revision == plan.sourceRevision)
    ensures old(b.seen) <= b.seen
    ensures r.Err? ==> Justified(plan, b.host, b, r.error)
  {
    hide Told, Truthful;
    var inspected :- b.InspectSchema();
    if inspected != Some(plan.sourceRevision) && inspected != Some(plan.target.revision) {
      return Err(Exn(Blocked(SchemaRefused(inspected)), |b.calls|));
    }
    hide Grounded;
    var p: Preflighted;
    if inspected == Some(plan.sourceRevision) {
      var identity :- CheckSource(b, plan, current);
      p := Preflighted(current, plan.sourceRevision, Some(identity), identity.seed);
    } else {
      var seed :- CheckInterrupted(b, plan, current);
      p := Preflighted(current, plan.target.revision, None, seed);
    }
    ReadyFrom(plan, b.host, p);
    return Ok(p);
  }

  /** Everything before the try: it installs the target at most, and leaves the host ready or raises. */
  method Preflight(b: TokyoReleaseBackend, plan: UpgradePlan) returns (r: Result<Preflighted, Exn>)
    requires plan.Valid() && b.Valid() && Truthful(b.host) && LawfulPath(plan, b.path)
    modifies b`host, b`calls, b`effects, b`answers, b`seen, b`path
    ensures b.Valid() && LawfulPath(plan, b.path) && old(b.path) <= b.path && Made(old(b.calls), b.calls, r)
    ensures b.host == old(b.host).(installed := b.host.installed, markers := b.host.markers, baselines := b.host.baselines)
    ensures Truthful(b.host) && old(b.seen) <= b.seen
    ensures r.Ok? ==> Ready(plan, b.host, r.value) && Departs(plan, b.host, b.seen, r.value.sourceIdentity, r.value.seed)
                      && (r.value.sourceIdentity.Some? <==> b.host.revision == plan.sourceRevision)
    ensures r.Err? ==> Justified(plan, b.host, b, r.error)
    ensures InstalledOnce(plan, old(b.host), old(b.effects), b.effects, r.Ok?)
    ensures b.effects != old(b.effects) ==> b.host.EntryHeld()
  {
    hide LawfulPath, Ready, Departs, Truthful, Grounded;
    var current :- b.ReadCurrentRelease();
    var _ :- RequireHeld(b, plan);
    var _ :- InstallIfMissing(b, plan);
    r := CheckSchema(b, plan, current);
  }

  // ----- the whole upgrade -----

  /** What leaves the function: the exception, and what the handler itself raised while handling it. */
  datatype Thrown = Thrown(error: Exn, duringRecovery: Option<Exn>)

  /** The end of the try: the host, the flags, what had been seen, and the effects and answers of the try. */
  datatype Moment = Moment(h: Host, f: Flags, seen: seq<Sight>, effects: seq<Effect>, answers: seq<Answer>)

  /** An exception of one of the calls made since, or a refusal. */
  predicate RaisedSince(before: seq<Outcome>, calls: seq<Outcome>, e: Exn) {
    |before| < e.at <= |calls| && (e.reason.CallFailed? <==> calls[e.at - 1].Raised?)
  }

  /** What the handler still has to certify before it may store the fact. */
  predicate MustCertify(f: Flags) {
    f.schemaMigrated && !f.compatibilityPersisted && !f.compatibilityPersistenceAttempted
  }

  /** The handler's own certification: made exactly if it must be, and its verdict. */
  ghost predicate CertifiedAfter(plan: UpgradePlan, m: Moment, seen: seq<Sight>, certified: bool) {
    if MustCertify(m.f) then
      exists c :: seen == m.seen + [Certified(m.h, c)] && (certified <==> PassesAt(c, plan.target.revision))
    else seen == m.seen && !certified
  }

  /** The try was entered on what it needs, and its effects, its flags and its record go together. */
  ghost predicate Entered(plan: UpgradePlan, run: Upgrade, m: Moment, seen: seq<Sight>, effects: seq<Effect>) {
    && Departs(plan, run.h0, seen, run.sourceIdentity, run.seed0)
    && OnRecord(plan, run.h0, m.f, m.effects, m.answers)
    && run.before + m.effects <= effects
  }

  /** `_deploy_compatible_upgrade`. Through every state, also inside the handler, the moves are lawful, and the
      state it ends in is one an upgrade can start from. A success is the target running, certified throughout, after
      exactly the effects of the script. An exception is the one the try was left with, whatever the handler raises
      besides, and a refusal has its grounds. Raised before the fence call returned it leaves the host alone; raised
      later, and with no further fault, it leaves exactly what the handler makes of the failure: `m` is that moment,
      and its flags are those the calls of the try have earned. */
  method DeployCompatibleUpgrade(b: TokyoReleaseBackend, plan: UpgradePlan)
    returns (r: Result<(), Thrown>, ghost run: Option<Upgrade>, ghost m: Moment, ghost certified: bool)
    requires plan.Valid() && b.Valid() && Truthful(b.host) && LawfulPath(plan, b.path)
    modifies b
    ensures b.Valid() && LawfulPath(plan, b.path) && old(b.path) <= b.path && Truthful(b.host)
    // before the try
    ensures run.None? ==>
              && r.Err? && r.error.duringRecovery.None? && Justified(plan, b.host, b, r.error.error)
              && InstalledOnce(plan, old(b.host), old(b.effects), b.effects, false)
              && (b.effects != old(b.effects) ==> b.host.EntryHeld())
              && b.host == old(b.host).(installed := b.host.installed, markers := b.host.markers, baselines := b.host.baselines)
    ensures run.Some? ==>
              && fresh(run.value) && run.value.b == b && run.value.plan == plan
              && run.value.h0 == old(b.host).(installed := run.value.h0.installed, markers := run.value.h0.markers,
                                              baselines := run.value.h0.baselines)
              && InstalledOnce(plan, old(b.host), old(b.effects), run.value.before, true)
              && Entered(plan, run.value, m, b.seen, b.effects)
    // a success
    ensures r.Ok? ==>
              && run.Some? && run.value.failure.None? && run.value.rotated
              && TargetRunning(plan, b.host) && b.host.EntryHeld()
              && b.host.identity.commit == plan.target.commit && b.host.identity.revision == plan.target.revision
              && CertifiedThroughout(plan, run.value.h0.revision, b.seen, b.host)
              && TargetMarked(plan.target, b.host, b.host.identity.seed)
              && b.effects == run.value.before + m.effects && |m.effects| == |Script(plan, run.value.h0)| && Clean(m.effects)
    // a failure
    ensures r.Err? ==> RaisedSince(old(b.calls), b.calls, r.error.error)
    ensures r.Err? && run.Some? ==>
              && run.value.failure == Some(r.error.error)
              && (r.error.error.reason.Blocked? ==>
                    Grounded(plan, run.value.h0, m.h, m.seen, run.value.asked + m.answers, r.error.error.reason.refusal))
              && (r.error.duringRecovery.Some? ==>
                    && RaisedSince(old(b.calls), b.calls, r.error.duringRecovery.value)
                    && r.error.error.at < r.error.duringRecovery.value.at
                    && Justified(plan, run.value.h0, b, r.error.duringRecovery.value))
              && (!m.f.transitionStarted ==> b.host == run.value.h0)
              && (m.f.transitionStarted ==>
                    && FailedWith(plan, run.value.h0, m.h, m.f)
                    && (if run.value.rotated then m.h.identity.commit == plan.target.commit
                        else m.h.identity == run.value.h0.identity))
    ensures r.Err? && run.Some? && m.f.transitionStarted && b.steady ==>
              && b.host == Handled(plan, m.h, m.f, SeedAfter(plan, run.value.seed0, m.h, m.effects), certified)
              && CertifiedAfter(plan, m, b.seen, certified)
              && (r.error.duringRecovery.Some? <==> MustCertify(m.f) && !(certified && Stored(plan, m.h).Holds(plan.fact)))
              && (run.value.rotated || old(b.host).identity.commit == plan.target.commit <==> b.host.identity.commit == plan.target.commit)
              && (old(b.host).symlink != plan.target || old(b.host).running == map[] ==>
                    DesignedExit(plan, run.value.h0, b.host))
  {
    hide LawfulPath, Truthful, TargetRunning, TargetMarked, CertifiedThroughout, Handled, FailedWith, DesignedExit,
      Grounded, Departs, OnRecord, SeedAfter, Stored, Host.Holds, Script, Clean, CertifiedAfter, InstalledOnce;
    run, certified := None, false;
    m := Moment(b.host, InitialFlags(plan, b.host), b.seen, [], []);
    var preflight := Preflight(b, plan);
    if preflight.Err? {
      return Err(Thrown(preflight.error, None)), run, m, certified;
    }
    var upgrade := Enter(b, plan, preflight.value);
    run := Some(upgrade);
    var body;
    body, m := Try(upgrade);
    if body.Ok? {
      return Ok(()), run, m, certified;
    }
    var recovery: Result<(), Exn> := Ok(());
    if upgrade.f.transitionStarted {
      recovery, certified := Handle(upgrade, m);
      DepartsStill(plan, upgrade.h0, m.seen, b.seen, upgrade.sourceIdentity, upgrade.seed0);
    }
    return Err(Thrown(body.error, if recovery.Err? then Some(recovery.error) else None)), run, m, certified;
  }

  /** The try, and the moment it ends in. */
  method Try(upgrade: Upgrade) returns (r: Result<(), Exn>, ghost m: Moment)
    requires upgrade.Valid() && upgrade.Credited() && upgrade.Done(0)
    requires upgrade.b.host == upgrade.h0 && upgrade.f == InitialFlags(upgrade.plan, upgrade.h0)
    requires upgrade.databaseRevision == upgrade.plan.sourceRevision || upgrade.databaseRevision == upgrade.plan.target.revision
    requires Departs(upgrade.plan, upgrade.h0, upgrade.b.seen, upgrade.sourceIdentity, upgrade.seed0)
    modifies upgrade, upgrade.b`host, upgrade.b`calls, upgrade.b`effects, upgrade.b`answers, upgrade.b`seen, upgrade.b`path
    ensures upgrade.Valid() && upgrade.Credited() && Made(old(upgrade.b.calls), upgrade.b.calls, r)
    ensures old(upgrade.b.seen) <= upgrade.b.seen && !upgrade.f.recovering
    ensures m == Moment(upgrade.b.host, upgrade.f, upgrade.b.seen, upgrade.tried, upgrade.heard)
    ensures upgrade.failure == if r.Err? then Some(r.error) else None
    ensures Truthful(upgrade.b.host) && LawfulPath(upgrade.plan, upgrade.b.path) && upgrade.b.Valid() && upgrade.origin <= upgrade.b.path
    ensures Entered(upgrade.plan, upgrade, m, upgrade.b.seen, upgrade.b.effects)
    ensures upgrade.recoverySeed == SeedAfter(upgrade.plan, upgrade.seed0, m.h, m.effects)
    ensures r.Err? && r.error.reason.Blocked? ==>
              Grounded(upgrade.plan, upgrade.h0, m.h, m.seen, upgrade.asked + m.answers, r.error.reason.refusal)
    ensures !m.f.transitionStarted ==> r.Err? && m.h == upgrade.h0
    ensures m.f.transitionStarted ==> FailedWith(upgrade.plan, upgrade.h0, m.h, m.f)
    ensures if upgrade.rotated then m.h.identity.commit == upgrade.plan.target.commit else m.h.identity == upgrade.h0.identity
    ensures r.Ok? ==>
              && upgrade.rotated && TargetRunning(upgrade.plan, m.h) && m.h.EntryHeld()
              && m.h.identity.commit == upgrade.plan.target.commit && m.h.identity.revision == upgrade.plan.target.revision
              && CertifiedThroughout(upgrade.plan, upgrade.h0.revision, m.seen, m.h)
              && TargetMarked(upgrade.plan.target, m.h, m.h.identity.seed)
              && upgrade.b.effects == upgrade.before + m.effects
              && |m.effects| == |Script(upgrade.plan, upgrade.h0)| && Clean(m.effects)
  {
    upgrade.Located();
    hide Upgrade.Valid, Upgrade.Credited, Upgrade.Done, Upgrade.FromFact, LawfulPath, Truthful, TargetRunning, TargetMarked,
      CertifiedThroughout, FailedWith, Grounded, Departs, OnRecord, SeedAfter, Script, Clean;
    upgrade.PlanIsValid();
    ghost var seen := upgrade.b.seen;
    r := upgrade.Transition();
    upgrade.Standing();
    upgrade.Recorded();
    DepartsStill(upgrade.plan, upgrade.h0, seen, upgrade.b.seen, upgrade.sourceIdentity, upgrade.seed0);
    m := Moment(upgrade.b.host, upgrade.f, upgrade.b.seen, upgrade.tried, upgrade.heard);
  }

  /** The handler, and where it leads from that moment. */
  method Handle(upgrade: Upgrade, ghost m: Moment) returns (r: Result<(), Exn>, ghost certified: bool)
    requires upgrade.Valid() && upgrade.Credited() && upgrade.f.transitionStarted && !upgrade.f.recovering
    requires m == Moment(upgrade.b.host, upgrade.f, upgrade.b.seen, upgrade.tried, upgrade.heard)
    modifies upgrade`f, upgrade`tried, upgrade`heard
    modifies upgrade.b`steady, upgrade.b`host, upgrade.b`calls, upgrade.b`effects, upgrade.b`answers, upgrade.b`seen, upgrade.b`path
    ensures Made(old(upgrade.b.calls), upgrade.b.calls, r) && old(upgrade.b.effects) <= upgrade.b.effects
    ensures old(upgrade.b.seen) <= upgrade.b.seen
    ensures Truthful(upgrade.b.host) && LawfulPath(upgrade.plan, upgrade.b.path) && upgrade.b.Valid() && upgrade.origin <= upgrade.b.path
    ensures r.Err? ==> Justified(upgrade.plan, upgrade.h0, upgrade.b, r.error)
    ensures upgrade.b.steady ==>
              && upgrade.b.host == Handled(upgrade.plan, m.h, m.f, upgrade.recoverySeed, certified)
              && CertifiedAfter(upgrade.plan, m, upgrade.b.seen, certified)
              && (r.Err? <==> MustCertify(m.f) && !(certified && Stored(upgrade.plan, m.h).Holds(upgrade.plan.fact)))
              && (upgrade.rotated || upgrade.h0.identity.commit == upgrade.plan.target.commit
                  <==> upgrade.b.host.identity.commit == upgrade.plan.target.commit)
              && (upgrade.h0.symlink != upgrade.plan.target || upgrade.h0.running == map[] ==>
                    DesignedExit(upgrade.plan, upgrade.h0, upgrade.b.host))
  {
    upgrade.Standing();
    hide Upgrade.Valid, Upgrade.Credited, LawfulPath, Truthful, Handled, FailedWith, DesignedExit, Grounded, Stored, Host.Holds;
    upgrade.b.steady := *;
    r, certified := upgrade.Recover();
    upgrade.Standing();
    IdentityExactly(upgrade.plan, upgrade.h0, m.h, m.f, upgrade.recoverySeed, certified, upgrade.rotated);
    if upgrade.h0.symlink != upgrade.plan.target || upgrade.h0.running == map[] {
      DesignedExits(upgrade.plan, upgrade.h0, m.h, m.f, upgrade.recoverySeed, certified);
    }
  }

  method Enter(b: TokyoReleaseBackend, plan: UpgradePlan, p: Preflighted) returns (upgrade: Upgrade)
    requires plan.Valid() && b.Valid() && LawfulPath(plan, b.path) && Ready(plan, b.host, p)
    requires Departs(plan, b.host, b.seen, p.sourceIdentity, p.seed)
    requires p.sourceIdentity.Some? <==> b.host.revision == plan.sourceRevision
    ensures fresh(upgrade) && upgrade.b == b && upgrade.plan == plan && upgrade.h0 == b.host && upgrade.origin == b.path
    ensures upgrade.Valid() && upgrade.f == InitialFlags(plan, b.host) && upgrade.databaseRevision == b.host.revision
    ensures upgrade.Credited() && upgrade.Done(0) && upgrade.before == b.effects
    ensures upgrade.sourceIdentity == p.sourceIdentity && upgrade.seed0 == p.seed
    ensures b.host.revision == plan.sourceRevision || b.host.revision == plan.target.revision
  {
    OpenRecord(plan, b.host);
    upgrade := new Upgrade(b, plan, p.databaseRevision, p.current, p.sourceIdentity, p.seed);
  }
}
