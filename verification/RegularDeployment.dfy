/** The same-schema path of `deploy_tokyo_release`, its recovery, and `_resume_regular_deployment`. */
module RegularDeployment {
  import opened Wrappers
  import opened TokyoHost
  import opened DeploymentGates
  import opened RegularState

  // ----- the gates -----

  /** `_read_release_facts` with its gate. */
  method ReadReleaseFacts(b: TokyoReleaseBackend, plan: RegularPlan) returns (r: Result<Certification, Exn>)
    modifies b`calls, b`seen
    ensures Made(old(b.calls), b.calls, r) && old(b.seen) <= b.seen
    ensures r.Ok? ==> r.value.identity == b.host.identity && Checked(b.seen, b.host, r.value)
    ensures r.Err? ==> forall h0 :: Justified(plan, h0, b, r.error)
  {
    var c :- b.Certify();
    var flat :- b.ProbeExchange();
    if !c.pass || !flat {
      return Err(Exn(Blocked(NotCertified(c, flat)), |b.calls|));
    }
    return Ok(c);
  }

  /** Certified under the identity read before. */
  method RequireUnchanged(b: TokyoReleaseBackend, plan: RegularPlan, ghost h0: Host, identity: Identity)
    returns (r: Result<Certification, Exn>)
    requires identity == h0.identity
    modifies b`calls, b`seen
    ensures Made(old(b.calls), b.calls, r) && old(b.seen) <= b.seen
    ensures r.Ok? ==> r.value.identity == b.host.identity == identity && Checked(b.seen, b.host, r.value)
    ensures r.Err? ==> Justified(plan, h0, b, r.error)
  {
    var c :- ReadReleaseFacts(b, plan);
    if c.identity != identity {
      return Err(Exn(Blocked(SourceIdentityChanged), |b.calls|));
    }
    return Ok(c);
  }

  /** Certified under exactly the target's identity, with the given seed. */
  method RequireIdentity(b: TokyoReleaseBackend, plan: RegularPlan, seed: string) returns (r: Result<Certification, Exn>)
    requires SeedKnown(plan, b.host, seed)
    modifies b`calls, b`seen
    ensures Made(old(b.calls), b.calls, r) && old(b.seen) <= b.seen
    ensures r.Ok? ==> Checked(b.seen, b.host, r.value)
                      && b.host.identity == Identity(plan.target.commit, plan.target.revision, seed)
    ensures r.Err? ==> forall h0 :: Justified(plan, h0, b, r.error)
  {
    var c :- ReadReleaseFacts(b, plan);
    var wanted := Identity(plan.target.commit, plan.target.revision, seed);
    if c.identity != wanted {
      return Err(Exn(Blocked(IdentityDiffers(wanted)), |b.calls|));
    }
    return Ok(c);
  }

  /** A seed the rotation returned, or the marker of the target. */
  predicate SeedKnown(plan: RegularPlan, h: Host, seed: string) {
    seed == h.identity.seed || ((plan.target, SeedIdentity) in h.markers && seed == h.markers[(plan.target, SeedIdentity)])
  }

  /** `_require_target_postflight`: the exact identity, and, unless the handover is closure-only, a baseline of
      exactly this step with nothing of it changed. */
  method RequireTargetPostflight(b: TokyoReleaseBackend, plan: RegularPlan, seed: string)
    returns (r: Result<Certification, Exn>)
    requires SeedKnown(plan, b.host, seed)
    modifies b`calls, b`seen
    ensures Made(old(b.calls), b.calls, r) && old(b.seen) <= b.seen
    ensures r.Ok? ==>
              && b.host.identity == Identity(plan.target.commit, plan.target.revision, seed)
              && Checked(b.seen, b.host, r.value)
              && (!plan.closureOnly ==> Shows(plan, r.value, b.host) && BaselineOfStep(plan, b.host))
    ensures r.Err? ==> forall h0 :: Justified(plan, h0, b, r.error)
  {
    hide IsCommit, IsSeedIdentity, SeedKnown;
    var c :- RequireIdentity(b, plan, seed);
    if !plan.closureOnly {
      var baseline :- b.ReadBaseline(plan.target);
      if !IsCommit(baseline.sourceCommit) || baseline.targetCommit != plan.target.commit
         || baseline.sourceRevision != plan.target.revision || c.preserved != Some(baseline.preserved)
         || !IsSeedIdentity(baseline.posture) || c.posture != baseline.posture {
        return Err(Exn(Blocked(BaselineDiffers(c)), |b.calls|));
      }
    }
    return Ok(c);
  }

  /** `_require_running_target_postflight`. */
  method RequireRunningPostflight(b: TokyoReleaseBackend, plan: RegularPlan, seed: string) returns (r: Result<(), Exn>)
    requires SeedKnown(plan, b.host, seed)
    modifies b`calls, b`seen
    ensures Made(old(b.calls), b.calls, r) && old(b.seen) <= b.seen
    ensures r.Ok? ==> HostCertified(plan, b.seen, b.host)
                      && b.host.identity == Identity(plan.target.commit, plan.target.revision, seed)
    ensures r.Err? ==> forall h0 :: Justified(plan, h0, b, r.error)
  {
    hide SeedKnown;
    var c :- RequireIdentity(b, plan, seed);
    var baseline :- b.ReadBaseline(plan.target);
    if c.preserved.None? || c.preserved.value.universeDigest != baseline.preserved.universeDigest {
      return Err(Exn(Blocked(UniverseDiffers(c)), |b.calls|));
    }
    if c.posture != baseline.posture {
      return Err(Exn(Blocked(ControlsChanged(c)), |b.calls|));
    }
    assert Checked(b.seen, b.host, c);
    return Ok(());
  }

  method RequireHeld(b: TokyoReleaseBackend, plan: RegularPlan) returns (r: Result<(), Exn>)
    modifies b`calls
    ensures Made(old(b.calls), b.calls, r)
    ensures r.Ok? ==> b.host.EntryHeld()
    ensures r.Err? ==> forall h0 :: Justified(plan, h0, b, r.error)
  {
    var held :- b.EntryIsInactiveDisabledAndFenced();
    if !held {
      return Err(Exn(Blocked(EntryNotHeld), |b.calls|));
    }
    return Ok(());
  }

  /** The symlink and the markers of the target. */
  method RequireActivated(b: TokyoReleaseBackend, plan: RegularPlan, seed: string) returns (r: Result<(), Exn>)
    requires b.host.identity.seed == seed
    modifies b`calls
    ensures Made(old(b.calls), b.calls, r)
    ensures r.Ok? ==> b.host.symlink == plan.target && TargetMarked(plan.target, b.host, seed)
    ensures r.Err? ==> forall h0 :: Justified(plan, h0, b, r.error)
  {
    var _ :- RequireCurrent(b, plan.target);
    r := RequireMarked(b, plan.target, seed);
  }

  // ----- the deployment -----

  class Deployment {
    const b: TokyoReleaseBackend
    const plan: RegularPlan
    ghost const h0: Host
    ghost const origin: seq<Host>     // the states and the effects before the transition
    ghost const before: seq<Effect>
    const currentIdentity: Identity
    var f: Flags
    var failure: Option<Exn>          // the exception the try was left with
    ghost var tried: seq<Effect>      // the effects of the try

    ghost predicate Valid()
      reads this`f, b`host, b`path
    {
      && b.Valid() && Told(plan, h0, b.host, f) && LawfulPath(b.path) && origin <= b.path
      && currentIdentity == h0.identity
    }

    /** What was tried is on the backend's record, follows the script, and has earned the flags. */
    ghost predicate Credited()
      reads this`f, this`tried, b`effects
    {
      b.effects == before + tried && OnRecord(plan, f, tried)
    }

    /** The first n effects of the script are done. */
    ghost predicate Done(n: nat)
      reads this`tried
    {
      |tried| == n && AllReturned(tried)
    }

    ghost predicate Turn(op: Operation)
      reads this`tried
    {
      Due(plan, tried, op)
    }

    /** The place of an operation in the script, counted from the rotation. */
    ghost function FromRotation(k: nat): nat {
      BeforeRotation(plan) + k
    }

    constructor (b: TokyoReleaseBackend, plan: RegularPlan, currentIdentity: Identity)
      ensures this.b == b && this.plan == plan && h0 == b.host && origin == b.path && this.currentIdentity == currentIdentity
      ensures f == Flags(false, false, false) && failure.None? && before == b.effects && tried == []
    {
      this.b, this.plan, this.h0, this.origin, this.currentIdentity := b, plan, b.host, b.path, currentIdentity;
      before, tried := b.effects, [];
      f, failure := Flags(false, false, false), None;
    }

    // ----- the effects -----

    /** One effect more was tried, and the backend knows it. */
    twostate predicate Tried(new e: Effect)
      reads this, b
    {
      && tried == old(tried) + [e] && b.effects == old(b.effects) + [e]
      && f == CreditedBy(old(f), e)
    }

    twostate lemma Credits(new e: Effect)
      requires old(Credited()) && old(Turn(e.op)) && Tried(e)
      ensures Credited() && (e.returned ==> AllReturned(tried))
    {
      TryKeeps(plan, old(f), old(tried), e);
      hide OnRecord;
      assert before + (old(tried) + [e]) == (before + old(tried)) + [e];
    }

    /** What comes next once n effects are done. */
    lemma Comes(n: nat)
      requires Done(n) && n < |Script(plan)|
      ensures Turn(Script(plan)[n])
    {
    }

    method CallFence() returns (r: Result<(), Exn>)
      requires Valid()
      modifies b`host, b`calls, b`effects, b`path
      ensures Valid() && Made(old(b.calls), b.calls, r) && FencedSome(old(b.host), b.host)
      ensures b.effects == old(b.effects) + [Effect(Operation.Fence, r.Ok?)]
      ensures r.Err? ==> !b.steady && r.error.reason.CallFailed? && r.error.at == |b.calls|
    {
      hide Told, LawfulMove, LawfulPath;
      r := b.FenceEntry();
      FenceKeeps(plan, h0, old(b.host), b.host, f);
      PathGrows(old(b.path), b.host);
    }

    method Fence() returns (r: Result<(), Exn>)
      requires Valid() && Credited() && Turn(Operation.Fence)
      modifies this`tried, b`host, b`calls, b`effects, b`path
      ensures Valid() && Credited() && Made(old(b.calls), b.calls, r) && FencedSome(old(b.host), b.host)
      ensures |tried| == |old(tried)| + 1 && (r.Ok? ==> AllReturned(tried))
      ensures r.Err? ==> r.error.reason.CallFailed?
    {
      hide Valid, Credited, Turn, AllReturned, FencedSome;
      r := CallFence();
      ghost var e := Effect(Operation.Fence, r.Ok?);
      tried := tried + [e];
      Credits(e);
    }

    method CallStop() returns (r: Result<(), Exn>)
      requires Valid() && f == Flags(false, false, false)
      modifies this`f, b`host, b`calls, b`effects, b`path
      ensures Valid() && Made(old(b.calls), b.calls, r)
      ensures b.effects == old(b.effects) + [Effect(Operation.Stop(SAFETY_SERVICES, true), r.Ok?)]
      ensures f == Flags(r.Ok?, false, false)
      ensures r.Err? ==> r.error.reason.CallFailed?
    {
      hide Told, LawfulMove, LawfulPath;
      r := b.StopServices(SAFETY_SERVICES, true);
      StopKeeps(plan, h0, old(b.host), b.host, f);
      PathGrows(old(b.path), b.host);
      NoteStopped(plan, h0, b.host, f);
      f := f.(servicesStopped := r.Ok?);
    }

    method Stop() returns (r: Result<(), Exn>)
      requires Valid() && Credited() && Turn(Operation.Stop(SAFETY_SERVICES, true)) && f == Flags(false, false, false)
      modifies this`f, this`tried, b`host, b`calls, b`effects, b`path
      ensures Valid() && Credited() && Made(old(b.calls), b.calls, r)
      ensures |tried| == |old(tried)| + 1 && (r.Ok? ==> AllReturned(tried))
      ensures f == Flags(r.Ok?, false, false)
      ensures r.Err? ==> r.error.reason.CallFailed?
    {
      hide Valid, Credited, Turn, AllReturned, SAFETY_SERVICES;
      r := CallStop();
      ghost var e := Effect(Operation.Stop(SAFETY_SERVICES, true), r.Ok?);
      tried := tried + [e];
      Credits(e);
    }

    method CallRecord(baseline: Baseline) returns (r: Result<(), Exn>)
      requires Valid()
      modifies b`host, b`calls, b`effects, b`path
      ensures Valid() && Made(old(b.calls), b.calls, r) && b.host == old(b.host).(baselines := b.host.baselines)
      ensures b.effects == old(b.effects) + [Effect(Operation.Record(plan.target), r.Ok?)]
      ensures r.Ok? ==> plan.target in b.host.baselines && b.host.baselines[plan.target] == baseline
      ensures r.Err? ==> r.error.reason.CallFailed?
    {
      hide Told, LawfulMove, LawfulPath;
      r := b.RecordPreservedRuntime(plan.target, baseline);
      RecordKeeps(plan, h0, old(b.host), b.host, f);
      PathGrows(old(b.path), b.host);
    }

    method Record(baseline: Baseline) returns (r: Result<(), Exn>)
      requires Valid() && Credited() && Turn(Operation.Record(plan.target))
      modifies this`tried, b`host, b`calls, b`effects, b`path
      ensures Valid() && Credited() && Made(old(b.calls), b.calls, r)
      ensures b.host == old(b.host).(baselines := b.host.baselines)
      ensures |tried| == |old(tried)| + 1 && (r.Ok? ==> AllReturned(tried))
      ensures r.Ok? ==> plan.target in b.host.baselines && b.host.baselines[plan.target] == baseline
      ensures r.Err? ==> r.error.reason.CallFailed?
    {
      hide Valid, Credited, Turn, AllReturned;
      r := CallRecord(baseline);
      ghost var e := Effect(Operation.Record(plan.target), r.Ok?);
      tried := tried + [e];
      Credits(e);
    }

    method CallRotate() returns (r: Result<Identity, Exn>)
      requires Valid() && b.host.running == map[] && b.host.EntryHeld()
      requires !f.identityAttempted && !f.targetReleaseActivated
      modifies this`f, b`host, b`calls, b`effects, b`path
      ensures Valid() && Made(old(b.calls), b.calls, r)
      ensures f == old(f).(identityAttempted := true)
      ensures b.host == old(b.host).(identity := b.host.identity) && b.host.symlink == h0.symlink
      ensures b.effects == old(b.effects) + [Effect(Operation.Rotate(plan.target.commit, plan.target.revision), r.Ok?)]
      ensures r.Ok? ==> r.value == b.host.identity && b.host.identity.commit == plan.target.commit
      ensures r.Err? ==> r.error.reason.CallFailed?
    {
      hide LawfulMove, LawfulPath, Truthful;
      NoteAttempted(plan, h0, b.host, f);
      f := f.(identityAttempted := true);
      ghost var rotated;
      r, rotated := b.DeployIdentity(plan.target.commit, plan.target.revision);
      RotateKeeps(plan, h0, old(b.host), b.host, f);
      PathGrows(old(b.path), b.host);
    }

    method RotateIdentity() returns (r: Result<Identity, Exn>)
      requires Valid() && Credited() && Turn(Operation.Rotate(plan.target.commit, plan.target.revision))
      requires b.host.running == map[] && b.host.EntryHeld() && f == Flags(true, false, false)
      modifies this`f, this`tried, b`host, b`calls, b`effects, b`path
      ensures Valid() && Credited() && Made(old(b.calls), b.calls, r)
      ensures f == Flags(true, true, false)
      ensures b.host == old(b.host).(identity := b.host.identity) && b.host.symlink == h0.symlink
      ensures |tried| == |old(tried)| + 1 && (r.Ok? ==> AllReturned(tried))
      ensures r.Ok? ==> r.value == b.host.identity && b.host.identity.commit == plan.target.commit
      ensures r.Err? ==> r.error.reason.CallFailed?
    {
      hide Valid, Credited, Turn, AllReturned;
      r := CallRotate();
      ghost var e := Effect(Operation.Rotate(plan.target.commit, plan.target.revision), r.Ok?);
      tried := tried + [e];
      Credits(e);
    }

    method CallActivate(seed: string) returns (r: Result<(), Exn>)
      requires Valid() && f.identityAttempted && !f.targetReleaseActivated
      requires b.host.identity.commit == plan.target.commit && b.host.symlink == h0.symlink
      modifies this`f, b`host, b`calls, b`effects, b`path
      ensures Valid() && Made(old(b.calls), b.calls, r)
      ensures f == if r.Ok? then old(f).(targetReleaseActivated := true) else old(f)
      ensures b.host == old(b.host).(markers := b.host.markers, environment := b.host.environment,
                                     units := b.host.units, symlink := b.host.symlink)
      ensures b.effects == old(b.effects) + [Effect(Operation.Activate(plan.target), r.Ok?)]
      ensures r.Ok? ==> b.host.symlink == plan.target
      ensures r.Err? ==> r.error.reason.CallFailed?
    {
      hide Told, LawfulMove, LawfulPath;
      ghost var writes;
      r, writes := b.ActivateRelease(plan.target, seed);
      ActivateKeeps(plan, h0, old(b.host), seed, writes, f);
      PathGrows(old(b.path), b.host);
      if r.Ok? {
        NoteActivated(plan, h0, b.host, f);
        f := f.(targetReleaseActivated := true);
      }
    }

    method Activate(seed: string) returns (r: Result<(), Exn>)
      requires Valid() && Credited() && Turn(Operation.Activate(plan.target)) && f == Flags(true, true, false)
      requires b.host.identity.commit == plan.target.commit && b.host.symlink == h0.symlink
      modifies this`f, this`tried, b`host, b`calls, b`effects, b`path
      ensures Valid() && Credited() && Made(old(b.calls), b.calls, r)
      ensures f == Flags(true, true, r.Ok?)
      ensures b.host == old(b.host).(markers := b.host.markers, environment := b.host.environment,
                                     units := b.host.units, symlink := b.host.symlink)
      ensures |tried| == |old(tried)| + 1 && (r.Ok? ==> AllReturned(tried))
      ensures r.Ok? ==> b.host.symlink == plan.target
      ensures r.Err? ==> r.error.reason.CallFailed?
    {
      hide Valid, Credited, Turn, AllReturned;
      r := CallActivate(seed);
      ghost var e := Effect(Operation.Activate(plan.target), r.Ok?);
      tried := tried + [e];
      Credits(e);
    }

    method CallStart(services: set<Service>) returns (r: Result<(), Exn>)
      requires Valid() && (!f.identityAttempted || f.targetReleaseActivated)
      modifies b`host, b`calls, b`effects, b`path
      ensures Valid() && Made(old(b.calls), b.calls, r) && b.host == old(b.host).(running := b.host.running)
      ensures b.effects == old(b.effects) + [Effect(Operation.Start(services), r.Ok?)]
      ensures r.Ok? ==> b.host == old(b.host).Started(services)
      ensures r.Ok? && services == SAFETY_SERVICES ==> b.host.AllRunning(b.host.symlink)
      ensures r.Err? ==> !b.steady && r.error.reason.CallFailed? && r.error.at == |b.calls|
      ensures b.host.running.Keys <= old(b.host).running.Keys + services
    {
      hide Told, LawfulMove, LawfulPath;
      r := b.StartServices(services);
      StartKeeps(plan, h0, old(b.host), b.host, f, services);
      PathGrows(old(b.path), b.host);
      AreSafety(old(b.host).running.Keys);
    }

    method Start(services: set<Service>) returns (r: Result<(), Exn>)
      requires Valid() && Credited() && Turn(Operation.Start(services)) && f == Flags(true, true, true)
      modifies this`tried, b`host, b`calls, b`effects, b`path
      ensures Valid() && Credited() && Made(old(b.calls), b.calls, r)
      ensures b.host == old(b.host).(running := b.host.running)
      ensures |tried| == |old(tried)| + 1 && (r.Ok? ==> AllReturned(tried))
      ensures r.Ok? ==> b.host == old(b.host).Started(services)
      ensures r.Err? ==> r.error.reason.CallFailed?
      ensures b.host.running.Keys <= old(b.host).running.Keys + services
    {
      hide Valid, Credited, Turn, AllReturned, Host.Started, SAFETY_SERVICES, Host.AllRunning;
      r := CallStart(services);
      ghost var e := Effect(Operation.Start(services), r.Ok?);
      tried := tried + [e];
      Credits(e);
    }

    // ----- the stages -----

    /** Everything is stopped, fenced, and still the source that was read before. */
    method StopSource() returns (r: Result<(), Exn>)
      requires Valid() && Credited() && Done(0) && f == Flags(false, false, false)
      modifies this`f, this`tried, b`host, b`calls, b`effects, b`seen, b`path
      ensures Valid() && Credited() && Made(old(b.calls), b.calls, r)
      ensures r.Err? ==> Justified(plan, h0, b, r.error)
      ensures f == Flags(f.servicesStopped, false, false) && (r.Ok? ==> f.servicesStopped)
      ensures r.Ok? ==> b.host.running == map[] && b.host.EntryHeld() && Done(FromRotation(0))
      ensures old(b.seen) <= b.seen
      ensures r.Ok? ==> SourceRechecked(plan, currentIdentity, b.seen, b.host)
    {
      hide Valid, Credited, Grounded, SourceRechecked;
      var _ :- StopAndFence();
      var _ :- RequireStopped();
      r := RecordSource();
    }

    method StopAndFence() returns (r: Result<(), Exn>)
      requires Valid() && Credited() && Done(0) && f == Flags(false, false, false)
      modifies this`f, this`tried, b`host, b`calls, b`effects, b`path
      ensures Valid() && Credited() && Made(old(b.calls), b.calls, r)
      ensures r.Err? ==> Justified(plan, h0, b, r.error)
      ensures f == Flags(f.servicesStopped, false, false) && (r.Ok? ==> f.servicesStopped && Done(2))
    {
      Comes(0);
      hide Valid, Credited, Turn, AllReturned, Grounded;
      assert Script(plan)[0] == Operation.Stop(SAFETY_SERVICES, true);
      var _ :- Stop();
      Comes(1);
      assert Script(plan)[1] == Operation.Fence;
      var _ :- Fence();
      return Ok(());
    }

    method RequireStopped() returns (r: Result<(), Exn>)
      modifies b`calls
      ensures Made(old(b.calls), b.calls, r)
      ensures r.Ok? ==> b.host.running == map[] && b.host.EntryHeld()
      ensures r.Err? ==> Justified(plan, h0, b, r.error)
    {
      var active :- b.ServicesActive();
      if active != ({}, false) {
        return Err(Exn(Blocked(ServicesNotStopped), |b.calls|));
      }
      var stopped :- b.MigrationWritersStoppedAndEntryFenced();
      if !stopped {
        return Err(Exn(Blocked(WritersNotStopped), |b.calls|));
      }
      return Ok(());
    }

    /** The source certified again, and, unless the handover is closure-only, its baseline recorded. */
    method RecordSource() returns (r: Result<(), Exn>)
      requires Valid() && Credited() && Done(2) && b.host.running == map[] && b.host.EntryHeld()
      requires f == Flags(true, false, false)
      modifies this`tried, b`host, b`calls, b`effects, b`seen, b`path
      ensures Valid() && Credited() && Made(old(b.calls), b.calls, r) && b.host == old(b.host).(baselines := b.host.baselines)
      ensures r.Err? ==> Justified(plan, h0, b, r.error)
      ensures old(b.seen) <= b.seen
      ensures r.Ok? ==> SourceRechecked(plan, currentIdentity, b.seen, b.host) && Done(FromRotation(0))
    {
      Known();
      hide Valid, Credited, Turn, AllReturned, Checked;
      var c :- RequireUnchanged(b, plan, h0, currentIdentity);
      assert Checked(b.seen, b.host, c);
      if plan.closureOnly {
        return Ok(());
      }
      hide Grounded, SourceRechecked;
      r := RecordShown(c);
    }

    method RecordShown(c: Certification) returns (r: Result<(), Exn>)
      requires Valid() && Credited() && Done(2) && b.host.running == map[] && b.host.EntryHeld() && !plan.closureOnly
      requires Checked(b.seen, b.host, c) && c.identity == currentIdentity == b.host.identity
      requires b.calls != [] && b.calls[|b.calls| - 1].Returned?
      modifies this`tried, b`host, b`calls, b`effects, b`path
      ensures Valid() && Credited() && old(b.calls) <= b.calls && b.host == old(b.host).(baselines := b.host.baselines)
      ensures Made(old(b.calls), b.calls, r)
           || (r.Err? && b.calls == old(b.calls) && r.error.reason.Blocked? && r.error.at == |b.calls|)
      ensures r.Err? ==> Justified(plan, h0, b, r.error)
      ensures r.Ok? ==> SourceRechecked(plan, currentIdentity, b.seen, b.host) && Done(FromRotation(0))
    {
      Comes(2);
      assert Script(plan)[2] == Operation.Record(plan.target);
      if c.preserved.None? {
        return Err(Exn(Blocked(PreservedMissing(c)), |b.calls|));
      }
      hide Valid, Credited, Turn, AllReturned, Grounded;
      var baseline := Baseline(c.identity.commit, plan.target.commit, plan.target.revision, "", c.preserved.value, c.posture);
      var _ :- Record(baseline);
      assert Shows(plan, c, b.host);
      return Ok(());
    }

    lemma Known()
      requires Valid()
      ensures currentIdentity == h0.identity
    {
    }

    /** The identity rotation and the activation, checked against the host. */
    method TakeOver() returns (r: Result<string, Exn>)
      requires Valid() && Credited() && Done(FromRotation(0))
      requires f == Flags(true, false, false) && b.host.running == map[] && b.host.EntryHeld()
      modifies this`f, this`tried, b`host, b`calls, b`effects, b`path
      ensures Valid() && Credited() && Made(old(b.calls), b.calls, r)
      ensures r.Err? ==> Justified(plan, h0, b, r.error)
      ensures f == Flags(true, true, f.targetReleaseActivated)
      ensures r.Ok? ==> f.targetReleaseActivated && b.host.running == map[] && b.host.symlink == plan.target
                        && b.host.identity.commit == plan.target.commit && TargetMarked(plan.target, b.host, r.value)
      ensures r.Ok? ==> r.value == b.host.identity.seed && Done(FromRotation(2))
      ensures b.host.baselines == old(b.host).baselines
    {
      hide Valid, Credited, Done, AllReturned, Grounded, IsSeedIdentity, TargetMarked;
      var seed :- RotateChecked();
      var _ :- Switch(seed);
      return Ok(seed);
    }

    method RotateChecked() returns (r: Result<string, Exn>)
      requires Valid() && Credited() && Done(FromRotation(0))
      requires f == Flags(true, false, false) && b.host.running == map[] && b.host.EntryHeld()
      modifies this`f, this`tried, b`host, b`calls, b`effects, b`path
      ensures Valid() && Credited() && Made(old(b.calls), b.calls, r)
      ensures r.Err? ==> Justified(plan, h0, b, r.error)
      ensures f == Flags(true, true, false)
      ensures b.host == old(b.host).(identity := b.host.identity) && b.host.symlink == h0.symlink
      ensures r.Ok? ==> b.host.identity.commit == plan.target.commit && r.value == b.host.identity.seed
                        && IsSeedIdentity(r.value) && Done(FromRotation(1))
    {
      Comes(FromRotation(0));
      assert Script(plan)[FromRotation(0)] == Operation.Rotate(plan.target.commit, plan.target.revision);
      hide Valid, Credited, Turn, AllReturned, Grounded, IsSeedIdentity, Script;
      var identity :- RotateIdentity();
      if !IsSeedIdentity(identity.seed) {
        GroundedInSeed(plan, h0, b.host, b.seen);
        return Err(Exn(Blocked(SeedInvalid(identity.seed)), |b.calls|));
      }
      return Ok(identity.seed);
    }

    method Switch(seed: string) returns (r: Result<(), Exn>)
      requires Valid() && Credited() && Done(FromRotation(1)) && f == Flags(true, true, false)
      requires b.host.identity.commit == plan.target.commit && b.host.symlink == h0.symlink && b.host.identity.seed == seed
      modifies this`f, this`tried, b`host, b`calls, b`effects, b`path
      ensures Valid() && Credited() && Made(old(b.calls), b.calls, r)
      ensures r.Err? ==> Justified(plan, h0, b, r.error)
      ensures f == Flags(true, true, f.targetReleaseActivated)
      ensures b.host == old(b.host).(markers := b.host.markers, environment := b.host.environment,
                                     units := b.host.units, symlink := b.host.symlink)
      ensures r.Ok? ==> f.targetReleaseActivated && b.host.symlink == plan.target && TargetMarked(plan.target, b.host, seed)
                        && Done(FromRotation(2))
    {
      Comes(FromRotation(1));
      assert Script(plan)[FromRotation(1)] == Operation.Activate(plan.target);
      hide Valid, Credited, Turn, AllReturned, Grounded, TargetMarked;
      var _ :- Activate(seed);
      r := RequireActivated(b, plan, seed);
    }

    /** Lifecycle and reconciliation first; observation once the target is certified. */
    method StartTarget(seed: string) returns (r: Result<(), Exn>)
      requires Valid() && Credited() && Done(FromRotation(2)) && b.host.identity.seed == seed
      requires f == Flags(true, true, true) && b.host.running == map[] && b.host.symlink == plan.target
      modifies this`tried, b`host, b`calls, b`effects, b`seen, b`path
      ensures Valid() && Credited() && Made(old(b.calls), b.calls, r) && old(b.seen) <= b.seen
      ensures r.Err? ==> Justified(plan, h0, b, r.error)
      ensures b.host.baselines == old(b.host).baselines && b.host.markers == old(b.host).markers
      ensures b.host.identity == old(b.host).identity
      ensures r.Ok? ==> b.host.running.Keys == SAFETY_SERVICES && PostflightPassed(plan, b.seen, b.host) && Done(FromRotation(4))
      ensures r.Ok? && !plan.closureOnly ==> HostCertified(plan, b.seen, b.host)
    {
      hide Valid, Credited, Grounded, PostflightPassed, HostCertified, FromRotation, AllReturned;
      var _ :- StartCertified(seed);
      ghost var seen, h := b.seen, b.host;
      var _ :- StartObservation();
      var _ :- RequireStarted(seed);
      SightsStay(plan, currentIdentity, seen, b.seen, h, b.host);
      return Ok(());
    }

    /** Without observation yet, the target's postflight. */
    method StartCertified(seed: string) returns (r: Result<(), Exn>)
      requires Valid() && Credited() && Done(FromRotation(2)) && b.host.identity.seed == seed
      requires f == Flags(true, true, true) && b.host.running == map[] && b.host.symlink == plan.target
      modifies this`tried, b`host, b`calls, b`effects, b`seen, b`path
      ensures Valid() && Credited() && Made(old(b.calls), b.calls, r) && old(b.seen) <= b.seen
      ensures r.Err? ==> Justified(plan, h0, b, r.error)
      ensures b.host == old(b.host).(running := b.host.running)
      ensures r.Ok? ==> PostflightPassed(plan, b.seen, b.host) && Done(FromRotation(3))
    {
      hide Valid, Credited, Done, AllReturned, Grounded, PostflightPassed;
      var _ :- StartOthers();
      r := Postflight(seed);
    }

    /** Lifecycle and reconciliation. */
    method StartOthers() returns (r: Result<(), Exn>)
      requires Valid() && Credited() && Done(FromRotation(2))
      requires f == Flags(true, true, true) && b.host.running == map[]
      modifies this`tried, b`host, b`calls, b`effects, b`path
      ensures Valid() && Credited() && Made(old(b.calls), b.calls, r)
      ensures r.Err? ==> Justified(plan, h0, b, r.error)
      ensures b.host == old(b.host).(running := b.host.running)
      ensures r.Ok? ==> Observation !in b.host.running && Done(FromRotation(3))
    {
      Comes(FromRotation(2));
      assert Script(plan)[FromRotation(2)] == Operation.Start({Lifecycle, Reconciliation});
      hide Valid, Credited, Turn, AllReturned, Grounded, Host.Started, Script, SAFETY_SERVICES;
      r := Start({Lifecycle, Reconciliation});
    }

    method StartObservation() returns (r: Result<(), Exn>)
      requires Valid() && Credited() && Done(FromRotation(3)) && f == Flags(true, true, true)
      modifies this`tried, b`host, b`calls, b`effects, b`path
      ensures Valid() && Credited() && Made(old(b.calls), b.calls, r)
      ensures r.Err? ==> Justified(plan, h0, b, r.error)
      ensures b.host == old(b.host).(running := b.host.running)
      ensures r.Ok? ==> Done(FromRotation(4))
    {
      Comes(FromRotation(3));
      assert Script(plan)[FromRotation(3)] == Operation.Start(SAFETY_SERVICES);
      hide Valid, Credited, Turn, AllReturned, Grounded, Host.Started, Script;
      var _ :- Start(SAFETY_SERVICES);
      return Ok(());
    }

    /** The wait for a current certification, and `_require_target_postflight`, before observation is started. */
    method Postflight(seed: string) returns (r: Result<(), Exn>)
      requires b.host.symlink == plan.target && Observation !in b.host.running && b.host.identity.seed == seed
      modifies b`calls, b`seen
      ensures Made(old(b.calls), b.calls, r) && old(b.seen) <= b.seen
      ensures r.Ok? ==> PostflightPassed(plan, b.seen, b.host)
      ensures r.Err? ==> Justified(plan, h0, b, r.error)
    {
      if !plan.closureOnly {
        var _ :- b.AwaitCurrentCertification();
        assert Awaited(b.host) in b.seen;
      }
      hide Grounded, BaselineOfStep, Checked;
      ghost var seen := b.seen;
      var c :- RequireTargetPostflight(b, plan, seed);
      assert seen <= b.seen && Checked(b.seen, b.host, c);
      return Ok(());
    }

    method RequireStarted(seed: string) returns (r: Result<(), Exn>)
      requires b.host.identity.seed == seed
      modifies b`calls, b`seen
      ensures Made(old(b.calls), b.calls, r) && old(b.seen) <= b.seen
      ensures r.Ok? ==> b.host.running.Keys == SAFETY_SERVICES && !b.host.entryRunning
      ensures r.Ok? && !plan.closureOnly ==> HostCertified(plan, b.seen, b.host)
      ensures r.Ok? && plan.closureOnly ==> b.host.EntryHeld()
      ensures r.Err? ==> Justified(plan, h0, b, r.error)
    {
      hide HostCertified;
      if !plan.closureOnly {
        var _ :- RequireRunningPostflight(b, plan, seed);
      } else {
        var _ :- RequireHeld(b, plan);
      }
      r := RequireOnlySafety(b);
    }

    /** The try: its body, and the exception it is left with. */
    method Transition() returns (r: Result<(), Exn>)
      requires Valid() && Credited() && Done(0) && f == Flags(false, false, false)
      modifies this`f, this`tried, this`failure, b`host, b`calls, b`effects, b`seen, b`path
      ensures Valid() && Credited() && Made(old(b.calls), b.calls, r) && old(b.seen) <= b.seen
      ensures failure == if r.Err? then Some(r.error) else None
      ensures r.Err? ==> Justified(plan, h0, b, r.error)
      ensures f.identityAttempted ==> f.servicesStopped
      ensures r.Ok? ==>
                && f == Flags(true, true, true) && b.host.running.Keys == SAFETY_SERVICES && Done(FromRotation(4))
                && CertifiedThroughout(plan, currentIdentity, b.seen, b.host)
                && TargetMarked(plan.target, b.host, b.host.identity.seed)
    {
      hide Valid, Credited, FromRotation, AllReturned, Grounded, TargetMarked, CertifiedThroughout;
      r := Body();
      failure := if r.Err? then Some(r.error) else None;
    }

    method Body() returns (r: Result<(), Exn>)
      requires Valid() && Credited() && Done(0) && f == Flags(false, false, false)
      modifies this`f, this`tried, b`host, b`calls, b`effects, b`seen, b`path
      ensures Valid() && Credited() && Made(old(b.calls), b.calls, r)
      ensures r.Err? ==> Justified(plan, h0, b, r.error)
      ensures f.identityAttempted ==> f.servicesStopped
      ensures r.Ok? ==> f == Flags(true, true, true) && b.host.running.Keys == SAFETY_SERVICES && Done(FromRotation(4))
      ensures old(b.seen) <= b.seen
      ensures r.Ok? ==> CertifiedThroughout(plan, currentIdentity, b.seen, b.host)
      ensures r.Ok? ==> TargetMarked(plan.target, b.host, b.host.identity.seed)
    {
      hide Valid, Credited, FromRotation, AllReturned, Grounded, TargetMarked, SourceRechecked, PostflightPassed, HostCertified;
      var _ :- StopSource();
      ghost var seen, stopped := b.seen, b.host;
      var seed :- TakeOver();
      ghost var h := b.host;
      r := StartTarget(seed);
      MarkedStays(plan.target, h, b.host, seed);
      SightsStay(plan, currentIdentity, seen, b.seen, stopped, b.host);
    }

    /** The handler, entered once the services were stopped. */
    method Recover() returns (r: Result<(), Exn>, ghost handled: seq<Effect>)
      requires Valid() && f.servicesStopped
      modifies b`host, b`calls, b`effects, b`path
      ensures Valid() && Made(old(b.calls), b.calls, r)
      ensures b.effects == old(b.effects) + handled && (r.Ok? ==> handled == RecoveryOf(f))
      ensures r.Err? ==>
                && r.error == Exn(CallFailed, |b.calls|)
                && (|| handled == [Effect(Operation.Fence, false)]
                    || (RecoversServices(f)
                        && handled == [Effect(Operation.Fence, true), Effect(Operation.Start(SAFETY_SERVICES), false)]))
      ensures b.steady ==> r.Ok? && Recovered(plan, h0, b.host, f)
    {
      hide Valid, Recovered, SAFETY_SERVICES;
      r := CallFence();
      handled := [Effect(Operation.Fence, r.Ok?)];
      if r.Err? {
        return;
      }
      if f.targetReleaseActivated || !f.identityAttempted {
        r := CallStart(SAFETY_SERVICES);
        handled := handled + [Effect(Operation.Start(SAFETY_SERVICES), r.Ok?)];
        if r.Err? {
          return;
        }
      }
      Settled();
    }

    lemma Settled()
      requires Valid()
      requires !f.identityAttempted || f.targetReleaseActivated ==> b.host.AllRunning(b.host.symlink)
      ensures Recovered(plan, h0, b.host, f)
    {
    }

    /** What a standing deployment says of the host. */
    lemma Standing()
      requires Valid()
      ensures b.Valid() && LawfulPath(b.path) && origin <= b.path && Truthful(b.host)
      ensures Told(plan, h0, b.host, f)
    {
    }

    /** What the record of a try says. */
    lemma Recorded()
      requires Credited()
      ensures b.effects == before + tried && OnRecord(plan, f, tried)
      ensures Done(FromRotation(4)) ==> |tried| == |Script(plan)| && AllReturned(tried)
    {
    }

    /** After a success the target runs, and ENTRY is where the stop left it. */
    lemma Succeeded()
      requires Valid() && f == Flags(true, true, true) && b.host.running.Keys == SAFETY_SERVICES
      ensures Recovered(plan, h0, b.host, f) && b.host.EntryHeld()
    {
    }
  }

  // ----- the whole deployment -----

  /** What a resumed deployment has checked: the certified target, exactly as its baseline preserved it. */
  ghost predicate Resumable(plan: RegularPlan, seen: seq<Sight>, h: Host) {
    && !plan.enableEntry && !plan.closureOnly
    && h.EntryHeld() && h.running.Keys == SAFETY_SERVICES
    && h.identity.commit == plan.target.commit && h.identity.revision == plan.target.revision
    && TargetMarked(plan.target, h, h.identity.seed) && BaselineOfStep(plan, h)
    && Awaited(h) in seen && exists c :: Checked(seen, h, c) && Shows(plan, c, h)
  }

  /** A run whose target is already current changes nothing; it certifies what is there. */
  method ResumeRegularDeployment(b: TokyoReleaseBackend, plan: RegularPlan) returns (r: Result<(), Exn>)
    requires b.host.symlink == plan.target
    modifies b`calls, b`seen
    ensures Made(old(b.calls), b.calls, r)
         || (r.Err? && b.calls == old(b.calls) && r.error.at == |b.calls| && r.error.reason.Blocked?)
    ensures r.Ok? ==> Resumable(plan, b.seen, b.host)
    ensures old(b.seen) <= b.seen
    ensures r.Err? ==> Justified(plan, b.host, b, r.error)
  {
    if plan.enableEntry {
      return Err(Exn(Blocked(EntryRequested), |b.calls|));
    }
    if plan.closureOnly {
      return Err(Exn(Blocked(ClosureCannotResume), |b.calls|));
    }
    hide IsSeedIdentity, Checked, TargetMarked, Shows, Grounded, BaselineOfStep;
    var seed :- RequireResumable(b, plan);
    MarkedSeed(plan, b.host, seed);
    var _ :- RequireSafety(b, plan);
    var _ :- b.AwaitCurrentCertification();
    assert Awaited(b.host) in b.seen;
    ghost var seen := b.seen;
    var c :- RequireTargetPostflight(b, plan, seed);
    assert seen <= b.seen;
    assert Checked(b.seen, b.host, c) && Shows(plan, c, b.host);
    return Ok(());
  }

  lemma MarkedSeed(plan: RegularPlan, h: Host, seed: string)
    requires TargetMarked(plan.target, h, seed)
    ensures SeedKnown(plan, h, seed)
  {
  }

  method RequireSafety(b: TokyoReleaseBackend, plan: RegularPlan) returns (r: Result<(), Exn>)
    modifies b`calls
    ensures Made(old(b.calls), b.calls, r)
    ensures r.Ok? ==> b.host.running.Keys == SAFETY_SERVICES && !b.host.entryRunning
    ensures r.Err? ==> forall h0 :: Justified(plan, h0, b, r.error)
  {
    r := RequireOnlySafety(b);
  }

  /** ENTRY held, and the markers of the target in place. */
  method RequireResumable(b: TokyoReleaseBackend, plan: RegularPlan) returns (r: Result<string, Exn>)
    requires b.host.symlink == plan.target
    modifies b`calls
    ensures Made(old(b.calls), b.calls, r)
    ensures r.Ok? ==> b.host.EntryHeld() && TargetMarked(plan.target, b.host, r.value)
    ensures r.Err? ==> forall h0 :: Justified(plan, h0, b, r.error)
  {
    hide IsSeedIdentity;
    var _ :- RequireHeld(b, plan);
    var _ :- RequireMarker(b, plan.target, RuntimeCommit, plan.target.commit);
    var _ :- RequireMarker(b, plan.target, SchemaRevision, plan.target.revision);
    var seed :- b.ReadReleaseMarker(plan.target, SeedIdentity);
    if !IsSeedIdentity(seed) {
      return Err(Exn(Blocked(SeedInvalid(seed)), |b.calls|));
    }
    return Ok(seed);
  }

  /** The current release is the one the database knows, and its markers say so. */
  ghost predicate Departs(plan: RegularPlan, h: Host, seen: seq<Sight>) {
    && (exists c :: Checked(seen, h, c))
    && (h.symlink, RuntimeCommit) in h.markers && h.markers[(h.symlink, RuntimeCommit)] == h.identity.commit
    && (h.symlink, SchemaRevision) in h.markers && h.markers[(h.symlink, SchemaRevision)] == plan.target.revision
  }

  lemma DepartsStill(plan: RegularPlan, h: Host, seen: seq<Sight>, seen': seq<Sight>)
    requires Departs(plan, h, seen) && seen <= seen'
    ensures Departs(plan, h, seen')
  {
    assert forall x :: x in seen ==> x in seen';
    assert forall c :: Checked(seen, h, c) ==> Checked(seen', h, c);
  }

  /** Before the try: the target is installed, and the current release is the one the database knows. */
  method Preflight(b: TokyoReleaseBackend, plan: RegularPlan, current: Release) returns (r: Result<Identity, Exn>)
    requires b.Valid() && LawfulPath(b.path) && Truthful(b.host) && current == b.host.symlink != plan.target
    modifies b`host, b`calls, b`effects, b`seen, b`path
    ensures b.Valid() && LawfulPath(b.path) && old(b.path) <= b.path && Made(old(b.calls), b.calls, r)
    ensures b.host == old(b.host).(installed := b.host.installed, markers := b.host.markers, baselines := b.host.baselines)
    ensures Truthful(b.host) && old(b.seen) <= b.seen
    ensures exists returned :: b.effects == old(b.effects) + [Effect(Install(plan.target), returned)] && (r.Ok? ==> returned)
    ensures r.Ok? ==> Told(plan, b.host, b.host, Flags(false, false, false)) && r.value == b.host.identity
    ensures r.Ok? ==> Departs(plan, b.host, b.seen)
    ensures r.Err? ==> Justified(plan, b.host, b, r.error)
  {
    hide LawfulPath, LawfulMove, Erased, Grounded, Departs;
    var installed := b.InstallRelease(plan.target);
    assert b.effects == old(b.effects) + [Effect(Install(plan.target), installed.Ok?)];
    InstallKeeps(plan, old(b.host), b.host);
    PathGrows(old(b.path), b.host);
    if installed.Err? {
      return Err(installed.error);
    }
    r := CheckCurrent(b, plan, current);
  }

  method CheckCurrent(b: TokyoReleaseBackend, plan: RegularPlan, current: Release) returns (r: Result<Identity, Exn>)
    requires Truthful(b.host) && current == b.host.symlink != plan.target
    modifies b`calls, b`seen
    ensures Made(old(b.calls), b.calls, r) && old(b.seen) <= b.seen
    ensures r.Ok? ==> Told(plan, b.host, b.host, Flags(false, false, false)) && r.value == b.host.identity
    ensures r.Ok? ==> Departs(plan, b.host, b.seen)
    ensures r.Err? ==> Justified(plan, b.host, b, r.error)
  {
    hide Checked;
    var c :- ReadReleaseFacts(b, plan);
    var _ :- RequireMarker(b, current, RuntimeCommit, c.identity.commit);
    var _ :- RequireMarker(b, current, SchemaRevision, plan.target.revision);
    return Ok(c.identity);
  }

  /** The end of the try: the host, the flags, what had been seen, and the effects of the try. */
  datatype Moment = Moment(h: Host, f: Flags, seen: seq<Sight>, effects: seq<Effect>)

  /** An exception of one of the calls made since, or a refusal. */
  predicate RaisedSince(before: seq<Outcome>, calls: seq<Outcome>, e: Exn) {
    |before| < e.at <= |calls| && (e.reason.CallFailed? <==> calls[e.at - 1].Raised?)
  }

  /** `deploy_tokyo_release` in regular mode. Every state on the way is coherent, recovery included: services
      only ever run from the current release with the database at that release's commit, and the state it ends in
      is one a deployment can start from. A deployment that returns leaves the certified target running and ENTRY
      held, after exactly the effects of the script; a resumed one has found the target as its baseline preserved it.
      One that raises after its services were stopped, and meets no further fault, raises what the try was left with,
      and leaves the source running, the target running, or, when the identity rotation was tried and the activation
      did not return, nothing running. An exception of the handler takes the original's place. A refusal has its
      grounds. */
  method DeployTokyoRelease(b: TokyoReleaseBackend, plan: RegularPlan)
    returns (r: Result<(), Exn>, ghost run: Option<Deployment>, ghost m: Moment)
    requires b.Valid() && LawfulPath(b.path) && Truthful(b.host)
    modifies b
    ensures b.Valid() && LawfulPath(b.path) && old(b.path) <= b.path && Truthful(b.host)
    ensures plan.enableEntry ==> r.Err? && b.host == old(b.host) && b.calls == old(b.calls)
    // before the try, or without one
    ensures run.None? ==>
              && b.host == old(b.host).(installed := b.host.installed, markers := b.host.markers, baselines := b.host.baselines)
              && (r.Err? ==> Justified(plan, b.host, b, r.error))
              && (r.Ok? ==> old(b.host).symlink == plan.target && b.host == old(b.host) && b.effects == old(b.effects)
                            && Resumable(plan, b.seen, b.host))
    ensures old(b.host).symlink == plan.target ==> run.None? && b.host == old(b.host) && b.effects == old(b.effects)
    ensures run.Some? ==>
              && fresh(run.value) && run.value.b == b && run.value.plan == plan
              && run.value.h0 == old(b.host).(installed := run.value.h0.installed, markers := run.value.h0.markers,
                                              baselines := run.value.h0.baselines)
              && Told(plan, run.value.h0, b.host, m.f) && Departs(plan, run.value.h0, b.seen)
              && run.value.before == old(b.effects) + [Effect(Install(plan.target), true)]
              && OnRecord(plan, m.f, m.effects) && run.value.before + m.effects <= b.effects
    // a success
    ensures r.Ok? ==>
              && b.host.EntryHeld() && b.host.AllRunning(plan.target)
              && b.host.identity.commit == plan.target.commit
              && TargetMarked(plan.target, b.host, b.host.identity.seed)
    ensures r.Ok? && run.Some? ==>
              && run.value.failure.None? && CertifiedThroughout(plan, old(b.host).identity, b.seen, b.host)
              && b.effects == run.value.before + m.effects && |m.effects| == |Script(plan)| && AllReturned(m.effects)
    // a failure
    ensures r.Err? && b.calls != old(b.calls) ==> RaisedSince(old(b.calls), b.calls, r.error)
    ensures r.Err? && run.Some? ==>
              && run.value.failure.Some? && RaisedSince(old(b.calls), b.calls, run.value.failure.value)
              && (run.value.failure.value.reason.Blocked? ==>
                    Grounded(plan, run.value.h0, m.h, m.seen, run.value.failure.value.reason.refusal))
              && (m.f.identityAttempted ==> m.f.servicesStopped)
              && (!m.f.servicesStopped ==>
                    r.error == run.value.failure.value && b.host == m.h && b.effects == run.value.before + m.effects)
    ensures r.Err? && run.Some? && m.f.servicesStopped ==> HandledSo(plan, run.value, m, b.effects, |b.calls|, r.error)
    ensures r.Err? && run.Some? && m.f.servicesStopped && b.steady ==>
              r.error == run.value.failure.value && Recovered(plan, run.value.h0, b.host, m.f)
  {
    hide LawfulPath, Told, Truthful, Recovered, TargetMarked, CertifiedThroughout, Grounded, Departs, OnRecord, Script,
      AllReturned, HandledSo, Resumable, SAFETY_SERVICES, Host.EntryHeld, Host.AllRunning, Host.Quiescent;
    run := None;
    m := Moment(b.host, Flags(false, false, false), b.seen, []);
    if plan.enableEntry {
      EntryIsRequested(plan, b.host, b.seen);
      r := Err(Exn(Blocked(EntryRequested), |b.calls|));
      return;
    }
    var current := b.ReadCurrentRelease();
    if current.Err? {
      return Err(current.error), run, m;
    }
    if current.value == plan.target {
      r := ResumeRegularDeployment(b, plan);
      ResumedIsRunning(plan, b.seen, b.host);
      return;
    }
    var preflight := Preflight(b, plan, current.value);
    if preflight.Err? {
      return Err(preflight.error), run, m;
    }
    var deployment := Enter(b, plan, preflight.value);
    run := Some(deployment);
    ghost var seen := b.seen;
    r, m := Try(deployment);
    if r.Err? && deployment.f.servicesStopped {
      r := Handle(deployment, m, r.error);
    }
    DepartsStill(plan, deployment.h0, seen, b.seen);
  }

  lemma EntryIsRequested(plan: RegularPlan, h: Host, seen: seq<Sight>)
    requires plan.enableEntry
    ensures Grounded(plan, h, h, seen, EntryRequested)
  {
  }

  lemma ResumedIsRunning(plan: RegularPlan, seen: seq<Sight>, h: Host)
    requires Truthful(h) && h.symlink == plan.target
    ensures Resumable(plan, seen, h) ==>
              && h.AllRunning(plan.target) && h.EntryHeld() && h.identity.commit == plan.target.commit
              && TargetMarked(plan.target, h, h.identity.seed) && !plan.enableEntry
  {
    hide TargetMarked;
  }

  /** What the handler did beyond the try, and what is raised: everything, and the original exception; or up to a call
      that raised, and its exception. */
  ghost predicate HandledSo(plan: RegularPlan, run: Deployment, m: Moment, effects: seq<Effect>, calls: nat, e: Exn)
    reads run
  {
    exists handled ::
      && effects == run.before + m.effects + handled
      && (|| (handled == RecoveryOf(m.f) && run.failure == Some(e))
          || (&& e == Exn(CallFailed, calls)
              && (|| handled == [Effect(Fence, false)]
                  || (RecoversServices(m.f)
                      && handled == [Effect(Fence, true), Effect(Start(SAFETY_SERVICES), false)]))))
  }

  method Enter(b: TokyoReleaseBackend, plan: RegularPlan, identity: Identity) returns (deployment: Deployment)
    requires b.Valid() && LawfulPath(b.path) && Told(plan, b.host, b.host, Flags(false, false, false))
    requires identity == b.host.identity
    ensures fresh(deployment) && deployment.b == b && deployment.plan == plan && deployment.h0 == b.host
    ensures deployment.origin == b.path && deployment.before == b.effects && deployment.currentIdentity == identity
    ensures deployment.Valid() && deployment.Credited() && deployment.Done(0) && deployment.f == Flags(false, false, false)
  {
    OpenRecord(plan);
    deployment := new Deployment(b, plan, identity);
  }

  /** The try, and the moment it ends in. */
  method Try(d: Deployment) returns (r: Result<(), Exn>, ghost m: Moment)
    requires d.Valid() && d.Credited() && d.Done(0) && d.f == Flags(false, false, false)
    modifies d`f, d`tried, d`failure, d.b`host, d.b`calls, d.b`effects, d.b`seen, d.b`path
    ensures d.Valid() && d.Credited() && Made(old(d.b.calls), d.b.calls, r) && old(d.b.seen) <= d.b.seen
    ensures m == Moment(d.b.host, d.f, d.b.seen, d.tried) && d.b.effects == d.before + m.effects
    ensures d.failure == if r.Err? then Some(r.error) else None
    ensures d.b.Valid() && LawfulPath(d.b.path) && d.origin <= d.b.path && Truthful(d.b.host) && Told(d.plan, d.h0, d.b.host, d.f)
    ensures OnRecord(d.plan, m.f, m.effects)
    ensures r.Err? && r.error.reason.Blocked? ==> Grounded(d.plan, d.h0, m.h, m.seen, r.error.reason.refusal)
    ensures m.f.identityAttempted ==> m.f.servicesStopped
    ensures r.Ok? ==>
              && m.h.EntryHeld() && m.h.AllRunning(d.plan.target) && m.h.identity.commit == d.plan.target.commit
              && CertifiedThroughout(d.plan, d.h0.identity, m.seen, m.h)
              && TargetMarked(d.plan.target, m.h, m.h.identity.seed)
              && |m.effects| == |Script(d.plan)| && AllReturned(m.effects)
  {
    d.Known();
    hide Deployment.Valid, Deployment.Credited, Deployment.Done, Deployment.FromRotation, LawfulPath, Told, Truthful,
      Recovered, TargetMarked, CertifiedThroughout, Grounded, OnRecord, Script, AllReturned;
    r := d.Transition();
    d.Standing();
    d.Recorded();
    if r.Ok? {
      d.Succeeded();
      RecoveredTarget(d.plan, d.h0, d.b.host, d.f);
    }
    m := Moment(d.b.host, d.f, d.b.seen, d.tried);
  }

  lemma RecoveredTarget(plan: RegularPlan, h0: Host, h: Host, f: Flags)
    requires Recovered(plan, h0, h, f) && f.targetReleaseActivated
    ensures h.AllRunning(plan.target) && h.identity.commit == plan.target.commit
  {
  }

  /** The handler, and what it leaves and raises. */
  method Handle(d: Deployment, ghost m: Moment, original: Exn) returns (r: Result<(), Exn>)
    requires d.Valid() && d.f.servicesStopped && d.failure == Some(original) && m.f == d.f
    requires d.b.effects == d.before + m.effects && original.at <= |d.b.calls|
    modifies d.b`steady, d.b`host, d.b`calls, d.b`effects, d.b`path
    ensures r.Err? && old(d.b.calls) <= d.b.calls
    ensures r.error == original || (r.error == Exn(CallFailed, |d.b.calls|) && RaisedSince(old(d.b.calls), d.b.calls, r.error))
    ensures d.b.Valid() && LawfulPath(d.b.path) && d.origin <= d.b.path && Truthful(d.b.host) && Told(d.plan, d.h0, d.b.host, d.f)
    ensures old(d.b.effects) <= d.b.effects && HandledSo(d.plan, d, m, d.b.effects, |d.b.calls|, r.error)
    ensures d.b.steady ==> r.error == original && Recovered(d.plan, d.h0, d.b.host, d.f)
  {
    hide Deployment.Valid, LawfulPath, Told, Truthful, Recovered, SAFETY_SERVICES;
    d.b.steady := *;
    ghost var handled;
    var recovery;
    recovery, handled := d.Recover();
    d.Standing();
    r := Err(if recovery.Err? then recovery.error else original);
  }
}
