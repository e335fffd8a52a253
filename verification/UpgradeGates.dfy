/** The gates of a compatible upgrade, and what they leave on record. */
module UpgradeGates {
  import opened Wrappers
  import opened TokyoHost
  import opened DeploymentGates
  import opened UpgradeState

  /** A refusal has its grounds in the host and in what was seen of it. */
  ghost predicate Justified(plan: UpgradePlan, h0: Host, b: TokyoReleaseBackend, e: Exn)
    reads b`host, b`seen, b`answers
  {
    e.reason.Blocked? ==> Grounded(plan, h0, b.host, b.seen, b.answers, e.reason.refusal)
  }

  // ----- gates -----

  /** `_read_compatible_source_facts` with its gate. */
  method ReadCompatibleSourceFacts(b: TokyoReleaseBackend, plan: UpgradePlan) returns (r: Result<Certification, Exn>)
    modifies b`calls, b`seen
    ensures Made(old(b.calls), b.calls, r) && old(b.seen) <= b.seen
    ensures r.Ok? ==> Checked(b.seen, b.host, r.value) && r.value.identity == b.host.identity
                      && SourceCertified(plan, r.value, true) && b.host.revision == plan.sourceRevision
    ensures r.Err? ==> forall h0 :: Justified(plan, h0, b, r.error)
  {
    hide IsSeedIdentity;
    var certification :- b.Certify();
    var flat :- b.ProbeExchange();
    if !certification.pass || certification.revision != plan.sourceRevision
       || certification.identity.revision != plan.sourceRevision || !IsSeedIdentity(certification.identity.seed)
       || !IsSeedIdentity(certification.digest) || !flat {
      return Err(Exn(Blocked(SourceNotCertified(certification, flat)), |b.calls|));
    }
    return Ok(certification);
  }

  /** The recovery certification, and the verdict it came to, if it came to one. */
  method CertifyR4Recovery(b: TokyoReleaseBackend, plan: UpgradePlan)
    returns (r: Result<(), Exn>, ghost certified: bool)
    modifies b`calls, b`seen
    ensures Made(old(b.calls), b.calls, r)
    ensures r.Ok? ==> b.host.revision == plan.target.revision
    ensures r.Err? && b.steady ==> r.error.reason.Blocked?
    ensures certified <==> r.Ok?
    ensures b.seen == old(b.seen)
         || exists c :: b.seen == old(b.seen) + [Certified(b.host, c)] && (certified <==> PassesAt(c, plan.target.revision))
    ensures b.steady ==> b.seen != old(b.seen)
    ensures r.Ok? ==> exists c :: Certified(b.host, c) in b.seen && c.pass && c.revision == plan.target.revision
    ensures r.Err? ==> forall h0 :: Justified(plan, h0, b, r.error)
  {
    certified := false;
    var certification :- b.Certify();
    if !certification.pass || certification.revision != plan.target.revision {
      return Err(Exn(Blocked(RecoveryNotCertified(certification)), |b.calls|)), certified;
    }
    return Ok(()), true;
  }

  predicate PassesAt(c: Certification, revision: string) {
    c.pass && c.revision == revision
  }

  /** `_persist_release_compatibility_exact`: an exception of the write is forgiven only when the exact fact is
      read back. */
  method PersistExact(b: TokyoReleaseBackend, plan: UpgradePlan)
    returns (r: Result<(), Exn>, ghost e: Effect, ghost answer: Option<Answer>)
    requires b.Valid()
    modifies b`host, b`calls, b`effects, b`answers, b`path
    ensures b.Valid() && b.path == old(b.path) + [b.host]
    ensures Made(old(b.calls), b.calls, r)
    ensures b.host == old(b.host) || b.host == old(b.host).(facts := old(b.host).facts[plan.fact.id := plan.fact])
    ensures old(b.host).Holds(plan.fact) ==> b.host == old(b.host)
    ensures r.Ok? ==> b.host.Holds(plan.fact)
    ensures r.Err? ==> r.error.reason.CallFailed?
    ensures b.steady ==> b.host == Stored(plan, old(b.host)) && (r.Ok? <==> b.host.Holds(plan.fact))
    // a write that returned is enough; one that raised is read back, and stands exactly if the fact is there
    ensures e.op == Operation.Persist(plan.fact) && b.effects == old(b.effects) + [e]
    ensures e.returned <==> answer.None?
    ensures answer.None? ==> r.Ok? && b.answers == old(b.answers)
    ensures answer.Some? ==>
              && b.answers == old(b.answers) + [answer.value]
              && (answer.value.FactRead? || answer.value.FactReadRaised?) && answer.value.id == plan.fact.id
              && (r.Ok? <==> answer.value == FactRead(plan.fact.id, Some(plan.fact)))
  {
    r := b.PersistCompatibilityFact(plan.fact);
    e, answer := Effect(Operation.Persist(plan.fact), r.Ok?), None;
    if r.Err? {
      var actual := b.ReadCompatibilityFact(plan.fact.id);
      answer := Some(if actual.Ok? then FactRead(plan.fact.id, actual.value) else FactReadRaised(plan.fact.id));
      if actual.Err? {
        r := Err(actual.error);
      } else if actual.value == Some(plan.fact) {
        r := Ok(());
      }
    }
  }

  // ----- what was certified on the way -----

  /** The stopped source was certified and probed, and is what the baseline says of it. */
  ghost predicate BaselineTaken(plan: UpgradePlan, seen: seq<Sight>, baseline: Baseline) {
    exists h, c :: Checked(seen, h, c) && h.Quiescent() && SourceCertified(plan, c, true)
                   && c.digest == baseline.preservationDigest && c.preserved == Some(baseline.preserved)
  }

  /** The migrated database, still stopped, showed the same preservation digest. */
  ghost predicate PreservationSeen(plan: UpgradePlan, seen: seq<Sight>, digest: string) {
    exists h, c :: Certified(h, c) in seen && c.pass && h.Quiescent() && c.revision == plan.target.revision
                   && c.digest == digest
  }

  ghost predicate PreservedAcross(plan: UpgradePlan, seen: seq<Sight>, baseline: Baseline) {
    BaselineTaken(plan, seen, baseline) && PreservationSeen(plan, seen, baseline.preservationDigest)
  }

  /** The recovery certification passed with the fact stored and nothing running. */
  ghost predicate RecoveryCertified(plan: UpgradePlan, seen: seq<Sight>) {
    exists h, c :: Certified(h, c) in seen && c.pass && c.revision == plan.target.revision
                   && h.Holds(plan.fact) && h.running == map[]
  }

  /** The postflight passed on the activated target before any of its services was started, against a baseline
      of exactly this step. */
  ghost predicate PostflightPassed(plan: UpgradePlan, seen: seq<Sight>, baseline: Baseline) {
    && baseline.sourceCommit == plan.fact.fromCommit && baseline.targetCommit == plan.target.commit
    && baseline.sourceRevision == plan.fact.fromRevision && IsSeedIdentity(baseline.preservationDigest)
    && exists h, c :: Checked(seen, h, c) && h.symlink == plan.target && h.running == map[]
                      && h.identity.commit == plan.target.commit && KeepsUniverse(c, baseline)
  }

  /** The host itself was certified and probed, and still shows the universe of the baseline. */
  ghost predicate HostCertified(seen: seq<Sight>, h: Host, baseline: Baseline) {
    exists c :: Checked(seen, h, c) && KeepsUniverse(c, baseline)
  }

  /** The three, for the baseline that stands beside the target on the given host. */
  ghost predicate PreservedOn(plan: UpgradePlan, seen: seq<Sight>, h: Host) {
    plan.target in h.baselines && PreservedAcross(plan, seen, h.baselines[plan.target])
  }

  ghost predicate PostflightOn(plan: UpgradePlan, seen: seq<Sight>, h: Host) {
    plan.target in h.baselines && PostflightPassed(plan, seen, h.baselines[plan.target])
  }

  ghost predicate CertifiedOn(plan: UpgradePlan, seen: seq<Sight>, h: Host) {
    plan.target in h.baselines && HostCertified(seen, h, h.baselines[plan.target])
  }

  /** All of them, on the one baseline beside the target. */
  ghost predicate CertifiedThroughout(plan: UpgradePlan, from: string, seen: seq<Sight>, h: Host) {
    && (from == plan.sourceRevision ==> PreservedOn(plan, seen, h))
    && RecoveryCertified(plan, seen) && PostflightOn(plan, seen, h) && CertifiedOn(plan, seen, h)
  }

  /** What was seen stays seen, and stays true of a host with the same baselines. */
  lemma SightsStay(plan: UpgradePlan, seen: seq<Sight>, seen': seq<Sight>, h: Host, h': Host)
    requires seen <= seen' && h'.baselines == h.baselines
    ensures forall baseline :: BaselineTaken(plan, seen, baseline) ==> BaselineTaken(plan, seen', baseline)
    ensures PreservedOn(plan, seen, h) ==> PreservedOn(plan, seen', h')
    ensures RecoveryCertified(plan, seen) ==> RecoveryCertified(plan, seen')
    ensures PostflightOn(plan, seen, h) ==> PostflightOn(plan, seen', h')
  {
    assert forall x :: x in seen ==> x in seen';
    assert forall h, c :: Checked(seen, h, c) ==> Checked(seen', h, c);
    assert forall baseline :: BaselineTaken(plan, seen, baseline) ==> BaselineTaken(plan, seen', baseline);
    assert forall digest :: PreservationSeen(plan, seen, digest) ==> PreservationSeen(plan, seen', digest);
  }

  lemma PostflightStays(plan: UpgradePlan, seen: seq<Sight>, seen': seq<Sight>, h: Host, h': Host)
    requires seen <= seen' && h'.baselines == h.baselines && PostflightOn(plan, seen, h)
    ensures PostflightOn(plan, seen', h')
  {
    SightsStay(plan, seen, seen', h, h');
  }

  // ----- the checks of the migrated and of the activated target -----

  /** The preservation digest on the other side of the migration. */
  method VerifyPreservation(b: TokyoReleaseBackend, plan: UpgradePlan, baseline: Baseline) returns (r: Result<(), Exn>)
    requires b.host.Quiescent() && BaselineTaken(plan, b.seen, baseline)
    requires plan.target in b.host.baselines && b.host.baselines[plan.target] == baseline
    modifies b`calls, b`seen
    ensures Made(old(b.calls), b.calls, r) && old(b.seen) <= b.seen
    ensures r.Ok? ==> PreservedAcross(plan, b.seen, baseline)
    ensures r.Err? ==> forall h0 :: Justified(plan, h0, b, r.error)
  {
    hide BaselineTaken;
    var preserved :- b.Certify();
    SightsStay(plan, old(b.seen), b.seen, b.host, b.host);
    if !preserved.pass || preserved.revision != plan.target.revision
       || preserved.digest != baseline.preservationDigest {
      return Err(Exn(Blocked(PreservationDiffers(preserved)), |b.calls|));
    }
    assert Certified(b.host, preserved) in b.seen;
    assert PreservationSeen(plan, b.seen, baseline.preservationDigest);
    return Ok(());
  }

  /** The symlink and the markers of the target. */
  method RequireActivated(b: TokyoReleaseBackend, plan: UpgradePlan, seed: string) returns (r: Result<(), Exn>)
    requires b.host.identity.seed == seed
    modifies b`calls
    ensures Made(old(b.calls), b.calls, r)
    ensures r.Ok? ==> b.host.symlink == plan.target
    ensures r.Ok? ==> TargetMarked(plan.target, b.host, seed)
    ensures r.Err? ==> forall h0 :: Justified(plan, h0, b, r.error)
  {
    var _ :- RequireCurrent(b, plan.target);
    r := RequireMarked(b, plan.target, seed);
  }

  /** Certification and probe, both passing, under exactly the target's identity. */
  method RequireIdentity(b: TokyoReleaseBackend, plan: UpgradePlan, seed: string) returns (r: Result<Certification, Exn>)
    requires b.host.identity.seed == seed
    modifies b`calls, b`seen
    ensures Made(old(b.calls), b.calls, r) && old(b.seen) <= b.seen
    ensures r.Ok? ==> Checked(b.seen, b.host, r.value)
                      && b.host.identity == Identity(plan.target.commit, plan.target.revision, seed)
    ensures r.Err? ==> forall h0 :: Justified(plan, h0, b, r.error)
  {
    var c :- b.Certify();
    var flat :- b.ProbeExchange();
    if !c.pass || !flat {
      return Err(Exn(Blocked(NotCertified(c, flat)), |b.calls|));
    }
    var wanted := Identity(plan.target.commit, plan.target.revision, seed);
    if c.identity != wanted {
      return Err(Exn(Blocked(IdentityDiffers(wanted)), |b.calls|));
    }
    return Ok(c);
  }

  /** The exact fact, read back. */
  method RequireFact(b: TokyoReleaseBackend, plan: UpgradePlan) returns (r: Result<(), Exn>, ghost answer: Answer)
    modifies b`calls, b`answers
    ensures Made(old(b.calls), b.calls, r) && b.answers == old(b.answers) + [answer]
    ensures (answer.FactRead? || answer.FactReadRaised?) && answer.id == plan.fact.id
    ensures r.Ok? ==> b.host.Holds(plan.fact)
    ensures r.Err? ==> forall h0 :: Justified(plan, h0, b, r.error)
  {
    var actual := b.ReadCompatibilityFact(plan.fact.id);
    answer := if actual.Ok? then FactRead(plan.fact.id, actual.value) else FactReadRaised(plan.fact.id);
    if actual.Err? {
      r := Err(actual.error);
    } else if actual.value != Some(plan.fact) {
      r := Err(Exn(Blocked(FactDiffers), |b.calls|));
    } else {
      r := Ok(());
    }
  }

  /** `_require_target_postflight` once the fact is read, while the target is still stopped: the exact identity, and a
      baseline of exactly this step. */
  method RequireStopped(b: TokyoReleaseBackend, plan: UpgradePlan, seed: string) returns (r: Result<(), Exn>)
    requires plan.Valid() && b.host.identity.seed == seed && b.host.symlink == plan.target && b.host.running == map[]
    modifies b`calls, b`seen
    ensures Made(old(b.calls), b.calls, r) && old(b.seen) <= b.seen
    ensures r.Ok? ==> PostflightOn(plan, b.seen, b.host)
    ensures r.Err? ==> forall h0 :: Justified(plan, h0, b, r.error)
  {
    hide IsSeedIdentity;
    var c :- RequireIdentity(b, plan, seed);
    var baseline :- b.ReadBaseline(plan.target);
    if baseline.sourceCommit != plan.fact.fromCommit || baseline.targetCommit != plan.target.commit
       || baseline.sourceRevision != plan.fact.fromRevision || !IsSeedIdentity(baseline.preservationDigest) {
      return Err(Exn(Blocked(BaselineDiffers(c)), |b.calls|));
    }
    if !KeepsUniverse(c, baseline) {
      return Err(Exn(Blocked(UniverseDiffers(c)), |b.calls|));
    }
    assert Checked(b.seen, b.host, c);
    return Ok(());
  }

  /** `_require_running_target_postflight`. */
  method RequireRunningPostflight(b: TokyoReleaseBackend, plan: UpgradePlan, seed: string) returns (r: Result<(), Exn>)
    requires b.host.identity.seed == seed
    modifies b`calls, b`seen
    ensures Made(old(b.calls), b.calls, r) && old(b.seen) <= b.seen
    ensures r.Ok? ==> CertifiedOn(plan, b.seen, b.host)
                      && b.host.identity == Identity(plan.target.commit, plan.target.revision, seed)
    ensures r.Err? ==> forall h0 :: Justified(plan, h0, b, r.error)
  {
    var c :- RequireIdentity(b, plan, seed);
    var baseline :- b.ReadBaseline(plan.target);
    if !KeepsUniverse(c, baseline) {
      return Err(Exn(Blocked(UniverseDiffers(c)), |b.calls|));
    }
    assert Checked(b.seen, b.host, c);
    return Ok(());
  }

  /** The checks after the start. */
  method RequireRunning(b: TokyoReleaseBackend, plan: UpgradePlan, seed: string) returns (r: Result<(), Exn>)
    requires b.host.identity.seed == seed
    modifies b`calls, b`seen
    ensures Made(old(b.calls), b.calls, r) && old(b.seen) <= b.seen
    ensures r.Ok? ==>
              && b.host.running.Keys == SAFETY_SERVICES && b.host.EntryHeld() && CertifiedOn(plan, b.seen, b.host)
              && b.host.identity == Identity(plan.target.commit, plan.target.revision, seed)
    ensures r.Err? ==> forall h0 :: Justified(plan, h0, b, r.error)
  {
    hide CertifiedOn;
    var _ :- RequireOnlySafety(b);
    var _ :- RequireRunningPostflight(b, plan, seed);
    var _ :- RequireHeld(b, plan);
    r := RequireOnlySafety(b);
  }

  method RequireHeld(b: TokyoReleaseBackend, plan: UpgradePlan) returns (r: Result<(), Exn>)
    modifies b`calls
    ensures Made(old(b.calls), b.calls, r)
    ensures r.Ok? ==> b.host.EntryHeld()
    ensures r.Err? ==> forall h0 :: Justified(plan, h0, b, r.error)
  {
    var held :- b.EntryIsInactiveDisabledAndFenced();
    if !held {
      return Err(Exn(Blocked(EntryNotHeld), |b.calls|));
    }
    return Ok(());
  }
}
