/** What a regular deployment knows of the host: the lawful moves, what the flags of the same-schema path tell, what
    its calls say, what its refusals are grounded in, and the exits. */
module RegularState {
  import opened Wrappers
  import opened TokyoHost
  import opened DeploymentGates

  datatype RegularPlan = RegularPlan(target: Release, closureOnly: bool, enableEntry: bool)

  // ----- safety of every state -----

  /** Whatever runs was started from the current release, with that release's environment and unit files, and
      the database knows that release's commit. */
  predicate Coherent(h: Host) {
    && (forall s <- h.running :: h.running[s] == h.symlink)
    && (h.running != map[] ==> h.symlink.commit == h.identity.commit && h.Equipped())
  }

  /** What a deployment takes for granted, and what every state of one provides again: coherence, true markers of
      the current release where it has them, and, where the database knows that release, its own environment and
      unit files. */
  predicate Truthful(h: Host) {
    && Coherent(h)
    && ((h.symlink, RuntimeCommit) in h.markers ==> h.markers[(h.symlink, RuntimeCommit)] == h.symlink.commit)
    && ((h.symlink, SchemaRevision) in h.markers ==> h.markers[(h.symlink, SchemaRevision)] == h.symlink.revision)
    && (h.symlink.commit == h.identity.commit ==> h.Equipped())
  }

  /** The fence and ENTRY only tighten, the schema stays, and identity and symlink change only while stopped. */
  predicate LawfulMove(h: Host, h': Host) {
    && Truthful(h') && h'.revision == h.revision
    && (h.fenced ==> h'.fenced) && (h'.entryRunning ==> h.entryRunning) && (h'.entryEnabled ==> h.entryEnabled)
    && (h'.identity != h.identity || h'.symlink != h.symlink ==> h.running == map[] && !h.entryRunning)
  }

  ghost predicate LawfulPath(path: seq<Host>) {
    forall i | 0 < i < |path| :: LawfulMove(path[i - 1], path[i])
  }

  // ----- what the local flags tell about the host -----

  datatype Flags = Flags(servicesStopped: bool, identityAttempted: bool, targetReleaseActivated: bool)

  predicate Told(plan: RegularPlan, h0: Host, h: Host, f: Flags) {
    && Truthful(h) && h.revision == h0.revision
    && h0.symlink.commit == h0.identity.commit && h0.symlink.commit != plan.target.commit
    && (!f.identityAttempted ==>
          h.identity == h0.identity && h.symlink == h0.symlink && h.environment == h0.environment && h.units == h0.units)
    && (f.identityAttempted && !f.targetReleaseActivated ==> h.running == map[] && !h.entryRunning)
    && (f.identityAttempted ==> h.EntryHeld())
    && (h.symlink == h0.symlink || (h.symlink == plan.target && h.identity.commit == plan.target.commit))
    && (f.targetReleaseActivated ==>
          f.identityAttempted && h.symlink == plan.target && h.identity.commit == plan.target.commit)
  }

  lemma PathGrows(path: seq<Host>, h: Host)
    requires path != [] && LawfulPath(path) && LawfulMove(path[|path| - 1], h)
    ensures LawfulPath(path + [h])
  {
    hide LawfulMove;
  }

  lemma FenceKeeps(plan: RegularPlan, h0: Host, h: Host, h': Host, f: Flags)
    requires Told(plan, h0, h, f) && FencedSome(h, h')
    ensures Told(plan, h0, h', f) && LawfulMove(h, h')
  {
  }

  lemma StopKeeps(plan: RegularPlan, h0: Host, h: Host, h': Host, f: Flags)
    requires Told(plan, h0, h, f) && !f.identityAttempted
    requires StoppedSome(h.(entryRunning := h'.entryRunning), h', SAFETY_SERVICES)
    requires h'.entryRunning ==> h.entryRunning
    ensures Told(plan, h0, h', f) && LawfulMove(h, h')
  {
  }

  lemma RecordKeeps(plan: RegularPlan, h0: Host, h: Host, h': Host, f: Flags)
    requires Told(plan, h0, h, f) && h' == h.(baselines := h'.baselines)
    ensures Told(plan, h0, h', f) && LawfulMove(h, h')
  {
  }

  lemma RotateKeeps(plan: RegularPlan, h0: Host, h: Host, h': Host, f: Flags)
    requires Told(plan, h0, h, f) && f.identityAttempted && !f.targetReleaseActivated && h.symlink == h0.symlink
    requires h' == h.(identity := h'.identity) && (h' == h || h'.identity.commit == plan.target.commit)
    ensures Told(plan, h0, h', f) && LawfulMove(h, h')
  {
  }

  lemma ActivateKeeps(plan: RegularPlan, h0: Host, h: Host, seed: string, n: nat, f: Flags)
    requires Told(plan, h0, h, f) && f.identityAttempted && !f.targetReleaseActivated && h.symlink == h0.symlink
    requires h.identity.commit == plan.target.commit
    ensures Told(plan, h0, Activating(h, plan.target, seed, n), f)
    ensures LawfulMove(h, Activating(h, plan.target, seed, n))
  {
  }

  /** Services are started before the identity was touched, or after the target took over entirely. */
  lemma StartKeeps(plan: RegularPlan, h0: Host, h: Host, h': Host, f: Flags, services: set<Service>)
    requires Told(plan, h0, h, f) && StartedSome(h, h', services)
    requires !f.identityAttempted || f.targetReleaseActivated
    ensures Told(plan, h0, h', f) && LawfulMove(h, h')
    ensures forall s <- h'.running :: h'.running[s] == h'.symlink
  {
  }

  // ----- what was certified on the way -----

  /** What the certification shows is what the baseline beside the target preserved. */
  predicate Shows(plan: RegularPlan, c: Certification, h: Host) {
    && plan.target in h.baselines
    && c.preserved == Some(h.baselines[plan.target].preserved) && c.posture == h.baselines[plan.target].posture
  }

  /** The same universe and the same control posture, at least. */
  predicate ShowsUniverse(plan: RegularPlan, c: Certification, h: Host) {
    && plan.target in h.baselines && c.preserved.Some?
    && c.preserved.value.universeDigest == h.baselines[plan.target].preserved.universeDigest
    && c.posture == h.baselines[plan.target].posture
  }

  /** The stopped and fenced source was certified and probed again, under the identity read before, and the
      baseline on the given host is what it showed. */
  ghost predicate SourceRechecked(plan: RegularPlan, identity: Identity, seen: seq<Sight>, on: Host) {
    exists h, c :: Checked(seen, h, c) && h.running == map[] && h.EntryHeld() && h.identity == identity
                   && (!plan.closureOnly ==>
                         Shows(plan, c, on) && on.baselines[plan.target].sourceCommit == identity.commit)
  }

  /** The target passed its postflight as the current release, before observation was started, and showed
      exactly what was preserved. */
  ghost predicate PostflightPassed(plan: RegularPlan, seen: seq<Sight>, on: Host) {
    exists h, c :: Checked(seen, h, c) && h.symlink == plan.target && h.identity.commit == plan.target.commit
                   && Observation !in h.running
                   && (!plan.closureOnly ==> Awaited(h) in seen && Shows(plan, c, on) && BaselineOfStep(plan, on))
  }

  /** The host itself was certified and probed, with the preserved universe and posture. */
  ghost predicate HostCertified(plan: RegularPlan, seen: seq<Sight>, h: Host) {
    exists c :: Checked(seen, h, c) && ShowsUniverse(plan, c, h)
  }

  /** All of them; a closure-only handover certifies nothing after the start. */
  ghost predicate CertifiedThroughout(plan: RegularPlan, identity: Identity, seen: seq<Sight>, h: Host) {
    && SourceRechecked(plan, identity, seen, h) && PostflightPassed(plan, seen, h)
    && (!plan.closureOnly ==> HostCertified(plan, seen, h))
  }

  /** What was seen stays seen, and stays true of a host with the same baselines. */
  lemma SightsStay(plan: RegularPlan, identity: Identity, seen: seq<Sight>, seen': seq<Sight>, h: Host, h': Host)
    requires seen <= seen' && h'.baselines == h.baselines
    ensures SourceRechecked(plan, identity, seen, h) ==> SourceRechecked(plan, identity, seen', h')
    ensures PostflightPassed(plan, seen, h) ==> PostflightPassed(plan, seen', h')
  {
    assert forall x :: x in seen ==> x in seen';
    assert forall h, c :: Checked(seen, h, c) ==> Checked(seen', h, c);
    assert forall c :: Shows(plan, c, h) ==> Shows(plan, c, h');
  }

  // ----- the exits -----

  /** What a recovery without faults of its own leaves behind: the source running, the target running, or,
      when the identity was tried and the activation did not return, nothing. */
  predicate Recovered(plan: RegularPlan, h0: Host, h: Host, f: Flags) {
    && h.revision == h0.revision
    && if f.targetReleaseActivated then
         h.symlink == plan.target && h.identity.commit == plan.target.commit && h.AllRunning(plan.target) && h.Equipped()
       else if f.identityAttempted then h.running == map[] && h.EntryHeld()
       else h.symlink == h0.symlink && h.identity == h0.identity && h.AllRunning(h0.symlink) && h.Equipped()
  }

  // ----- what the calls of the try say -----

  /** The operations of a regular deployment, in their order; a closure-only handover records no baseline. */
  function Script(plan: RegularPlan): seq<Operation> {
    if plan.closureOnly then
      [Stop(SAFETY_SERVICES, true), Fence, Rotate(plan.target.commit, plan.target.revision), Activate(plan.target),
       Start({Lifecycle, Reconciliation}), Start(SAFETY_SERVICES)]
    else
      [Stop(SAFETY_SERVICES, true), Fence, Record(plan.target), Rotate(plan.target.commit, plan.target.revision),
       Activate(plan.target), Start({Lifecycle, Reconciliation}), Start(SAFETY_SERVICES)]
  }

  /** How many of them come before the rotation. */
  function BeforeRotation(plan: RegularPlan): nat {
    if plan.closureOnly then 2 else 3
  }

  predicate AllReturned(effects: seq<Effect>) {
    forall e <- effects :: e.returned
  }

  /** The effects of a try are an initial stretch of the script, and only the last can have raised. */
  predicate FollowsScript(plan: RegularPlan, effects: seq<Effect>) {
    && |effects| <= |Script(plan)|
    && (forall i | 0 <= i < |effects| :: effects[i].op == Script(plan)[i])
    && (effects != [] ==> AllReturned(effects[..|effects| - 1]))
  }

  /** Each flag, by the effects that were tried. */
  predicate Credit(plan: RegularPlan, f: Flags, effects: seq<Effect>) {
    var rotate := Rotate(plan.target.commit, plan.target.revision);
    && (f.servicesStopped <==> Effect(Stop(SAFETY_SERVICES, true), true) in effects)
    && (f.identityAttempted <==> Effect(rotate, true) in effects || Effect(rotate, false) in effects)
    && (f.targetReleaseActivated <==> Effect(Activate(plan.target), true) in effects)
  }

  predicate OnRecord(plan: RegularPlan, f: Flags, effects: seq<Effect>) {
    FollowsScript(plan, effects) && Credit(plan, f, effects)
  }

  /** The next operation of the script. */
  predicate Due(plan: RegularPlan, effects: seq<Effect>, op: Operation) {
    AllReturned(effects) && |effects| < |Script(plan)| && Script(plan)[|effects|] == op
  }

  /** What an effect of the try credits a flag with. */
  function CreditedBy(f: Flags, e: Effect): Flags {
    match e.op
    case Stop(_, _) => if e.returned then f.(servicesStopped := true) else f
    case Rotate(_, _) => f.(identityAttempted := true)
    case Activate(_) => if e.returned then f.(targetReleaseActivated := true) else f
    case _ => f
  }

  lemma ScriptGrows(plan: RegularPlan, effects: seq<Effect>, e: Effect)
    requires FollowsScript(plan, effects) && Due(plan, effects, e.op)
    ensures FollowsScript(plan, effects + [e])
    ensures e.returned ==> AllReturned(effects + [e])
  {
    assert (effects + [e])[..|effects|] == effects;
  }

  lemma TryKeeps(plan: RegularPlan, f: Flags, effects: seq<Effect>, e: Effect)
    requires OnRecord(plan, f, effects) && Due(plan, effects, e.op)
    ensures OnRecord(plan, CreditedBy(f, e), effects + [e])
    ensures e.returned ==> AllReturned(effects + [e])
  {
    ScriptGrows(plan, effects, e);
    assert (effects + [e])[|effects|] == e;
    hide SAFETY_SERVICES, AllReturned, FollowsScript;
  }

  lemma OpenRecord(plan: RegularPlan)
    ensures OnRecord(plan, Flags(false, false, false), []) && AllReturned([])
  {
  }

  /** What a deployment does when it succeeds, effect by effect. */
  lemma CompletedScript(plan: RegularPlan, f: Flags, effects: seq<Effect>)
    requires OnRecord(plan, f, effects) && AllReturned(effects) && |effects| == |Script(plan)|
    ensures
      var n := |effects|;
      && effects[0] == Effect(Stop(SAFETY_SERVICES, true), true) && effects[1] == Effect(Fence, true)
      && (if plan.closureOnly then n == 6 else n == 7 && effects[2] == Effect(Record(plan.target), true))
      && effects[n - 4] == Effect(Rotate(plan.target.commit, plan.target.revision), true)
      && effects[n - 3] == Effect(Activate(plan.target), true)
      && effects[n - 2] == Effect(Start({Lifecycle, Reconciliation}), true)
      && effects[n - 1] == Effect(Start(SAFETY_SERVICES), true)
  {
    assert forall i | 0 <= i < |effects| :: effects[i] in effects;
  }

  /** The handler starts services before the identity was tried, or after the activation returned. */
  predicate RecoversServices(f: Flags) {
    f.targetReleaseActivated || !f.identityAttempted
  }

  /** What the handler does if nothing raises. */
  function RecoveryOf(f: Flags): seq<Effect> {
    if RecoversServices(f) then [Effect(Fence, true), Effect(Start(SAFETY_SERVICES), true)] else [Effect(Fence, true)]
  }

  // ----- what a refusal is grounded in -----

  /** The baseline beside the target describes exactly this step. */
  predicate BaselineOfStep(plan: RegularPlan, h: Host) {
    && plan.target in h.baselines
    && var baseline := h.baselines[plan.target];
       && IsCommit(baseline.sourceCommit) && baseline.targetCommit == plan.target.commit
       && baseline.sourceRevision == plan.target.revision && IsSeedIdentity(baseline.posture)
  }

  /** What the marker of the source release must say. */
  predicate SourceMarker(plan: RegularPlan, h: Host, marker: Marker, expected: string) {
    match marker
    case RuntimeCommit => expected == h.identity.commit
    case SchemaRevision => expected == plan.target.revision
    case SeedIdentity => false
  }

  /** What every refusal says of the host it was made on: no deployment is refused without it. */
  predicate Grounded(plan: RegularPlan, h0: Host, h: Host, seen: seq<Sight>, refusal: Refusal) {
    match refusal
    case EntryRequested => plan.enableEntry
    case ClosureCannotResume => plan.closureOnly && h.symlink == plan.target
    case EntryNotHeld => !h.EntryHeld()
    case MarkerDiffers(release, marker, expected) =>
      && (release, marker) in h.markers && h.markers[(release, marker)] != expected
      && (|| (release == h0.symlink && SourceMarker(plan, h, marker, expected))
          || (release == plan.target && expected == MarkerOf(plan.target, marker, h.identity.seed)))
    case SeedInvalid(seed) =>
      && !IsSeedIdentity(seed)
      && (|| seed == h.identity.seed
          || ((plan.target, SeedIdentity) in h.markers && seed == h.markers[(plan.target, SeedIdentity)]))
    case ServicesNotStopped => h.running.Keys != {} || h.entryRunning
    case WritersNotStopped => !(h.Quiescent() && h.fenced && !h.entryEnabled)
    case SourceIdentityChanged => h.identity != h0.identity
    case PreservedMissing(c) => Certified(h, c) in seen && c.preserved.None?
    case CurrentDiffers(release) => release == plan.target && h.symlink != release
    case NotCertified(c, flat) => Certified(h, c) in seen && Probed(h, flat) in seen && !(c.pass && flat)
    case IdentityDiffers(wanted) =>
      && h.identity != wanted && wanted.commit == plan.target.commit && wanted.revision == plan.target.revision
      && (|| wanted.seed == h.identity.seed
          || ((plan.target, SeedIdentity) in h.markers && wanted.seed == h.markers[(plan.target, SeedIdentity)]))
    case BaselineDiffers(c) =>
      Certified(h, c) in seen && plan.target in h.baselines && !(BaselineOfStep(plan, h) && Shows(plan, c, h))
    case UniverseDiffers(c) =>
      && Certified(h, c) in seen && plan.target in h.baselines
      && !(c.preserved.Some? && c.preserved.value.universeDigest == h.baselines[plan.target].preserved.universeDigest)
    case ControlsChanged(c) =>
      Certified(h, c) in seen && plan.target in h.baselines && c.posture != h.baselines[plan.target].posture
    case ServicesDiffer => !(h.running.Keys == SAFETY_SERVICES && !h.entryRunning)
    case _ => false
  }

  lemma GroundedInSeed(plan: RegularPlan, h0: Host, h: Host, seen: seq<Sight>)
    requires !IsSeedIdentity(h.identity.seed)
    ensures Grounded(plan, h0, h, seen, SeedInvalid(h.identity.seed))
  {
  }

  /** A refusal has its grounds in the host and in what was seen of it. */
  ghost predicate Justified(plan: RegularPlan, h0: Host, b: TokyoReleaseBackend, e: Exn)
    reads b`host, b`seen
  {
    e.reason.Blocked? ==> Grounded(plan, h0, b.host, b.seen, e.reason.refusal)
  }

  lemma InstallKeeps(plan: RegularPlan, h: Host, h': Host)
    requires Truthful(h) && plan.target != h.symlink
    requires h' == h || h' == Erased(h, plan.target) || h' == Installed(h, plan.target)
    ensures LawfulMove(h, h') && Truthful(h')
    ensures h' == h.(installed := h'.installed, markers := h'.markers, baselines := h'.baselines)
  {
  }

  lemma NoteStopped(plan: RegularPlan, h0: Host, h: Host, f: Flags)
    requires Told(plan, h0, h, f)
    ensures forall stopped :: Told(plan, h0, h, f.(servicesStopped := stopped))
  {
  }

  lemma NoteAttempted(plan: RegularPlan, h0: Host, h: Host, f: Flags)
    requires Told(plan, h0, h, f) && h.running == map[] && h.EntryHeld() && !f.targetReleaseActivated
    ensures Told(plan, h0, h, f.(identityAttempted := true))
  {
  }

  lemma NoteActivated(plan: RegularPlan, h0: Host, h: Host, f: Flags)
    requires Told(plan, h0, h, f) && f.identityAttempted
    requires h.symlink == plan.target && h.identity.commit == plan.target.commit
    ensures Told(plan, h0, h, f.(targetReleaseActivated := true))
  {
  }
}
