/** `DeploymentPlan.__post_init__`: which plans exist at all, and what that gives the two deployments. */
module DeploymentPlans {
  import opened Wrappers
  import opened TokyoHost
  import opened DeploymentGates
  import opened DeploymentDrain
  import opened UpgradeState
  import CompatibleUpgrade
  import RegularDeployment
  import RegularState

  const RELEASE_ROOT := "/opt/brc/releases"
  const SCHEMA_REVISION := "0012_generic_signal_path_v1"
  const COMPATIBLE_SOURCE_SCHEMA_REVISION := "0007_exit_profile_authority_v1"
  const COMPATIBLE_SOURCES: set<string> :=
    {COMPATIBLE_SOURCE_SCHEMA_REVISION, "0009_capacity_policy_v0", "0010_dynamic_intent_v1", "0011_orb_session_1h_v1"}
  const EXPECTED_CONFIGURED_LEVERAGE: int := 5

  datatype Mode = Regular | Upgrade

  datatype DeploymentPlan = DeploymentPlan(
    targetCommit: string,
    targetRelease: string,
    schemaRevision: string,
    expectedConfiguredLeverage: int,
    enableEntry: bool,
    sourceSchemaRevision: Option<string>,
    mode: Mode,
    closureTicketId: Option<string>,
    drainActiveTickets: bool,
    drainAuthorizationId: Option<string>,
    drainTimeoutSeconds: real,
    fact: Option<CompatibilityFact>)

  predicate IsSpace(c: char) {
    c == ' ' || '\t' <= c <= '\r'
  }

  function Strip(s: string): string {
    if s == "" then s
    else if IsSpace(s[0]) then Strip(s[1..])
    else if IsSpace(s[|s| - 1]) then Strip(s[..|s| - 1])
    else s
  }

  predicate IsAlphanumeric(c: char) {
    'a' <= c <= 'z' || 'A' <= c <= 'Z' || '0' <= c <= '9'
  }

  predicate IsAuthorization(s: string) {
    && 1 <= |s| <= 128 && IsAlphanumeric(s[0])
    && forall i | 1 <= i < |s| :: IsAlphanumeric(s[i]) || s[i] == '.' || s[i] == '_' || s[i] == '-'
  }

  function ReleaseOf(commit: string): string
    requires |commit| >= 12
  {
    RELEASE_ROOT + "/brc-trading-kernel-" + commit[..12]
  }

  function CheckMode(p: DeploymentPlan): Result<(), string> {
    match p.mode
    case Regular =>
      if p.fact.Some? then Err("regular deployment cannot carry a release compatibility fact")
      else if p.sourceSchemaRevision.Some? then Err("regular deployment cannot change schema revision")
      else if p.schemaRevision != SCHEMA_REVISION then Err("regular deployment cannot change schema revision")
      else Ok(())
    case Upgrade =>
      if p.sourceSchemaRevision.None? || p.sourceSchemaRevision.value !in COMPATIBLE_SOURCES then
        Err("compatible upgrade requires the exact compatible source")
      else if p.schemaRevision != SCHEMA_REVISION then Err("compatible upgrade requires the current schema head")
      else if p.closureTicketId.Some? then Err("compatible upgrade requires fully terminal history")
      else if p.enableEntry then Err("compatible upgrade must keep ENTRY disabled")
      else if p.fact.None? then Err("compatible upgrade requires one release compatibility fact")
      else if p.fact.value.toCommit != p.targetCommit then Err("release compatibility target commit differs")
      else if p.fact.value.fromRevision != p.sourceSchemaRevision.value then Err("release compatibility source schema differs")
      else if p.fact.value.toRevision != p.schemaRevision then Err("release compatibility target schema differs")
      else if p.fact.value.classification.RequiresRuntimeRematerialization? then
        Err("runtime rematerialization requires a durable release fence")
      else Ok(())
  }

  function CheckDrain(p: DeploymentPlan): Result<(), string> {
    if p.drainTimeoutSeconds <= 0.0 then Err("Deployment Drain timeout must be positive")
    else if p.drainActiveTickets then
      if !p.mode.Upgrade? || p.sourceSchemaRevision != Some(COMPATIBLE_SOURCE_SCHEMA_REVISION) then
        Err("Deployment Drain integration requires the exact compatible source")
      else if p.enableEntry then Err("Deployment Drain must keep ENTRY disabled")
      else if p.drainAuthorizationId.None? || !IsAuthorization(Strip(p.drainAuthorizationId.value)) then
        Err("Deployment Drain requires one canonical authorization")
      else Ok(())
    else if p.drainAuthorizationId.Some? then Err("Deployment Drain authorization requires drain")
    else Ok(())
  }

  function PostInit(p: DeploymentPlan): Result<(), string> {
    if !IsCommit(p.targetCommit) then Err("target commit must be an exact lowercase 40-hex SHA")
    else if p.targetRelease != ReleaseOf(p.targetCommit) then Err("target release path differs from target commit")
    else
      var _ :- CheckMode(p);
      if p.expectedConfiguredLeverage != EXPECTED_CONFIGURED_LEVERAGE then
        Err("production configured leverage must remain fixed at 5x")
      else if p.closureTicketId.Some? && Strip(p.closureTicketId.value) == "" then
        Err("closure-only Ticket identity must be non-blank")
      else if p.closureTicketId.Some? && p.enableEntry then Err("closure-only handover must keep ENTRY fenced")
      else CheckDrain(p)
  }

  function TargetOf(p: DeploymentPlan): Release {
    Release(p.targetCommit, p.schemaRevision)
  }

  function UpgradePlanOf(p: DeploymentPlan): UpgradePlan
    requires PostInit(p).Ok? && p.mode.Upgrade?
  {
    UpgradePlan(TargetOf(p), p.sourceSchemaRevision.value, p.fact.value)
  }

  /** The release directory is that of the commit, and the plan is at the schema head and at the fixed leverage. */
  predicate Pinned(p: DeploymentPlan) {
    && IsCommit(p.targetCommit) && p.targetRelease == ReleaseOf(p.targetCommit)
    && p.schemaRevision == SCHEMA_REVISION && p.expectedConfiguredLeverage == 5 && p.drainTimeoutSeconds > 0.0
  }

  predicate AcceptableRegular(p: DeploymentPlan) {
    && p.fact.None? && p.sourceSchemaRevision.None?
    && !p.drainActiveTickets && p.drainAuthorizationId.None?
    && (p.closureTicketId.Some? ==> Strip(p.closureTicketId.value) != "" && !p.enableEntry)
  }

  predicate AcceptableUpgrade(p: DeploymentPlan) {
    && p.sourceSchemaRevision.Some? && p.sourceSchemaRevision.value in COMPATIBLE_SOURCES
    && p.closureTicketId.None? && !p.enableEntry
    && p.fact.Some? && p.fact.value.toCommit == p.targetCommit && p.fact.value.classification == CompatibleRestart
    && p.fact.value.fromRevision == p.sourceSchemaRevision.value && p.fact.value.toRevision == p.schemaRevision
    && (if p.drainActiveTickets then
          && p.sourceSchemaRevision == Some(COMPATIBLE_SOURCE_SCHEMA_REVISION)
          && p.drainAuthorizationId.Some? && IsAuthorization(Strip(p.drainAuthorizationId.value))
        else p.drainAuthorizationId.None?)
  }

  /** Exactly which plans exist. */
  lemma AcceptedExactly(p: DeploymentPlan)
    ensures PostInit(p).Ok? <==> Pinned(p) && if p.mode.Regular? then AcceptableRegular(p) else AcceptableUpgrade(p)
  {
    hide IsCommit, IsAuthorization, Strip;
  }

  /** An accepted upgrade is one the transition can rely on: its fact describes exactly this step, and the step
      really changes the schema. */
  lemma AcceptedUpgradeIsValid(p: DeploymentPlan)
    requires PostInit(p).Ok? && p.mode.Upgrade?
    ensures p.fact.Some? && p.sourceSchemaRevision.Some? && UpgradePlanOf(p).Valid()
    ensures !p.enableEntry && p.closureTicketId.None?
    ensures p.fact.value.classification == CompatibleRestart
  {
    assert "0007_exit_profile_authority_v1"[3] != SCHEMA_REVISION[3];
    assert "0009_capacity_policy_v0"[3] != SCHEMA_REVISION[3];
    assert "0010_dynamic_intent_v1"[3] != SCHEMA_REVISION[3];
    assert "0011_orb_session_1h_v1"[3] != SCHEMA_REVISION[3];
  }

  /** A plan that enables ENTRY is accepted only as a plain regular deployment, which refuses to run it: no accepted
      plan ever ends with ENTRY enabled. */
  lemma EnablingEntryIsPlainRegular(p: DeploymentPlan)
    requires PostInit(p).Ok? && p.enableEntry
    ensures p.mode.Regular? && p.closureTicketId.None? && !p.drainActiveTickets
  {
  }

  /** Accepted plans share a release directory exactly when their commits agree in the first twelve digits. */
  lemma ReleaseSharing(p: DeploymentPlan, q: DeploymentPlan)
    requires PostInit(p).Ok? && PostInit(q).Ok?
    ensures p.targetRelease == q.targetRelease <==> p.targetCommit[..12] == q.targetCommit[..12]
  {
    var prefix := RELEASE_ROOT + "/brc-trading-kernel-";
    assert p.targetRelease[|prefix|..] == p.targetCommit[..12];
    assert q.targetRelease[|prefix|..] == q.targetCommit[..12];
  }

  lemma FenceIsLawful(plan: UpgradePlan, h: Host, h': Host)
    requires UpgradeState.Truthful(h) && FencedSome(h, h')
    ensures UpgradeState.LawfulMove(plan, h, h')
  {
  }

  datatype DrainFailure =
    | HostFailed(exn: Exn)
    | EntryNotFenced
    | SafetyNotActive
    | DrainFailed(error: DrainError)

  /** What a failed drain step says of the host and of the source runtime. */
  ghost predicate DrainJustified(failure: DrainFailure, before: seq<Outcome>, b: TokyoReleaseBackend, runtime: Runtime)
    reads b, runtime
  {
    match failure
    case HostFailed(exn) => exn.reason.CallFailed? && RegularDeployment.RaisedSince(before, b.calls, exn) && runtime.log == []
    case EntryNotFenced => !b.host.EntryHeld() && runtime.log == []
    case SafetyNotActive => b.host.running.Keys != SAFETY_SERVICES && runtime.log == []
    case DrainFailed(error) =>
      b.host.EntryHeld() && b.host.running.Keys == SAFETY_SERVICES && Ending(runtime.log) == Some(Err(error))
  }

  /** `_run_optional_deployment_drain`: ENTRY fenced and idle, the source's safety services all active, and the source
      runtime drained until it is flat. */
  method RunOptionalDeploymentDrain(b: TokyoReleaseBackend, runtime: Runtime, p: DeploymentPlan)
    returns (r: Result<(), DrainFailure>, ghost start: real)
    requires PostInit(p).Ok? && p.drainActiveTickets && runtime.log == []
    requires b.Valid() && UpgradeState.Truthful(b.host) && UpgradeState.LawfulPath(UpgradePlanOf(p), b.path)
    modifies b`host, b`calls, b`effects, b`path, runtime
    ensures b.Valid() && UpgradeState.Truthful(b.host) && UpgradeState.LawfulPath(UpgradePlanOf(p), b.path)
    ensures old(b.path) <= b.path && FencedSome(old(b.host), b.host) && old(b.calls) <= b.calls
    ensures exists returned :: b.effects == old(b.effects) + [Effect(Fence, returned)] && (r.Ok? ==> returned)
    ensures runtime.log == []
         || (Bounds(runtime.log, p.drainTimeoutSeconds) && Lawful(runtime.log, start + p.drainTimeoutSeconds))
    ensures r.Ok? ==> b.host.EntryHeld() && b.host.running.Keys == SAFETY_SERVICES && LastInspected(runtime.log, "flat")
    ensures r.Err? ==> DrainJustified(r.error, old(b.calls), b, runtime)
  {
    DrainsWithTimeout(p);
    hide PostInit, UpgradeState.LawfulPath, UpgradeState.LawfulMove, Bounds, Lawful, UpgradeState.Truthful;
    start := 0.0;
    var fenced := b.FenceEntry();
    assert b.effects == old(b.effects) + [Effect(Fence, fenced.Ok?)];
    FenceIsLawful(UpgradePlanOf(p), old(b.host), b.host);
    UpgradeState.PathGrows(UpgradePlanOf(p), old(b.path), b.host);
    StillTruthful(UpgradePlanOf(p), old(b.host), b.host);
    if fenced.Err? {
      return Err(HostFailed(fenced.error)), start;
    }
    var held := b.EntryIsInactiveDisabledAndFenced();
    if held.Err? {
      return Err(HostFailed(held.error)), start;
    }
    if !held.value {
      return Err(EntryNotFenced), start;
    }
    var active := b.ServicesActive();
    if active.Err? {
      return Err(HostFailed(active.error)), start;
    }
    if active.value.0 != SAFETY_SERVICES {
      return Err(SafetyNotActive), start;
    }
    var drained;
    drained, start := RunDeploymentDrain(runtime, p.drainTimeoutSeconds);
    r := if drained.Err? then Err(DrainFailed(drained.error)) else Ok(());
  }

  lemma StillTruthful(plan: UpgradePlan, h: Host, h': Host)
    requires UpgradeState.LawfulMove(plan, h, h')
    ensures UpgradeState.Truthful(h')
  {
  }

  /** An accepted drain is one of the exact compatible source, with a positive timeout. */
  lemma DrainsWithTimeout(p: DeploymentPlan)
    requires PostInit(p).Ok? && p.drainActiveTickets
    ensures p.mode.Upgrade? && p.sourceSchemaRevision == Some(COMPATIBLE_SOURCE_SCHEMA_REVISION)
    ensures p.drainTimeoutSeconds > 0.0 && !p.enableEntry
  {
  }

  datatype DeployFailure = NotDrained(failure: DrainFailure) | UpgradeFailed(thrown: CompatibleUpgrade.Thrown) | RegularFailed(exn: Exn)

  /** `deploy_tokyo_release`: the drain if the plan asks for one, then the path of its mode. A plan that enables ENTRY
      is refused without a call. A deployment that returns leaves the target running with the database at its commit
      and ENTRY held, after a flat drain if one was asked for; a drain that fails is all that happens; and however it
      ends, the host is one its path can start from again. */
  method DeployAccepted(b: TokyoReleaseBackend, runtime: Runtime, p: DeploymentPlan) returns (r: Result<(), DeployFailure>)
    requires PostInit(p).Ok? && b.Valid() && runtime.log == []
    requires p.mode.Upgrade? ==> UpgradeState.Truthful(b.host) && UpgradeState.LawfulPath(UpgradePlanOf(p), b.path)
    requires p.mode.Regular? ==> RegularState.Truthful(b.host) && RegularState.LawfulPath(b.path)
    modifies b, runtime
    ensures b.Valid() && old(b.path) <= b.path
    ensures p.mode.Upgrade? ==> UpgradeState.Truthful(b.host) && UpgradeState.LawfulPath(UpgradePlanOf(p), b.path)
    ensures p.mode.Regular? ==> RegularState.Truthful(b.host) && RegularState.LawfulPath(b.path)
    ensures p.enableEntry ==> r.Err? && b.host == old(b.host) && b.calls == old(b.calls)
    ensures runtime.log == [] || (p.drainActiveTickets && Bounds(runtime.log, p.drainTimeoutSeconds))
    ensures r.Ok? ==>
              && b.host.EntryHeld() && b.host.AllRunning(TargetOf(p)) && b.host.identity.commit == p.targetCommit
              && (p.drainActiveTickets ==> LastInspected(runtime.log, "flat"))
    ensures r.Err? ==>
              match r.error
              case NotDrained(failure) =>
                && p.drainActiveTickets && FencedSome(old(b.host), b.host)
                && DrainJustified(failure, old(b.calls), b, runtime)
              case UpgradeFailed(thrown) =>
                && p.mode.Upgrade? && (p.drainActiveTickets ==> LastInspected(runtime.log, "flat"))
                && CompatibleUpgrade.RaisedSince(old(b.calls), b.calls, thrown.error)
              case RegularFailed(exn) =>
                p.mode.Regular? && (b.calls != old(b.calls) ==> RegularDeployment.RaisedSince(old(b.calls), b.calls, exn))
  {
    if p.enableEntry {
      EnablingEntryIsPlainRegular(p);
    }
    hide PostInit, Bounds, Lawful, UpgradeState.LawfulPath, RegularState.LawfulPath, UpgradeState.Truthful,
      RegularState.Truthful, DrainJustified;
    if p.mode.Regular? {
      RegularNeverDrains(p);
      var regular;
      ghost var run, m;
      regular, run, m := RegularDeployment.DeployTokyoRelease(
        b, RegularState.RegularPlan(TargetOf(p), p.closureTicketId.Some?, p.enableEntry));
      return if regular.Err? then Err(RegularFailed(regular.error)) else Ok(());
    }
    if p.drainActiveTickets {
      var drained;
      ghost var start;
      drained, start := RunOptionalDeploymentDrain(b, runtime, p);
      if drained.Err? {
        return Err(NotDrained(drained.error));
      }
    }
    AcceptedUpgradeIsValid(p);
    r := DeployUpgrade(b, p);
  }

  method DeployUpgrade(b: TokyoReleaseBackend, p: DeploymentPlan) returns (r: Result<(), DeployFailure>)
    requires PostInit(p).Ok? && p.mode.Upgrade? && b.Valid()
    requires UpgradeState.Truthful(b.host) && UpgradeState.LawfulPath(UpgradePlanOf(p), b.path)
    modifies b
    ensures b.Valid() && old(b.path) <= b.path
    ensures UpgradeState.Truthful(b.host) && UpgradeState.LawfulPath(UpgradePlanOf(p), b.path)
    ensures r.Ok? ==> b.host.EntryHeld() && b.host.AllRunning(TargetOf(p)) && b.host.identity.commit == p.targetCommit
    ensures r.Err? ==> r.error.UpgradeFailed? && CompatibleUpgrade.RaisedSince(old(b.calls), b.calls, r.error.thrown.error)
  {
    AcceptedUpgradeIsValid(p);
    hide PostInit, UpgradeState.LawfulPath, UpgradeState.Truthful;
    var upgraded;
    ghost var run, m, certified;
    upgraded, run, m, certified := CompatibleUpgrade.DeployCompatibleUpgrade(b, UpgradePlanOf(p));
    r := if upgraded.Err? then Err(UpgradeFailed(upgraded.error)) else Ok(());
  }

  lemma RegularNeverDrains(p: DeploymentPlan)
    requires PostInit(p).Ok? && p.mode.Regular?
    ensures !p.drainActiveTickets
  {
  }
}
