/** The production host as the deployment scripts see it, and the backend that changes it. Any call may raise,
    before its effect, after it, or part of the way through; every state the host passes is recorded. */
module TokyoHost {
  import opened Wrappers

  /** An installed release: its commit, and the schema revision its code is written for. */
  datatype Release = Release(commit: string, revision: string)

  datatype Service = Observation | Lifecycle | Reconciliation

  const SAFETY_SERVICES: set<Service> := {Observation, Lifecycle, Reconciliation}

  lemma AreSafety(services: set<Service>)
    ensures services <= SAFETY_SERVICES
  {
    forall s <- services ensures s in SAFETY_SERVICES {
      match s
      case Observation =>
      case Lifecycle =>
      case Reconciliation =>
    }
  }

  datatype Marker = RuntimeCommit | SchemaRevision | SeedIdentity

  /** The preserved runtime of a certification: the digest of its universe, and everything else in it. */
  datatype Preserved = Preserved(universeDigest: string, content: string)

  /** The evidence a deployment leaves beside the target release before it changes anything. */
  datatype Baseline = Baseline(
    sourceCommit: string, targetCommit: string, sourceRevision: string,
    preservationDigest: string, preserved: Preserved, posture: string)

  /** The runtime identity row of the database. */
  datatype Identity = Identity(commit: string, revision: string, seed: string)

  datatype Classification = CompatibleRestart | RequiresRuntimeRematerialization

  datatype CompatibilityFact = CompatibilityFact(
    id: string,
    fromCommit: string,
    toCommit: string,
    fromRevision: string,
    toRevision: string,
    classification: Classification)

  datatype Host = Host(
    revision: string,                          // the database schema
    identity: Identity,
    facts: map<string, CompatibilityFact>,     // stored compatibility facts, by id
    symlink: Release,                          // the current release
    installed: set<Release>,
    markers: map<(Release, Marker), string>,
    baselines: map<Release, Baseline>,
    environment: Release,                      // commit and revision in the runtime environment file
    units: Release,                            // the release whose unit files are installed
    running: map<Service, Release>,            // safety services, by the release each was started from
    entryRunning: bool,
    entryEnabled: bool,
    fenced: bool,
    ownerApi: bool)
  {
    predicate AllRunning(release: Release) {
      running.Keys == SAFETY_SERVICES && forall s <- running :: running[s] == release
    }

    /** No worker and no Owner API. */
    predicate Quiescent() {
      running == map[] && !entryRunning && !ownerApi
    }

    predicate EntryHeld() {
      fenced && !entryRunning && !entryEnabled
    }

    predicate Holds(fact: CompatibilityFact) {
      fact.id in facts && facts[fact.id] == fact
    }

    /** The runtime environment and the unit files are those of the current release. */
    predicate Equipped() {
      environment == symlink && units == symlink
    }

    /** With the given safety services started from the current release. */
    function Started(services: set<Service>): Host {
      this.(running := map s | s in running.Keys + services :: if s in running then running[s] else symlink)
    }
  }

  /** What a certification reports: its own verdict, the identity it read, and what is to be preserved. */
  datatype Certification = Certification(
    pass: bool, revision: string, identity: Identity, digest: string, preserved: Option<Preserved>, posture: string)

  /** What a check saw, and the host it saw it on. */
  datatype Sight = Certified(h: Host, c: Certification) | Probed(h: Host, pass: bool) | Awaited(h: Host)

  /** A refusal of a deployment, with what it compared. */
  datatype Refusal =
    | EntryNotHeld
    | SchemaRefused(answer: Option<string>)
    | SourceNotCertified(c: Certification, flat: bool)
    | SourceCommitDiffers
    | MarkerDiffers(release: Release, marker: Marker, expected: string)
    | FactDiffers
    | FactMissing
    | SeedInvalid(seed: string)
    | WritersNotStopped
    | ServicesNotStopped
    | SourceIdentityChanged
    | PreservedMissing(c: Certification)
    | PreservationDiffers(c: Certification)
    | RecoveryNotCertified(c: Certification)
    | CurrentDiffers(release: Release)
    | NotCertified(c: Certification, flat: bool)
    | IdentityDiffers(wanted: Identity)
    | BaselineDiffers(c: Certification)
    | UniverseDiffers(c: Certification)
    | ControlsChanged(c: Certification)
    | ServicesDiffer
    | EntryRequested
    | ClosureCannotResume

  datatype Reason = Blocked(refusal: Refusal) | CallFailed

  /** An exception, and how many backend calls had been made when it was raised. */
  datatype Exn = Exn(reason: Reason, at: nat)

  /** What became of a call. */
  datatype Outcome = Returned | Raised

  /** The calls that change the host. */
  datatype Operation =
    | Install(release: Release)
    | Record(release: Release)
    | Stop(services: set<Service>, entry: bool)
    | Start(services: set<Service>)
    | Fence
    | Migrate(revision: string)
    | Persist(fact: CompatibilityFact)
    | Rotate(commit: string, revision: string)
    | Activate(release: Release)

  datatype Effect = Effect(op: Operation, returned: bool)

  /** What came of the two readings that may confirm an effect whose call raised. */
  datatype Answer =
    | Inspected(revision: Option<string>)
    | InspectionRaised
    | FactRead(id: string, fact: Option<CompatibilityFact>)
    | FactReadRaised(id: string)

  // ----- what the calls do to the host -----

  /** Some of the named services, but no others, no longer run. */
  predicate StoppedSome(h: Host, h': Host, services: set<Service>) {
    && h' == h.(running := h'.running)
    && h'.running.Keys <= h.running.Keys && h.running.Keys - services <= h'.running.Keys
    && forall s <- h'.running :: h'.running[s] == h.running[s]
  }

  /** Some of the named services have been started from the current release; running ones are untouched. */
  predicate StartedSome(h: Host, h': Host, services: set<Service>) {
    && h' == h.(running := h'.running)
    && h.running.Keys <= h'.running.Keys <= h.running.Keys + services
    && forall s <- h'.running :: h'.running[s] == if s in h.running then h.running[s] else h.symlink
  }

  /** Fencing ignores failures of its own commands: whatever it reaches, it only tightens. */
  predicate FencedSome(h: Host, h': Host) {
    && h' == h.(fenced := h'.fenced, entryRunning := h'.entryRunning, entryEnabled := h'.entryEnabled)
    && (h.fenced ==> h'.fenced) && (h'.entryRunning ==> h.entryRunning) && (h'.entryEnabled ==> h.entryEnabled)
  }

  /** The release's directory removed, with everything written beside it. */
  function Erased(h: Host, release: Release): Host {
    h.(installed := h.installed - {release},
       markers := map k | k in h.markers && k.0 != release :: h.markers[k],
       baselines := h.baselines - {release})
  }

  function Installed(h: Host, release: Release): Host {
    Erased(h, release).(installed := h.installed + {release})
  }

  const ACTIVATION_WRITES: nat := 7

  /** What the first n writes of an activation leave: three markers, two lines of the runtime environment, the
      unit files, and last the symlink. */
  function Activating(h: Host, release: Release, seed: string, n: nat): Host {
    var m1 := if n >= 1 then h.markers[(release, RuntimeCommit) := release.commit] else h.markers;
    var m2 := if n >= 2 then m1[(release, SchemaRevision) := release.revision] else m1;
    var m3 := if n >= 3 then m2[(release, SeedIdentity) := seed] else m2;
    h.(markers := m3,
       environment := Release(if n >= 4 then release.commit else h.environment.commit,
                              if n >= 5 then release.revision else h.environment.revision),
       units := if n >= 6 then release else h.units,
       symlink := if n >= 7 then release else h.symlink)
  }

  function Activated(h: Host, release: Release, seed: string): Host {
    Activating(h, release, seed, ACTIVATION_WRITES)
  }

  /** How far a call got. */
  datatype Fate = Finished | RaisedBefore | RaisedAfter | RaisedBetween

  class TokyoReleaseBackend {
    var host: Host
    var calls: seq<Outcome>
    var steady: bool                // while it is set no call raises by itself
    ghost var path: seq<Host>
    ghost var seen: seq<Sight>
    ghost var effects: seq<Effect>
    ghost var answers: seq<Answer>

    ghost predicate Valid()
      reads this`host, this`path
    {
      path != [] && path[|path| - 1] == host
    }

    constructor (host: Host)
      ensures Valid() && this.host == host && calls == [] && !steady && path == [host] && seen == []
      ensures effects == [] && answers == []
    {
      this.host := host;
      calls := [];
      steady := false;
      path, seen, effects, answers := [host], [], [], [];
    }

    /** A call; one that must refuse raises at the latest. */
    method Call(refuses: bool) returns (fate: Fate, exn: Exn)
      modifies this`calls
      ensures calls == old(calls) + [if fate.Finished? then Returned else Raised] && exn == Exn(CallFailed, |calls|)
      ensures steady && !refuses ==> fate.Finished?
      ensures refuses ==> !fate.Finished?
    {
      fate := *;
      if steady {
        fate := Finished;
      }
      if refuses && fate.Finished? {
        fate := RaisedBefore;
      }
      calls := calls + [if fate.Finished? then Returned else Raised];
      exn := Exn(CallFailed, |calls|);
    }

    /** Every read: it tells the truth or raises; a read of what is not there raises. */
    method Read(missing: bool) returns (r: Result<(), Exn>)
      modifies this`calls
      ensures calls == old(calls) + [if r.Ok? then Returned else Raised]
      ensures r.Err? ==> (!steady || missing) && r.error == Exn(CallFailed, |calls|)
      ensures missing ==> r.Err?
    {
      var fate, exn := Call(missing);
      r := if fate.Finished? then Ok(()) else Err(exn);
    }

    method ReadCurrentRelease() returns (r: Result<Release, Exn>)
      modifies this`calls
      ensures calls == old(calls) + [if r.Ok? then Returned else Raised]
      ensures r.Ok? ==> r.value == host.symlink
      ensures r.Err? ==> !steady && r.error == Exn(CallFailed, |calls|)
    {
      var _ :- Read(false);
      return Ok(host.symlink);
    }

    method ReleaseExists(release: Release) returns (r: Result<bool, Exn>)
      modifies this`calls
      ensures calls == old(calls) + [if r.Ok? then Returned else Raised]
      ensures r.Ok? ==> r.value == (release in host.installed)
      ensures r.Err? ==> !steady && r.error == Exn(CallFailed, |calls|)
    {
      var _ :- Read(false);
      return Ok(release in host.installed);
    }

    /** `inspect_schema`: the revision when the inspection passes. */
    method InspectSchema() returns (r: Result<Option<string>, Exn>)
      modifies this`calls, this`answers
      ensures answers == old(answers) + [if r.Ok? then Inspected(r.value) else InspectionRaised]
      ensures calls == old(calls) + [if r.Ok? then Returned else Raised]
      ensures r.Ok? && r.value.Some? ==> r.value.value == host.revision
      ensures r.Err? ==> !steady && r.error == Exn(CallFailed, |calls|)
    {
      var pass: bool := *;
      var read := Read(false);
      r := if read.Ok? then Ok(if pass then Some(host.revision) else None) else Err(read.error);
      answers := answers + [if r.Ok? then Inspected(r.value) else InspectionRaised];
    }

    /** Every certification of the database. */
    method Certify() returns (r: Result<Certification, Exn>)
      modifies this`calls, this`seen
      ensures calls == old(calls) + [if r.Ok? then Returned else Raised]
      ensures r.Ok? ==> r.value.revision == host.revision && r.value.identity == host.identity
      ensures seen == old(seen) + if r.Ok? then [Certified(host, r.value)] else []
      ensures r.Err? ==> !steady && r.error == Exn(CallFailed, |calls|)
    {
      var _ :- Read(false);
      var pass: bool, digest: string, preserved: Option<Preserved>, posture: string := *, *, *, *;
      var c := Certification(pass, host.revision, host.identity, digest, preserved, posture);
      seen := seen + [Certified(host, c)];
      return Ok(c);
    }

    /** The exchange probe: whether its facts pass. */
    method ProbeExchange() returns (r: Result<bool, Exn>)
      modifies this`calls, this`seen
      ensures calls == old(calls) + [if r.Ok? then Returned else Raised]
      ensures seen == old(seen) + if r.Ok? then [Probed(host, r.value)] else []
      ensures r.Err? ==> !steady && r.error == Exn(CallFailed, |calls|)
    {
      var _ :- Read(false);
      var pass: bool := *;
      seen := seen + [Probed(host, pass)];
      return Ok(pass);
    }

    /** `await_current_certification`: it returns once the certification of the running release is current. */
    method AwaitCurrentCertification() returns (r: Result<(), Exn>)
      modifies this`calls, this`seen
      ensures calls == old(calls) + [if r.Ok? then Returned else Raised]
      ensures seen == old(seen) + if r.Ok? then [Awaited(host)] else []
      ensures r.Err? ==> !steady && r.error == Exn(CallFailed, |calls|)
    {
      r := Read(false);
      if r.Ok? {
        seen := seen + [Awaited(host)];
      }
    }

    method ReadReleaseMarker(release: Release, marker: Marker) returns (r: Result<string, Exn>)
      modifies this`calls
      ensures calls == old(calls) + [if r.Ok? then Returned else Raised]
      ensures r.Ok? ==> (release, marker) in host.markers && r.value == host.markers[(release, marker)]
      ensures r.Err? ==> r.error == Exn(CallFailed, |calls|) && (steady ==> (release, marker) !in host.markers)
    {
      var _ :- Read((release, marker) !in host.markers);
      return Ok(host.markers[(release, marker)]);
    }

    method ReadBaseline(release: Release) returns (r: Result<Baseline, Exn>)
      modifies this`calls
      ensures calls == old(calls) + [if r.Ok? then Returned else Raised]
      ensures r.Ok? ==> release in host.baselines && r.value == host.baselines[release]
      ensures r.Err? ==> r.error == Exn(CallFailed, |calls|) && (steady ==> release !in host.baselines)
    {
      var _ :- Read(release !in host.baselines);
      return Ok(host.baselines[release]);
    }

    method ReadCompatibilityFact(id: string) returns (r: Result<Option<CompatibilityFact>, Exn>)
      modifies this`calls, this`answers
      ensures answers == old(answers) + [if r.Ok? then FactRead(id, r.value) else FactReadRaised(id)]
      ensures calls == old(calls) + [if r.Ok? then Returned else Raised]
      ensures r.Ok? ==> r.value == if id in host.facts then Some(host.facts[id]) else None
      ensures r.Err? ==> !steady && r.error == Exn(CallFailed, |calls|)
    {
      var read := Read(false);
      r := if read.Ok? then Ok(if id in host.facts then Some(host.facts[id]) else None) else Err(read.error);
      answers := answers + [if r.Ok? then FactRead(id, r.value) else FactReadRaised(id)];
    }

    method EntryIsInactiveDisabledAndFenced() returns (r: Result<bool, Exn>)
      modifies this`calls
      ensures calls == old(calls) + [if r.Ok? then Returned else Raised]
      ensures r.Ok? ==> r.value == host.EntryHeld()
      ensures r.Err? ==> !steady && r.error == Exn(CallFailed, |calls|)
    {
      var _ :- Read(false);
      return Ok(host.EntryHeld());
    }

    method MigrationWritersStoppedAndEntryFenced() returns (r: Result<bool, Exn>)
      modifies this`calls
      ensures calls == old(calls) + [if r.Ok? then Returned else Raised]
      ensures r.Ok? ==> r.value == (host.Quiescent() && host.fenced && !host.entryEnabled)
      ensures r.Err? ==> !steady && r.error == Exn(CallFailed, |calls|)
    {
      var _ :- Read(false);
      return Ok(host.Quiescent() && host.fenced && !host.entryEnabled);
    }

    /** `services_active(ALL_SERVICES)`: the safety services running, and whether ENTRY is. */
    method ServicesActive() returns (r: Result<(set<Service>, bool), Exn>)
      modifies this`calls
      ensures calls == old(calls) + [if r.Ok? then Returned else Raised]
      ensures r.Ok? ==> r.value == (host.running.Keys, host.entryRunning)
      ensures r.Err? ==> !steady && r.error == Exn(CallFailed, |calls|)
    {
      var _ :- Read(false);
      return Ok((host.running.Keys, host.entryRunning));
    }

    method InstallRelease(release: Release) returns (r: Result<(), Exn>)
      requires Valid()
      modifies this`host, this`calls, this`effects, this`path
      ensures effects == old(effects) + [Effect(Install(release), r.Ok?)]
      ensures Valid() && path == old(path) + [host] && calls == old(calls) + [if r.Ok? then Returned else Raised]
      ensures r.Err? ==> !steady && r.error == Exn(CallFailed, |calls|)
      ensures host == old(host) || host == Erased(old(host), release) || host == Installed(old(host), release)
      ensures r.Ok? ==> host == Installed(old(host), release)
    {
      hide Erased;
      var fate, exn := Call(false);
      if fate.Finished? || fate.RaisedAfter? {
        host := Installed(host, release);
      } else if fate.RaisedBetween? {
        host := Erased(host, release);
      }
      path, effects := path + [host], effects + [Effect(Install(release), fate.Finished?)];
      r := if fate.Finished? then Ok(()) else Err(exn);
    }

    method RecordPreservedRuntime(release: Release, baseline: Baseline) returns (r: Result<(), Exn>)
      requires Valid()
      modifies this`host, this`calls, this`effects, this`path
      ensures effects == old(effects) + [Effect(Record(release), r.Ok?)]
      ensures Valid() && path == old(path) + [host] && calls == old(calls) + [if r.Ok? then Returned else Raised]
      ensures r.Err? ==> !steady && r.error == Exn(CallFailed, |calls|)
      ensures host == old(host) || host == old(host).(baselines := old(host).baselines[release := baseline])
      ensures r.Ok? ==> host == old(host).(baselines := old(host).baselines[release := baseline])
    {
      var fate, exn := Call(false);
      if !fate.RaisedBefore? {
        host := host.(baselines := host.baselines[release := baseline]);
      }
      path, effects := path + [host], effects + [Effect(Record(release), fate.Finished?)];
      r := if fate.Finished? then Ok(()) else Err(exn);
    }

    /** Stops the given safety services, and ENTRY with them when asked to. */
    method StopServices(services: set<Service>, entry: bool) returns (r: Result<(), Exn>)
      requires Valid()
      modifies this`host, this`calls, this`effects, this`path
      ensures effects == old(effects) + [Effect(Stop(services, entry), r.Ok?)]
      ensures Valid() && path == old(path) + [host] && calls == old(calls) + [if r.Ok? then Returned else Raised]
      ensures r.Err? ==> !steady && r.error == Exn(CallFailed, |calls|)
      ensures StoppedSome(old(host).(entryRunning := host.entryRunning), host, services)
      ensures host.entryRunning ==> old(host).entryRunning
      ensures !entry ==> host.entryRunning == old(host).entryRunning
      ensures r.Ok? ==> host.running.Keys == old(host).running.Keys - services && (entry ==> !host.entryRunning)
    {
      var fate, exn := Call(false);
      var spared: set<Service>, entryLeft: bool := *, *;
      if fate.Finished? || fate.RaisedAfter? {
        spared, entryLeft := {}, false;
      }
      host := host.(running := map s | s in host.running && (s !in services || s in spared) :: host.running[s],
                    entryRunning := host.entryRunning && (!entry || entryLeft));
      path, effects := path + [host], effects + [Effect(Stop(services, entry), fate.Finished?)];
      r := if fate.Finished? then Ok(()) else Err(exn);
    }

    method StartServices(services: set<Service>) returns (r: Result<(), Exn>)
      requires Valid()
      modifies this`host, this`calls, this`effects, this`path
      ensures effects == old(effects) + [Effect(Start(services), r.Ok?)]
      ensures Valid() && path == old(path) + [host] && calls == old(calls) + [if r.Ok? then Returned else Raised]
      ensures r.Err? ==> !steady && r.error == Exn(CallFailed, |calls|)
      ensures StartedSome(old(host), host, services)
      ensures r.Ok? ==> host == old(host).Started(services)
    {
      var fate, exn := Call(false);
      var reached: set<Service> := *;
      if fate.Finished? || fate.RaisedAfter? {
        reached := services;
      }
      host := host.(running := map s | s in host.running.Keys + (services * reached) ::
                                 if s in host.running then host.running[s] else host.symlink);
      path, effects := path + [host], effects + [Effect(Start(services), fate.Finished?)];
      r := if fate.Finished? then Ok(()) else Err(exn);
    }

    method FenceEntry() returns (r: Result<(), Exn>)
      requires Valid()
      modifies this`host, this`calls, this`effects, this`path
      ensures effects == old(effects) + [Effect(Fence, r.Ok?)]
      ensures Valid() && path == old(path) + [host] && calls == old(calls) + [if r.Ok? then Returned else Raised]
      ensures r.Err? ==> !steady && r.error == Exn(CallFailed, |calls|)
      ensures FencedSome(old(host), host)
    {
      var fate, exn := Call(false);
      var touched: bool, stopped: bool, disabled: bool := *, *, *;
      host := host.(fenced := host.fenced || touched,
                    entryRunning := host.entryRunning && !stopped,
                    entryEnabled := host.entryEnabled && !disabled);
      path, effects := path + [host], effects + [Effect(Fence, fate.Finished?)];
      r := if fate.Finished? then Ok(()) else Err(exn);
    }

    method MigrateSchema(target: string) returns (r: Result<(), Exn>)
      requires Valid()
      modifies this`host, this`calls, this`effects, this`path
      ensures effects == old(effects) + [Effect(Migrate(target), r.Ok?)]
      ensures Valid() && path == old(path) + [host] && calls == old(calls) + [if r.Ok? then Returned else Raised]
      ensures r.Err? ==> !steady && r.error == Exn(CallFailed, |calls|)
      ensures host == old(host) || host == old(host).(revision := target)
      ensures r.Ok? ==> host.revision == target
    {
      var fate, exn := Call(false);
      if fate.Finished? || fate.RaisedAfter? {
        host := host.(revision := target);
      }
      path, effects := path + [host], effects + [Effect(Migrate(target), fate.Finished?)];
      r := if fate.Finished? then Ok(()) else Err(exn);
    }

    /** Storing a fact whose id already belongs to another one raises and stores nothing. */
    method PersistCompatibilityFact(fact: CompatibilityFact) returns (r: Result<(), Exn>)
      requires Valid()
      modifies this`host, this`calls, this`effects, this`path
      ensures effects == old(effects) + [Effect(Persist(fact), r.Ok?)]
      ensures Valid() && path == old(path) + [host] && calls == old(calls) + [if r.Ok? then Returned else Raised]
      ensures r.Err? ==> r.error == Exn(CallFailed, |calls|)
      ensures host == old(host) || host == old(host).(facts := old(host).facts[fact.id := fact])
      ensures r.Ok? ==> host.Holds(fact)
      ensures fact.id in old(host).facts ==> host == old(host)
      ensures steady && r.Err? ==> fact.id in host.facts && host.facts[fact.id] != fact
    {
      var fate, exn := Call(fact.id in host.facts && host.facts[fact.id] != fact);
      if (fate.Finished? || fate.RaisedAfter?) && fact.id !in host.facts {
        host := host.(facts := host.facts[fact.id := fact]);
      }
      path, effects := path + [host], effects + [Effect(Persist(fact), fate.Finished?)];
      r := if fate.Finished? then Ok(()) else Err(exn);
    }

    /** `deploy_identity` and its variants rotate the identity row and report the new one. */
    method DeployIdentity(commit: string, revision: string) returns (r: Result<Identity, Exn>, ghost rotated: bool)
      requires Valid()
      modifies this`host, this`calls, this`effects, this`path
      ensures effects == old(effects) + [Effect(Rotate(commit, revision), r.Ok?)]
      ensures Valid() && path == old(path) + [host] && calls == old(calls) + [if r.Ok? then Returned else Raised]
      ensures r.Err? ==> !steady && r.error == Exn(CallFailed, |calls|)
      ensures host == old(host).(identity := host.identity)
      ensures if rotated then host.identity.commit == commit && host.identity.revision == revision
              else host == old(host)
      ensures r.Ok? ==> rotated && r.value == host.identity
    {
      var fate, exn := Call(false);
      rotated := fate.Finished? || fate.RaisedAfter?;
      if fate.Finished? || fate.RaisedAfter? {
        var seed: string := *;
        host := host.(identity := Identity(commit, revision, seed));
      }
      path, effects := path + [host], effects + [Effect(Rotate(commit, revision), fate.Finished?)];
      r := if fate.Finished? then Ok(host.identity) else Err(exn);
    }

    /** The writes of an activation, cut off anywhere. */
    method ActivateRelease(release: Release, seed: string) returns (r: Result<(), Exn>, ghost writes: nat)
      requires Valid()
      modifies this`host, this`calls, this`effects, this`path
      ensures effects == old(effects) + [Effect(Activate(release), r.Ok?)]
      ensures Valid() && path == old(path) + [host] && calls == old(calls) + [if r.Ok? then Returned else Raised]
      ensures r.Err? ==> !steady && r.error == Exn(CallFailed, |calls|)
      ensures host == Activating(old(host), release, seed, writes)
      ensures r.Ok? ==> writes == ACTIVATION_WRITES
    {
      hide Activating;
      var fate, exn := Call(false);
      var n: nat := *;
      if fate.Finished? || fate.RaisedAfter? {
        n := ACTIVATION_WRITES;
      }
      writes := n;
      host := Activating(host, release, seed, n);
      path, effects := path + [host], effects + [Effect(Activate(release), fate.Finished?)];
      r := if fate.Finished? then Ok(()) else Err(exn);
    }
  }
}
