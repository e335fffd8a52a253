/** The checks both deployment paths make of the host. */
module DeploymentGates {
  import opened Wrappers
  import opened TokyoHost

  /** A call, or several, were made; an exception is a refusal, or one of the calls raised it. */
  predicate Made<T>(before: seq<Outcome>, after: seq<Outcome>, r: Result<T, Exn>) {
    && before <= after && |before| < |after|
    && (r.Ok? ==> after[|after| - 1].Returned?)
    && (r.Err? ==> |before| < r.error.at <= |after| && (r.error.reason.CallFailed? <==> after[r.error.at - 1].Raised?))
  }

  /** It is exactly this refusal, or one of the calls raised. */
  predicate RefusedAs<T>(r: Result<T, Exn>, refusal: Refusal) {
    r.Err? && (r.error.reason.Blocked? ==> r.error.reason.refusal == refusal)
  }

  function IsHex(s: string): bool {
    forall c <- s :: '0' <= c <= '9' || 'a' <= c <= 'f'
  }

  function IsSeedIdentity(s: string): bool {
    |s| == 71 && s[..7] == "sha256:" && IsHex(s[7..])
  }

  predicate IsCommit(s: string) {
    |s| == 40 && IsHex(s)
  }

  method RequireMarker(b: TokyoReleaseBackend, release: Release, marker: Marker, expected: string)
    returns (r: Result<(), Exn>)
    modifies b`calls
    ensures Made(old(b.calls), b.calls, r)
    ensures r.Ok? ==> (release, marker) in b.host.markers && b.host.markers[(release, marker)] == expected
    ensures r.Err? && b.steady ==> (release, marker) !in b.host.markers || b.host.markers[(release, marker)] != expected
    ensures r.Err? ==> RefusedAs(r, MarkerDiffers(release, marker, expected))
    ensures r.Err? && r.error.reason.Blocked? ==>
              (release, marker) in b.host.markers && b.host.markers[(release, marker)] != expected
  {
    var value :- b.ReadReleaseMarker(release, marker);
    if value != expected {
      return Err(Exn(Blocked(MarkerDiffers(release, marker, expected)), |b.calls|));
    }
    return Ok(());
  }

  method RequireCurrent(b: TokyoReleaseBackend, release: Release) returns (r: Result<(), Exn>)
    modifies b`calls
    ensures Made(old(b.calls), b.calls, r)
    ensures r.Ok? ==> b.host.symlink == release
    ensures r.Err? && b.steady ==> b.host.symlink != release
    ensures r.Err? ==> RefusedAs(r, CurrentDiffers(release))
    ensures r.Err? && r.error.reason.Blocked? ==> b.host.symlink != release
  {
    var current :- b.ReadCurrentRelease();
    if current != release {
      return Err(Exn(Blocked(CurrentDiffers(release)), |b.calls|));
    }
    return Ok(());
  }

  /** `services_active(ALL_SERVICES) == frozenset(SAFETY_SERVICES)`. */
  method OnlySafetyActive(b: TokyoReleaseBackend) returns (r: Result<bool, Exn>)
    modifies b`calls
    ensures Made(old(b.calls), b.calls, r)
    ensures r.Ok? ==> r.value == (b.host.running.Keys == SAFETY_SERVICES && !b.host.entryRunning)
    ensures r.Err? ==> !b.steady && r.error.reason.CallFailed?
  {
    var active :- b.ServicesActive();
    return Ok(active == (SAFETY_SERVICES, false));
  }

  method RequireOnlySafety(b: TokyoReleaseBackend) returns (r: Result<(), Exn>)
    modifies b`calls
    ensures Made(old(b.calls), b.calls, r)
    ensures r.Ok? ==> b.host.running.Keys == SAFETY_SERVICES && !b.host.entryRunning
    ensures r.Err? ==> RefusedAs(r, ServicesDiffer)
    ensures r.Err? && r.error.reason.Blocked? ==> !(b.host.running.Keys == SAFETY_SERVICES && !b.host.entryRunning)
  {
    var exact :- OnlySafetyActive(b);
    if !exact {
      return Err(Exn(Blocked(ServicesDiffer), |b.calls|));
    }
    return Ok(());
  }

  /** On this host a certification passed, and so did the exchange probe. */
  ghost predicate Checked(seen: seq<Sight>, h: Host, c: Certification) {
    Certified(h, c) in seen && c.pass && Probed(h, true) in seen
  }

  /** The three markers of a release name it. */
  predicate TargetMarked(release: Release, h: Host, seed: string) {
    && (release, RuntimeCommit) in h.markers && h.markers[(release, RuntimeCommit)] == release.commit
    && (release, SchemaRevision) in h.markers && h.markers[(release, SchemaRevision)] == release.revision
    && (release, SeedIdentity) in h.markers && h.markers[(release, SeedIdentity)] == seed
  }

  lemma MarkedStays(release: Release, h: Host, h': Host, seed: string)
    requires TargetMarked(release, h, seed) && h'.markers == h.markers
    ensures TargetMarked(release, h', seed)
  {
  }

  /** What a marker of the release must say. */
  function MarkerOf(release: Release, marker: Marker, seed: string): string {
    match marker
    case RuntimeCommit => release.commit
    case SchemaRevision => release.revision
    case SeedIdentity => seed
  }

  method RequireMarked(b: TokyoReleaseBackend, release: Release, seed: string) returns (r: Result<(), Exn>)
    modifies b`calls
    ensures Made(old(b.calls), b.calls, r)
    ensures r.Ok? ==> TargetMarked(release, b.host, seed)
    ensures r.Err? && r.error.reason.Blocked? ==>
              && r.error.reason.refusal.MarkerDiffers? && r.error.reason.refusal.release == release
              && r.error.reason.refusal.expected == MarkerOf(release, r.error.reason.refusal.marker, seed)
              && (release, r.error.reason.refusal.marker) in b.host.markers
              && b.host.markers[(release, r.error.reason.refusal.marker)] != r.error.reason.refusal.expected
  {
    var _ :- RequireMarker(b, release, RuntimeCommit, release.commit);
    var _ :- RequireMarker(b, release, SchemaRevision, release.revision);
    r := RequireMarker(b, release, SeedIdentity, seed);
  }
}
