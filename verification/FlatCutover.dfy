/** scripts/trading_kernel/verify_flat_cutover.py: the flat-state and identity gate of the cutover. */
module FlatCutover {

  /** The ten target identities a cutover id is bound to. */
  datatype Identities = Identities(
    serverId: string,
    databaseIdentity: string,
    venueId: string,
    accountId: string,
    runtimeProfileId: string,
    applicationSchema: string,
    targetCommit: string,
    targetSchemaRevision: string,
    targetSeedIdentity: string,
    targetReleaseId: string)

  datatype CutoverFacts = CutoverFacts(
    serverId: string,
    databaseIdentity: string,
    venueId: string,
    accountId: string,
    accountMode: string,
    targetCommit: string,
    targetSchemaRevision: string,
    targetSeedIdentity: string,
    nonFlatPositions: nat,
    openOrders: nat,
    protectionOrders: nat,
    nonterminalTickets: nat,
    activeBudgets: nat,
    activeDomains: nat,
    unreviewedTerminalTickets: nat,
    unresolvedOutcomes: nat,
    openIncidents: nat,
    activeOldWriters: seq<string>,
    activeNewWriters: seq<string>,
    exchangeWritesFenced: bool)

  datatype CutoverBlocker =
    | ServerIdentityMismatch
    | DatabaseIdentityMismatch
    | VenueIdentityMismatch
    | AccountIdentityMismatch
    | AccountModeInvalid
    | PositionsNotFlat
    | OpenOrdersPresent
    | ProtectionResiduePresent
    | OldTicketsNonterminal
    | ActiveBudgetsPresent
    | ActiveDomainsPresent
    | TerminalReviewMissing
    | CommandOutcomeUnknown
    | RuntimeIncidentOpen
    | TargetCommitMismatch
    | TargetSchemaMismatch
    | TargetSeedIdentityMismatch
    | OldWriterActive
    | NewWriterActive
    | WriterFenceMissing

  function BlockerValue(blocker: CutoverBlocker): string {
    match blocker
    case ServerIdentityMismatch => "server_identity_mismatch"
    case DatabaseIdentityMismatch => "database_identity_mismatch"
    case VenueIdentityMismatch => "venue_identity_mismatch"
    case AccountIdentityMismatch => "account_identity_mismatch"
    case AccountModeInvalid => "account_mode_invalid"
    case PositionsNotFlat => "positions_not_flat"
    case OpenOrdersPresent => "open_orders_present"
    case ProtectionResiduePresent => "protection_residue_present"
    case OldTicketsNonterminal => "old_tickets_nonterminal"
    case ActiveBudgetsPresent => "active_budgets_present"
    case ActiveDomainsPresent => "active_domains_present"
    case TerminalReviewMissing => "terminal_review_missing"
    case CommandOutcomeUnknown => "command_outcome_unknown"
    case RuntimeIncidentOpen => "runtime_incident_open"
    case TargetCommitMismatch => "target_commit_mismatch"
    case TargetSchemaMismatch => "target_schema_mismatch"
    case TargetSeedIdentityMismatch => "target_seed_identity_mismatch"
    case OldWriterActive => "old_writer_active"
    case NewWriterActive => "new_writer_active"
    case WriterFenceMissing => "writer_fence_missing"
  }

  /** The comma-joined text the journal and the exception carry. */
  function BlockerText(blockers: seq<CutoverBlocker>): string {
    if blockers == [] then ""
    else if |blockers| == 1 then BlockerValue(blockers[0])
    else BlockerValue(blockers[0]) + "," + BlockerText(blockers[1..])
  }

  /** What the gate promises when it passes: every identity equal, every count zero, and, when the writer
      fence is required, no writer active and the fence present. */
  predicate FlatAndIdentical(plan: Identities, facts: CutoverFacts, requireWriterFence: bool) {
    && facts.serverId == plan.serverId
    && facts.databaseIdentity == plan.databaseIdentity
    && facts.venueId == plan.venueId
    && facts.accountId == plan.accountId
    && facts.accountMode == "independent_sides"
    && facts.targetCommit == plan.targetCommit
    && facts.targetSchemaRevision == plan.targetSchemaRevision
    && facts.targetSeedIdentity == plan.targetSeedIdentity
    && facts.nonFlatPositions == facts.openOrders == facts.protectionOrders == facts.nonterminalTickets == 0
    && facts.activeBudgets == facts.activeDomains == facts.unreviewedTerminalTickets == 0
    && facts.unresolvedOutcomes == facts.openIncidents == 0
    && (requireWriterFence ==>
          facts.activeOldWriters == [] && facts.activeNewWriters == [] && facts.exchangeWritesFenced)
  }

  /** The table of unconditional checks, in source order. */
  function Checks(plan: Identities, facts: CutoverFacts): seq<(bool, CutoverBlocker)> {
    [ (facts.serverId != plan.serverId, ServerIdentityMismatch),
      (facts.databaseIdentity != plan.databaseIdentity, DatabaseIdentityMismatch),
      (facts.venueId != plan.venueId, VenueIdentityMismatch),
      (facts.accountId != plan.accountId, AccountIdentityMismatch),
      (facts.accountMode != "independent_sides", AccountModeInvalid),
      (facts.nonFlatPositions != 0, PositionsNotFlat),
      (facts.openOrders != 0, OpenOrdersPresent),
      (facts.protectionOrders != 0, ProtectionResiduePresent),
      (facts.nonterminalTickets != 0, OldTicketsNonterminal),
      (facts.activeBudgets != 0, ActiveBudgetsPresent),
      (facts.activeDomains != 0, ActiveDomainsPresent),
      (facts.unreviewedTerminalTickets != 0, TerminalReviewMissing),
      (facts.unresolvedOutcomes != 0, CommandOutcomeUnknown),
      (facts.openIncidents != 0, RuntimeIncidentOpen),
      (facts.targetCommit != plan.targetCommit, TargetCommitMismatch),
      (facts.targetSchemaRevision != plan.targetSchemaRevision, TargetSchemaMismatch),
      (facts.targetSeedIdentity != plan.targetSeedIdentity, TargetSeedIdentityMismatch) ]
  }

  /** The blockers of the failed checks, in order. */
  function FailedOf(checks: seq<(bool, CutoverBlocker)>): (blockers: seq<CutoverBlocker>)
    ensures forall c <- checks :: c.0 ==> c.1 in blockers
    ensures forall b <- blockers :: (true, b) in checks
    ensures (forall c <- checks :: !c.0) ==> blockers == []
  {
    if checks == [] then []
    else
      var init := FailedOf(checks[..|checks| - 1]);
      var last := checks[|checks| - 1];
      if last.0 then init + [last.1] else init
  }

  function FenceBlockers(facts: CutoverFacts): seq<CutoverBlocker> {
    (if facts.activeOldWriters != [] then [OldWriterActive] else [])
    + (if facts.activeNewWriters != [] then [NewWriterActive] else [])
    + (if !facts.exchangeWritesFenced then [WriterFenceMissing] else [])
  }

  function Blockers(plan: Identities, facts: CutoverFacts, requireWriterFence: bool): seq<CutoverBlocker> {
    FailedOf(Checks(plan, facts)) + (if requireWriterFence then FenceBlockers(facts) else [])
  }

  /** No check failed precisely when every entry of the table is false. */
  lemma FailedOfEmpty(checks: seq<(bool, CutoverBlocker)>)
    ensures FailedOf(checks) == [] <==> forall i | 0 <= i < |checks| :: !checks[i].0
  {
    if forall i | 0 <= i < |checks| :: !checks[i].0 {
      assert forall c <- checks :: !c.0;
    } else {
      var i :| 0 <= i < |checks| && checks[i].0;
      assert checks[i] in checks;
    }
  }

  /** The table read off: all seventeen entries false means flat and identical, writers aside. */
  lemma ChecksAllPass(plan: Identities, facts: CutoverFacts)
    ensures (forall i | 0 <= i < |Checks(plan, facts)| :: !Checks(plan, facts)[i].0)
            <==> FlatAndIdentical(plan, facts, false)
  {
    var checks := Checks(plan, facts);
    if forall i | 0 <= i < |checks| :: !checks[i].0 {
      assert !checks[0].0 && !checks[1].0 && !checks[2].0 && !checks[3].0 && !checks[4].0 && !checks[5].0;
      assert !checks[6].0 && !checks[7].0 && !checks[8].0 && !checks[9].0 && !checks[10].0 && !checks[11].0;
      assert !checks[12].0 && !checks[13].0 && !checks[14].0 && !checks[15].0 && !checks[16].0;
    }
  }

  lemma AppendedEmpty(base: seq<CutoverBlocker>, more: seq<CutoverBlocker>, wanted: bool)
    ensures base + (if wanted then more else []) == [] <==> base == [] && (wanted ==> more == [])
  {
    if base != [] {
      assert (base + more)[0] == base[0] && (base + [])[0] == base[0];
    } else {
      assert base + more == more;
    }
  }

  /** The gate is exact: no blocker is reported precisely when the world is flat and identical. */
  lemma BlockersExact(plan: Identities, facts: CutoverFacts, requireWriterFence: bool)
    ensures Blockers(plan, facts, requireWriterFence) == [] <==> FlatAndIdentical(plan, facts, requireWriterFence)
  {
    FailedOfEmpty(Checks(plan, facts));
    ChecksAllPass(plan, facts);
    AppendedEmpty(FailedOf(Checks(plan, facts)), FenceBlockers(facts), requireWriterFence);
  }

  /** What each blocker says of the facts. */
  predicate Holds(b: CutoverBlocker, plan: Identities, facts: CutoverFacts, requireWriterFence: bool) {
    match b
    case ServerIdentityMismatch => facts.serverId != plan.serverId
    case DatabaseIdentityMismatch => facts.databaseIdentity != plan.databaseIdentity
    case VenueIdentityMismatch => facts.venueId != plan.venueId
    case AccountIdentityMismatch => facts.accountId != plan.accountId
    case AccountModeInvalid => facts.accountMode != "independent_sides"
    case PositionsNotFlat => facts.nonFlatPositions > 0
    case OpenOrdersPresent => facts.openOrders > 0
    case ProtectionResiduePresent => facts.protectionOrders > 0
    case OldTicketsNonterminal => facts.nonterminalTickets > 0
    case ActiveBudgetsPresent => facts.activeBudgets > 0
    case ActiveDomainsPresent => facts.activeDomains > 0
    case TerminalReviewMissing => facts.unreviewedTerminalTickets > 0
    case CommandOutcomeUnknown => facts.unresolvedOutcomes > 0
    case RuntimeIncidentOpen => facts.openIncidents > 0
    case TargetCommitMismatch => facts.targetCommit != plan.targetCommit
    case TargetSchemaMismatch => facts.targetSchemaRevision != plan.targetSchemaRevision
    case TargetSeedIdentityMismatch => facts.targetSeedIdentity != plan.targetSeedIdentity
    case OldWriterActive => requireWriterFence && |facts.activeOldWriters| > 0
    case NewWriterActive => requireWriterFence && |facts.activeNewWriters| > 0
    case WriterFenceMissing => requireWriterFence && !facts.exchangeWritesFenced
  }

  lemma {:induction false} FailedOfMember(checks: seq<(bool, CutoverBlocker)>, b: CutoverBlocker)
    ensures b in FailedOf(checks) <==> (true, b) in checks
  {
    if checks != [] {
      FailedOfMember(checks[..|checks| - 1], b);
      assert checks == checks[..|checks| - 1] + [checks[|checks| - 1]];
    }
  }

  /** The table pairs each comparison with its blocker, at its place. */
  lemma CheckAtPlace(plan: Identities, facts: CutoverFacts, b: CutoverBlocker)
    requires Place(b) < 17
    ensures Checks(plan, facts)[Place(b)] == (Holds(b, plan, facts, false), b)
  {
  }

  lemma PlacesInTable(plan: Identities, facts: CutoverFacts, i: nat)
    requires i < 17
    ensures Place(Checks(plan, facts)[i].1) == i
  {
  }

  lemma ChecksMean(plan: Identities, facts: CutoverFacts, b: CutoverBlocker)
    ensures (true, b) in Checks(plan, facts) <==> Holds(b, plan, facts, false)
  {
    assert |Checks(plan, facts)| == 17;
    assert Place(b) >= 17 ==> !Holds(b, plan, facts, false);
    if Place(b) < 17 {
      CheckAtPlace(plan, facts, b);
    }
    hide Checks, Holds, Place;
    var checks := Checks(plan, facts);
    if i :| 0 <= i < |checks| && checks[i] == (true, b) {
      PlacesInTable(plan, facts, i);
    }
    if Place(b) < 17 {
      assert checks[Place(b)] in checks;
    }
  }

  /** The blockers of the unconditional table come in this order, those of the fence after them. */
  function Place(b: CutoverBlocker): (n: nat)
    ensures n < 20
    ensures b.OldWriterActive? || b.NewWriterActive? || b.WriterFenceMissing? <==> n >= 17
  {
    match b
    case ServerIdentityMismatch => 0
    case DatabaseIdentityMismatch => 1
    case VenueIdentityMismatch => 2
    case AccountIdentityMismatch => 3
    case AccountModeInvalid => 4
    case PositionsNotFlat => 5
    case OpenOrdersPresent => 6
    case ProtectionResiduePresent => 7
    case OldTicketsNonterminal => 8
    case ActiveBudgetsPresent => 9
    case ActiveDomainsPresent => 10
    case TerminalReviewMissing => 11
    case CommandOutcomeUnknown => 12
    case RuntimeIncidentOpen => 13
    case TargetCommitMismatch => 14
    case TargetSchemaMismatch => 15
    case TargetSeedIdentityMismatch => 16
    case OldWriterActive => 17
    case NewWriterActive => 18
    case WriterFenceMissing => 19
  }

  /** A blocker is reported exactly when what it says holds. */
  lemma BlockersMean(plan: Identities, facts: CutoverFacts, requireWriterFence: bool, b: CutoverBlocker)
    ensures b in Blockers(plan, facts, requireWriterFence) <==> Holds(b, plan, facts, requireWriterFence)
  {
    FailedOfMember(Checks(plan, facts), b);
    ChecksMean(plan, facts, b);
    hide Checks, FailedOf;
    assert b in FenceBlockers(facts) <==> Place(b) >= 17 && Holds(b, plan, facts, true);
  }

  predicate Ascending(blockers: seq<CutoverBlocker>) {
    forall i, k | 0 <= i < k < |blockers| :: Place(blockers[i]) < Place(blockers[k])
  }

  lemma {:induction false} FailedOfAscends(checks: seq<(bool, CutoverBlocker)>)
    requires forall i | 0 <= i < |checks| :: Place(checks[i].1) == i
    ensures Ascending(FailedOf(checks)) && forall b <- FailedOf(checks) :: Place(b) < |checks|
  {
    if checks != [] {
      FailedOfAscends(checks[..|checks| - 1]);
    }
  }

  lemma FenceAscends(facts: CutoverFacts)
    ensures Ascending(FenceBlockers(facts)) && forall b <- FenceBlockers(facts) :: Place(b) >= 17
  {
  }

  lemma Joined(base: seq<CutoverBlocker>, more: seq<CutoverBlocker>)
    requires Ascending(base) && Ascending(more)
    requires (forall b <- base :: Place(b) < 17) && (forall b <- more :: Place(b) >= 17)
    ensures Ascending(base + more) && Ascending(base + [])
  {
    hide Place;
    assert base + [] == base;
  }

  /** No blocker is reported twice, and all in the order of the table. */
  lemma BlockersAscend(plan: Identities, facts: CutoverFacts, requireWriterFence: bool)
    ensures Ascending(Blockers(plan, facts, requireWriterFence))
  {
    assert |Checks(plan, facts)| == 17;
    hide Checks, FailedOf, FenceBlockers, Place, Ascending;
    forall i | 0 <= i < 17 ensures Place(Checks(plan, facts)[i].1) == i {
      PlacesInTable(plan, facts, i);
    }
    FailedOfAscends(Checks(plan, facts));
    FenceAscends(facts);
    Joined(FailedOf(Checks(plan, facts)), FenceBlockers(facts));
  }

  /** The generator over the table: one blocker per failed check, in order. */
  method CollectFailed(checks: seq<(bool, CutoverBlocker)>) returns (blockers: seq<CutoverBlocker>)
    ensures blockers == FailedOf(checks)
  {
    blockers := [];
    for i := 0 to |checks|
      invariant blockers == FailedOf(checks[..i])
    {
      assert checks[..i + 1][..i] == checks[..i];
      if checks[i].0 {
        blockers := blockers + [checks[i].1];
      }
    }
    assert checks[..|checks|] == checks;
  }

  method CollectFence(facts: CutoverFacts, base: seq<CutoverBlocker>) returns (blockers: seq<CutoverBlocker>)
    ensures blockers == base + FenceBlockers(facts)
  {
    blockers := base;
    if facts.activeOldWriters != [] {
      blockers := blockers + [OldWriterActive];
    }
    if facts.activeNewWriters != [] {
      blockers := blockers + [NewWriterActive];
    }
    if !facts.exchangeWritesFenced {
      blockers := blockers + [WriterFenceMissing];
    }
  }

  /** `verify_cutover_facts`. */
  method VerifyCutoverFacts(plan: Identities, facts: CutoverFacts, requireWriterFence: bool)
    returns (pass: bool, blockers: seq<CutoverBlocker>)
    ensures blockers == Blockers(plan, facts, requireWriterFence)
    ensures pass <==> blockers == []
    ensures pass <==> FlatAndIdentical(plan, facts, requireWriterFence)
  {
    hide FlatAndIdentical, Checks, FenceBlockers;
    blockers := CollectFailed(Checks(plan, facts));
    if requireWriterFence {
      blockers := CollectFence(facts, blockers);
    }
    BlockersExact(plan, facts, requireWriterFence);
    pass := blockers == [];
  }
}
