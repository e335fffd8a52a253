/** What the calls of a compatible upgrade say: the script its effects follow, the flags they credit, and what the
    readings after a raised call confirm. */
module UpgradeRecord {
  import opened Wrappers
  import opened TokyoHost
  import opened DeploymentGates
  import opened UpgradeState

  /** The operations of an upgrade, in their order; one that resumes on the target schema records and migrates
      nothing. */
  function Script(plan: UpgradePlan, h0: Host): seq<Operation> {
    if h0.revision == plan.sourceRevision then
      [Fence, Stop(SAFETY_SERVICES, false), Record(plan.target), Migrate(plan.target.revision), Persist(plan.fact),
       Rotate(plan.target.commit, plan.target.revision), Activate(plan.target), Start(SAFETY_SERVICES)]
    else
      [Fence, Stop(SAFETY_SERVICES, false), Persist(plan.fact),
       Rotate(plan.target.commit, plan.target.revision), Activate(plan.target), Start(SAFETY_SERVICES)]
  }

  /** How many of them come before the fact is stored. */
  function BeforeFact(plan: UpgradePlan, h0: Host): nat {
    if h0.revision == plan.sourceRevision then 4 else 2
  }

  /** The try goes on only past effects whose calls returned, or past the fact, read back after it raised. */
  predicate Clean(effects: seq<Effect>) {
    forall e <- effects :: e.returned || e.op.Persist?
  }

  /** The effects of a try are an initial stretch of the script, and only the last can have ended it. */
  predicate FollowsScript(plan: UpgradePlan, h0: Host, effects: seq<Effect>) {
    && |effects| <= |Script(plan, h0)|
    && (forall i | 0 <= i < |effects| :: effects[i].op == Script(plan, h0)[i])
    && (effects != [] ==> Clean(effects[..|effects| - 1]))
  }

  predicate Attempted(effects: seq<Effect>, op: Operation) {
    Effect(op, true) in effects || Effect(op, false) in effects
  }

  /** Each flag, by the effects that were tried and what the confirming readings answered. */
  predicate Credit(plan: UpgradePlan, h0: Host, f: Flags, effects: seq<Effect>, answers: seq<Answer>) {
    var migrate, persist := Migrate(plan.target.revision), Persist(plan.fact);
    && (f.transitionStarted <==> Effect(Fence, true) in effects)
    && (f.migrationAttempted <==> Attempted(effects, migrate))
    && (f.schemaMigrated <==>
          || h0.revision == plan.target.revision || Effect(migrate, true) in effects
          || (Effect(migrate, false) in effects && Inspected(Some(plan.target.revision)) in answers))
    && (f.compatibilityPersistenceAttempted <==> Attempted(effects, persist))
    && (f.compatibilityPersisted <==>
          || Effect(persist, true) in effects
          || (Effect(persist, false) in effects && FactRead(plan.fact.id, Some(plan.fact)) in answers))
    && (f.targetActivated <==> h0.symlink == plan.target || Effect(Activate(plan.target), true) in effects)
    && (f.targetSafetyStarted <==> Effect(Start(SAFETY_SERVICES), true) in effects)
  }

  /** A migration that raised is inspected, once; a fact whose storing raised is read back. */
  predicate Confirmed(plan: UpgradePlan, effects: seq<Effect>, answers: seq<Answer>) {
    && (Effect(Migrate(plan.target.revision), false) in effects ==>
          |answers| == 1 && (answers[0].Inspected? || answers[0].InspectionRaised?))
    && (Effect(Persist(plan.fact), false) in effects ==>
          |answers| > 0 && (answers[0].FactRead? || answers[0].FactReadRaised?) && answers[0].id == plan.fact.id)
    && (Effect(Migrate(plan.target.revision), false) !in effects && !Attempted(effects, Persist(plan.fact)) ==> answers == [])
  }

  /** The seed to activate with on recovery. */
  function SeedAfter(plan: UpgradePlan, seed0: string, h: Host, effects: seq<Effect>): string {
    if Effect(Rotate(plan.target.commit, plan.target.revision), true) in effects && IsSeedIdentity(h.identity.seed)
    then h.identity.seed else seed0
  }

  /** What an effect of the try credits a flag with by itself. */
  function CreditedBy(f: Flags, e: Effect): Flags {
    match e.op
    case Fence => if e.returned then f.(transitionStarted := true) else f
    case Migrate(_) =>
      if e.returned then f.(migrationAttempted := true, schemaMigrated := true) else f.(migrationAttempted := true)
    case Persist(_) =>
      if e.returned then f.(compatibilityPersistenceAttempted := true, compatibilityPersisted := true)
      else f.(compatibilityPersistenceAttempted := true)
    case Activate(_) => if e.returned then f.(targetActivated := true) else f
    case Start(_) => if e.returned then f.(targetSafetyStarted := true) else f
    case _ => f
  }

  /** The record of a try up to some point, and its flags. */
  predicate OnRecord(plan: UpgradePlan, h0: Host, f: Flags, effects: seq<Effect>, answers: seq<Answer>) {
    FollowsScript(plan, h0, effects) && Credit(plan, h0, f, effects, answers) && Confirmed(plan, effects, answers)
  }

  /** The next operation of the script. */
  predicate Due(plan: UpgradePlan, h0: Host, effects: seq<Effect>, op: Operation) {
    Clean(effects) && |effects| < |Script(plan, h0)| && Script(plan, h0)[|effects|] == op
  }

  lemma ScriptGrows(plan: UpgradePlan, h0: Host, effects: seq<Effect>, e: Effect)
    requires FollowsScript(plan, h0, effects) && Due(plan, h0, effects, e.op)
    ensures FollowsScript(plan, h0, effects + [e])
    ensures e.returned || e.op.Persist? ==> Clean(effects + [e])
  {
    assert (effects + [e])[..|effects|] == effects;
  }

  /** No operation of the script comes twice. */
  lemma Untried(plan: UpgradePlan, h0: Host, effects: seq<Effect>, op: Operation)
    requires plan.Valid() && FollowsScript(plan, h0, effects) && Due(plan, h0, effects, op)
    ensures !Attempted(effects, op)
  {
  }

  /** A record with one effect more says the same of every other operation. */
  lemma Besides(effects: seq<Effect>, e: Effect)
    ensures Effect(e.op, e.returned) in effects + [e]
    ensures Effect(e.op, !e.returned) in effects + [e] <==> Effect(e.op, !e.returned) in effects
    ensures forall op | op != e.op :: Effect(op, true) in effects + [e] <==> Effect(op, true) in effects
    ensures forall op | op != e.op :: Effect(op, false) in effects + [e] <==> Effect(op, false) in effects
  {
    assert (effects + [e])[|effects|] == e;
  }

  lemma DueInScript(plan: UpgradePlan, h0: Host, effects: seq<Effect>, op: Operation)
    requires Due(plan, h0, effects, op)
    ensures op in {Fence, Stop(SAFETY_SERVICES, false), Record(plan.target), Migrate(plan.target.revision),
                   Persist(plan.fact), Rotate(plan.target.commit, plan.target.revision), Activate(plan.target),
                   Start(SAFETY_SERVICES)}
  {
  }

  /** What a record says of an operation: whether it returned, and whether it raised. */
  predicate Alike(effects: seq<Effect>, effects': seq<Effect>, op: Operation) {
    && (Effect(op, true) in effects' <==> Effect(op, true) in effects)
    && (Effect(op, false) in effects' <==> Effect(op, false) in effects)
  }

  lemma BesidesAlike(effects: seq<Effect>, e: Effect, op: Operation)
    requires op != e.op
    ensures Alike(effects, effects + [e], op)
  {
    Besides(effects, e);
  }

  /** The operations the flags speak of. */
  predicate AllAlike(plan: UpgradePlan, effects: seq<Effect>, effects': seq<Effect>, but: Operation) {
    && (but != Fence ==> Alike(effects, effects', Fence))
    && (but != Migrate(plan.target.revision) ==> Alike(effects, effects', Migrate(plan.target.revision)))
    && (but != Persist(plan.fact) ==> Alike(effects, effects', Persist(plan.fact)))
    && (but != Activate(plan.target) ==> Alike(effects, effects', Activate(plan.target)))
    && (but != Start(SAFETY_SERVICES) ==> Alike(effects, effects', Start(SAFETY_SERVICES)))
  }

  lemma CreditKeeps(plan: UpgradePlan, h0: Host, f: Flags, effects: seq<Effect>, answers: seq<Answer>, effects': seq<Effect>, e: Effect)
    requires Credit(plan, h0, f, effects, answers) && Confirmed(plan, effects, answers)
    requires AllAlike(plan, effects, effects', e.op) && e in effects' && !Attempted(effects, e.op)
    requires Effect(e.op, !e.returned) !in effects'
    requires e.op.Migrate? || e.op.Persist? ==> e.returned
    requires e.op.Migrate? ==> e.op == Migrate(plan.target.revision)
    requires e.op.Persist? ==> e.op == Persist(plan.fact)
    requires e.op.Activate? ==> e.op == Activate(plan.target)
    requires e.op.Start? ==> e.op == Start(SAFETY_SERVICES)
    ensures Credit(plan, h0, CreditedBy(f, e), effects', answers)
    ensures Confirmed(plan, effects', answers)
  {
    hide SAFETY_SERVICES;
  }

  lemma TryKeeps(plan: UpgradePlan, h0: Host, f: Flags, effects: seq<Effect>, answers: seq<Answer>, e: Effect)
    requires plan.Valid() && OnRecord(plan, h0, f, effects, answers) && Due(plan, h0, effects, e.op)
    requires e.op.Migrate? || e.op.Persist? ==> e.returned
    ensures OnRecord(plan, h0, CreditedBy(f, e), effects + [e], answers)
    ensures e.returned ==> Clean(effects + [e])
  {
    ScriptGrows(plan, h0, effects, e);
    Untried(plan, h0, effects, e.op);
    DueInScript(plan, h0, effects, e.op);
    Besides(effects, e);
    var effects' := effects + [e];
    AllBesides(plan, effects, e);
    hide Alike, FollowsScript, SAFETY_SERVICES, Credit, Confirmed, Due;
    CreditKeeps(plan, h0, f, effects, answers, effects', e);
  }

  lemma AllBesides(plan: UpgradePlan, effects: seq<Effect>, e: Effect)
    ensures AllAlike(plan, effects, effects + [e], e.op)
  {
    hide Alike, SAFETY_SERVICES;
    if e.op != Fence { BesidesAlike(effects, e, Fence); }
    if e.op != Migrate(plan.target.revision) { BesidesAlike(effects, e, Migrate(plan.target.revision)); }
    if e.op != Persist(plan.fact) { BesidesAlike(effects, e, Persist(plan.fact)); }
    if e.op != Activate(plan.target) { BesidesAlike(effects, e, Activate(plan.target)); }
    if e.op != Start(SAFETY_SERVICES) { BesidesAlike(effects, e, Start(SAFETY_SERVICES)); }
  }

  /** A migration that raised, and its inspection. */
  lemma MigrationRaised(plan: UpgradePlan, h0: Host, f: Flags, effects: seq<Effect>, answers: seq<Answer>, answer: Answer)
    requires plan.Valid() && OnRecord(plan, h0, f, effects, answers)
    requires Due(plan, h0, effects, Migrate(plan.target.revision)) && !Attempted(effects, Persist(plan.fact))
    requires answer.Inspected? || answer.InspectionRaised?
    ensures
      var f' := f.(migrationAttempted := true, schemaMigrated := f.schemaMigrated || answer == Inspected(Some(plan.target.revision)));
      OnRecord(plan, h0, f', effects + [Effect(Migrate(plan.target.revision), false)], answers + [answer])
  {
    var e := Effect(Migrate(plan.target.revision), false);
    ScriptGrows(plan, h0, effects, e);
    Untried(plan, h0, effects, e.op);
    Besides(effects, e);
    AllBesides(plan, effects, e);
    hide FollowsScript, SAFETY_SERVICES, Due;
    assert answers == [];
  }

  /** A fact whose storing raised, and its reading back. */
  lemma StoringRaised(plan: UpgradePlan, h0: Host, f: Flags, effects: seq<Effect>, answers: seq<Answer>, answer: Answer)
    requires plan.Valid() && OnRecord(plan, h0, f, effects, answers)
    requires Due(plan, h0, effects, Persist(plan.fact))
    requires (answer.FactRead? || answer.FactReadRaised?) && answer.id == plan.fact.id
    ensures
      var f' := f.(compatibilityPersistenceAttempted := true,
                   compatibilityPersisted := f.compatibilityPersisted || answer == FactRead(plan.fact.id, Some(plan.fact)));
      var effects' := effects + [Effect(Persist(plan.fact), false)];
      OnRecord(plan, h0, f', effects', answers + [answer]) && Clean(effects')
  {
    var e := Effect(Persist(plan.fact), false);
    ScriptGrows(plan, h0, effects, e);
    Untried(plan, h0, effects, e.op);
    Besides(effects, e);
    AllBesides(plan, effects, e);
    assert Effect(Migrate(plan.target.revision), false) !in effects;
    hide FollowsScript, SAFETY_SERVICES, Due;
    assert answers == [];
  }

  /** Reading the fact again, once it counts as stored, says nothing new. */
  lemma HeardAgain(plan: UpgradePlan, h0: Host, f: Flags, effects: seq<Effect>, answers: seq<Answer>, answer: Answer)
    requires OnRecord(plan, h0, f, effects, answers) && Clean(effects) && f.compatibilityPersisted
    requires answer.FactRead? || answer.FactReadRaised?
    ensures OnRecord(plan, h0, f, effects, answers + [answer])
  {
    assert Effect(Migrate(plan.target.revision), false) !in effects;
    hide FollowsScript, SAFETY_SERVICES;
  }

  /** Nothing is on record when the try is entered. */
  lemma OpenRecord(plan: UpgradePlan, h0: Host)
    requires plan.Valid()
    ensures OnRecord(plan, h0, InitialFlags(plan, h0), [], []) && Clean([])
  {
  }

  // ----- the record read -----

  lemma EndsTheTry(effects: seq<Effect>, i: nat)
    requires i < |effects| && Clean(effects[..|effects| - 1]) && !effects[i].returned && !effects[i].op.Persist?
    ensures i == |effects| - 1
  {
    var init := effects[..|effects| - 1];
    assert forall k | 0 <= k < |init| :: init[k] in init;
  }

  /** A migration that raised counts exactly if the inspection made after it found the target schema; and one tried and
      not confirmed is the last effect of its try, inspected in vain. */
  lemma MigrationOutcome(plan: UpgradePlan, h0: Host, f: Flags, effects: seq<Effect>, answers: seq<Answer>)
    requires plan.Valid() && OnRecord(plan, h0, f, effects, answers)
    ensures Effect(Migrate(plan.target.revision), false) in effects ==>
              && effects[|effects| - 1] == Effect(Migrate(plan.target.revision), false)
              && (f.schemaMigrated <==> answers == [Inspected(Some(plan.target.revision))])
    ensures f.migrationAttempted && !f.schemaMigrated ==>
              && effects != [] && effects[|effects| - 1] == Effect(Migrate(plan.target.revision), false)
              && |answers| == 1 && answers[0] != Inspected(Some(plan.target.revision))
              && (answers[0].Inspected? || answers[0].InspectionRaised?)
  {
    var e := Effect(Migrate(plan.target.revision), false);
    if e in effects {
      var i :| 0 <= i < |effects| && effects[i] == e;
      EndsTheTry(effects, i);
      assert h0.revision == plan.sourceRevision;
    }
  }

  /** A fact whose storing raised counts exactly if it was read back. */
  lemma StoringOutcome(plan: UpgradePlan, h0: Host, f: Flags, effects: seq<Effect>, answers: seq<Answer>)
    requires plan.Valid() && OnRecord(plan, h0, f, effects, answers) && Effect(Persist(plan.fact), true) !in effects
    ensures f.compatibilityPersistenceAttempted && !f.compatibilityPersisted ==>
              && Effect(Persist(plan.fact), false) in effects && answers != []
              && answers[0] != FactRead(plan.fact.id, Some(plan.fact))
              && (answers[0].FactRead? || answers[0].FactReadRaised?) && answers[0].id == plan.fact.id
  {
  }

  /** What an upgrade does when it succeeds, effect by effect. */
  lemma CompletedScript(plan: UpgradePlan, h0: Host, f: Flags, effects: seq<Effect>, answers: seq<Answer>)
    requires plan.Valid() && OnRecord(plan, h0, f, effects, answers) && Clean(effects) && |effects| == |Script(plan, h0)|
    ensures
      var n := |effects|;
      && effects[0] == Effect(Fence, true) && effects[1] == Effect(Stop(SAFETY_SERVICES, false), true)
      && (if h0.revision == plan.sourceRevision then
            && n == 8 && effects[2] == Effect(Record(plan.target), true)
            && effects[3] == Effect(Migrate(plan.target.revision), true)
          else n == 6)
      && effects[n - 4].op == Persist(plan.fact)
      && effects[n - 3] == Effect(Rotate(plan.target.commit, plan.target.revision), true)
      && effects[n - 2] == Effect(Activate(plan.target), true)
      && effects[n - 1] == Effect(Start(SAFETY_SERVICES), true)
  {
    assert forall i | 0 <= i < |effects| :: effects[i] in effects;
  }
}
