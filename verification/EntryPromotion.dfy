/** scripts/trading_kernel/promote_entry.py: the one-way promotion of a fenced release to ENTRY. */
module EntryPromotion {
  import opened Wrappers

  /** The fields of a certification the promotion reads. */
  datatype Certification = Certification(
    pass: bool,
    entryRecoveryReady: bool,
    ownerEntryResumeAuthorized: bool,
    basisDigest: string,
    validUntilMs: Option<int>,
    flat: bool,
    hasOwnerPolicy: bool,
    policyVersion: int,
    newEntrySubmitEnabled: bool,
    exchangeCommands: bool)

  predicate IsDigest(s: string) {
    |s| == 71 && s[..7] == "sha256:" && forall i | 7 <= i < 71 :: '0' <= s[i] <= '9' || 'a' <= s[i] <= 'f'
  }

  /** `_authority_matches`, at a given time. */
  predicate AuthorityMatches(c: Certification, prepareOwnerResume: bool, nowMs: int) {
    && c.pass && c.entryRecoveryReady
    && (prepareOwnerResume || c.ownerEntryResumeAuthorized)
    && IsDigest(c.basisDigest)
    && c.validUntilMs.Some? && c.validUntilMs.value > nowMs
    && c.flat && c.hasOwnerPolicy && c.policyVersion > 0
    && c.newEntrySubmitEnabled == !prepareOwnerResume
    && c.exchangeCommands
  }

  /** Why a promotion is refused, and the text it is refused with. */
  datatype Reason =
    | OwnerResumeRequired
    | GateFailed
    | ExternalMismatch
    | WorkersNotStable
    | NotHeld
    | NotActiveWhileFenced
    | FinalPostflightFailed
    | NotActiveAfterUnfence
    | Other(text: string)

  function ReasonText(reason: Reason): string {
    match reason
    case OwnerResumeRequired => "entry_promotion_gate_failed:owner_entry_resume_required"
    case GateFailed => "entry_promotion_gate_failed"
    case ExternalMismatch => "exchange_state_or_rule_gate_failed"
    case WorkersNotStable => "safety_worker_gate_failed"
    case NotHeld => "entry_service_not_fenced_inactive_disabled"
    case NotActiveWhileFenced => "entry_not_active_while_fenced"
    case FinalPostflightFailed => "final_postflight_failed"
    case NotActiveAfterUnfence => "entry_not_active_after_unfence"
    case Other(text) => text
  }

  datatype PromotionError = PromotionBlocked(reason: Reason) | CallRaised

  datatype Call = MatchCall | WorkersCall | HeldCall | FencedCall | ActiveCall | StartCall | UnfenceCall | RefenceCall

  /** What was asked and answered, and what was done. */
  datatype Event =
    | LookedHeld(held: bool)                    // ENTRY inactive, disabled and fenced
    | LookedFenced(active: bool)                // ENTRY active behind the fence
    | LookedActive(active: bool)                // ENTRY active without it
    | Certified(certification: Certification)
    | CertificationRaised(error: PromotionError)
    | Judged(certification: Certification, nowMs: int)
    | Matched(certification: Certification, matches: bool)
    | Workers(stable: bool)
    | Starting
    | Unfencing
    | Refencing
    | Raised(call: Call)

  /** A certification was obtained at or after `from`, found valid at its time, matched outside, and the safety
      workers found stable, in that order, all before the end of the log. */
  predicate Admitted(log: seq<Event>, from: nat, c: Certification, prepare: bool) {
    exists i, j, k, l | from <= i < j < k < l < |log| :: AdmittedAt(log, i, j, k, l, c, prepare)
  }

  predicate AdmittedAt(log: seq<Event>, i: nat, j: nat, k: nat, l: nat, c: Certification, prepare: bool)
    requires i < j < k < l < |log|
  {
    && log[i] == Certified(c)
    && log[j].Judged? && log[j].certification == c && AuthorityMatches(c, prepare, log[j].nowMs)
    && log[k] == Matched(c, true)
    && log[l] == Workers(true)
  }

  lemma AdmittedFrom(log: seq<Event>, i: nat, j: nat, k: nat, l: nat, c: Certification, prepare: bool)
    requires i < j < k < l < |log| && AdmittedAt(log, i, j, k, l, c, prepare)
    ensures Admitted(log, 0, c, prepare)
  {
  }

  /** What must lie behind a removal of the fence: two admissions, one after the other, on the same basis, and
      directly before it a last look at the expiry of the second. */
  ghost predicate Cleared(log: seq<Event>, prepare: bool) {
    exists first, second, mid: nat :: mid < |log| && ClearedBy(log, prepare, first, second, mid)
  }

  predicate ClearedBy(log: seq<Event>, prepare: bool, first: Certification, second: Certification, mid: nat)
    requires mid < |log|
  {
    && Admitted(log[..mid], 0, first, prepare)
    && Admitted(log, mid, second, prepare)
    && first.basisDigest == second.basisDigest
    && var last := log[|log| - 1];
       last.Judged? && last.certification == second && AuthorityMatches(second, prepare, last.nowMs)
  }

  /** Every removal of the fence so far was cleared. */
  ghost predicate UnfencedCleared(log: seq<Event>, prepare: bool) {
    forall k | 0 <= k < |log| && log[k] == Unfencing :: Cleared(log[..k], prepare)
  }

  // ----- what a refusal is grounded in -----

  /** The owner has not resumed ENTRY, as far as the certification says. */
  predicate ResumeMissing(c: Certification) {
    c.hasOwnerPolicy && (!c.newEntrySubmitEnabled || !c.ownerEntryResumeAuthorized)
  }

  /** What lies behind an exception of the promotion: a call that raised, or for each reason its own observation, the
      last of the log; `first` is the certification admitted before the try. */
  predicate Grounded(log: seq<Event>, prepare: bool, first: Option<Certification>, error: PromotionError) {
    log != [] &&
    var last := log[|log| - 1];
    match error
    case CallRaised => last.Raised? || last == CertificationRaised(error)
    case PromotionBlocked(reason) => last == CertificationRaised(error) || Behind(log, prepare, first, reason)
  }

  predicate Behind(log: seq<Event>, prepare: bool, first: Option<Certification>, reason: Reason)
    requires log != []
  {
    var last := log[|log| - 1];
    match reason
    case OwnerResumeRequired => Unauthorised(last, prepare) && ResumeMissing(last.certification)
    case GateFailed => Unauthorised(last, prepare) && !ResumeMissing(last.certification)
    case ExternalMismatch => last.Matched? && !last.matches
    case WorkersNotStable => last == Workers(false)
    case NotHeld =>
      last == LookedFenced(false) && LookedHeld(false) in log && |log| > 1 && NotPromoted(log[|log| - 2], prepare)
    case NotActiveWhileFenced =>
      last == LookedFenced(false) && (LookedHeld(false) in log || (|log| > 1 && log[|log| - 2] == Starting))
    case NotActiveAfterUnfence => last == LookedActive(false)
    case FinalPostflightFailed =>
      || Unauthorised(last, prepare)
      || (last.Judged? && first.Some? && last.certification.basisDigest != first.value.basisDigest)
      || (last.Matched? && !last.matches)
      || last == Workers(false)
    case Other(_) => false
  }

  /** A look that shows the promotion is not already done. */
  predicate NotPromoted(e: Event, prepare: bool) {
    Unauthorised(e, prepare) || e == LookedActive(false) || (e.Matched? && !e.matches) || e == Workers(false)
  }

  predicate Unauthorised(e: Event, prepare: bool) {
    e.Judged? && !AuthorityMatches(e.certification, prepare, e.nowMs)
  }

  // ----- what the calls do to ENTRY -----

  datatype EntryState = EntryState(fenced: bool, active: bool, enabled: bool)

  /** A start leaves the fence; the worker it starts may crash. */
  predicate Starts(s: EntryState, s': EntryState) {
    s'.fenced == s.fenced
  }

  /** A removal, returned or not, that did or did not take effect. */
  predicate Removes(s: EntryState, s': EntryState, tookEffect: bool) {
    s' == s.(fenced := s.fenced && !tookEffect)
  }

  /** A restoration only tightens, and puts the fence back unless it never reached it. */
  predicate Restores(s: EntryState, s': EntryState, missed: bool) {
    s'.fenced == (s.fenced || !missed) && (s'.active ==> s.active) && (s'.enabled ==> s.enabled)
  }

  class EntryPromotionBackend {
    var fenced: bool
    var entryActive: bool
    var entryEnabled: bool
    ghost var log: seq<Event>
    ghost var removed: bool          // a removal of the fence took effect
    ghost var refenceMissed: bool    // the last restoration never reached the fence

    function State(): EntryState
      reads this
    {
      EntryState(fenced, entryActive, entryEnabled)
    }

    /** ENTRY inactive, disabled and fenced. */
    predicate Held()
      reads this
    {
      fenced && !entryActive && !entryEnabled
    }

    /** Nothing asked or done yet. */
    ghost predicate Fresh()
      reads this
    {
      log == [] && !removed && !refenceMissed
    }

    constructor (fenced: bool, entryActive: bool, entryEnabled: bool)
      ensures this.fenced == fenced && this.entryActive == entryActive && this.entryEnabled == entryEnabled
      ensures Fresh()
    {
      this.fenced, this.entryActive, this.entryEnabled := fenced, entryActive, entryEnabled;
      log, removed, refenceMissed := [], false, false;
    }

    method GetCertification() returns (r: Result<Certification, PromotionError>)
      modifies this`log
      ensures log == old(log) + [if r.Ok? then Certified(r.value) else CertificationRaised(r.error)]
    {
      var raises: bool, c: Certification, error: PromotionError := *, *, *;
      if raises {
        log := log + [CertificationRaised(error)];
        return Err(error);
      }
      log := log + [Certified(c)];
      return Ok(c);
    }

    /** `_authority_matches` reads the clock of its moment. */
    method Judge(c: Certification, prepare: bool) returns (ok: bool)
      modifies this`log
      ensures |log| == |old(log)| + 1 && log == old(log) + [log[|old(log)|]]
      ensures var e := log[|old(log)|];
              e.Judged? && e.certification == c && ok == AuthorityMatches(c, prepare, e.nowMs)
    {
      var nowMs: int := *;
      log := log + [Judged(c, nowMs)];
      ok := AuthorityMatches(c, prepare, nowMs);
    }

    method ExternalStateAndRulesMatch(c: Certification) returns (r: Result<bool, PromotionError>)
      modifies this`log
      ensures log == old(log) + [if r.Ok? then Matched(c, r.value) else Raised(MatchCall)]
      ensures r.Err? ==> r.error == CallRaised
    {
      var raises: bool, matches: bool := *, *;
      if raises {
        log := log + [Raised(MatchCall)];
        return Err(CallRaised);
      }
      log := log + [Matched(c, matches)];
      return Ok(matches);
    }

    method SafetyWorkersActiveStable() returns (r: Result<bool, PromotionError>)
      modifies this`log
      ensures log == old(log) + [if r.Ok? then Workers(r.value) else Raised(WorkersCall)]
      ensures r.Err? ==> r.error == CallRaised
    {
      var raises: bool, stable: bool := *, *;
      if raises {
        log := log + [Raised(WorkersCall)];
        return Err(CallRaised);
      }
      log := log + [Workers(stable)];
      return Ok(stable);
    }

    method EntryIsInactiveDisabledAndFenced() returns (r: Result<bool, PromotionError>)
      modifies this`log
      ensures r.Ok? ==> r.value == (fenced && !entryActive && !entryEnabled)
      ensures log == old(log) + [if r.Ok? then LookedHeld(r.value) else Raised(HeldCall)]
      ensures r.Err? ==> r.error == CallRaised
    {
      var raises: bool := *;
      r := if raises then Err(CallRaised) else Ok(fenced && !entryActive && !entryEnabled);
      log := log + [if r.Ok? then LookedHeld(r.value) else Raised(HeldCall)];
    }

    method EntryIsActiveWhileFenced() returns (r: Result<bool, PromotionError>)
      modifies this`log
      ensures r.Ok? ==> r.value == (fenced && entryActive)
      ensures log == old(log) + [if r.Ok? then LookedFenced(r.value) else Raised(FencedCall)]
      ensures r.Err? ==> r.error == CallRaised
    {
      var raises: bool := *;
      r := if raises then Err(CallRaised) else Ok(fenced && entryActive);
      log := log + [if r.Ok? then LookedFenced(r.value) else Raised(FencedCall)];
    }

    method EntryIsActive() returns (r: Result<bool, PromotionError>)
      modifies this`log
      ensures r.Ok? ==> r.value == (!fenced && entryActive)
      ensures log == old(log) + [if r.Ok? then LookedActive(r.value) else Raised(ActiveCall)]
      ensures r.Err? ==> r.error == CallRaised
    {
      var raises: bool := *;
      r := if raises then Err(CallRaised) else Ok(!fenced && entryActive);
      log := log + [if r.Ok? then LookedActive(r.value) else Raised(ActiveCall)];
    }

    /** Raises before or after its effect. */
    method StartEntryWhileFenced() returns (r: Result<(), PromotionError>)
      modifies this`entryActive, this`entryEnabled, this`log
      ensures Starts(old(State()), State())
      ensures log == old(log) + if r.Ok? then [Starting] else [Starting, Raised(StartCall)]
      ensures r.Err? ==> r.error == CallRaised
    {
      var raises: bool, reached: bool, crashed: bool := *, *, *;
      if !raises || reached {
        entryActive, entryEnabled := !crashed, true;
      }
      log := log + if raises then [Starting, Raised(StartCall)] else [Starting];
      return if raises then Err(CallRaised) else Ok(());
    }

    method RemoveEntryFence() returns (r: Result<(), PromotionError>)
      requires !removed
      modifies this`fenced, this`log, this`removed
      ensures log == old(log) + if r.Ok? then [Unfencing] else [Unfencing, Raised(UnfenceCall)]
      ensures r.Err? ==> r.error == CallRaised
      ensures Removes(old(State()), State(), removed) && (r.Ok? ==> removed)
    {
      var raises: bool, reached: bool := *, *;
      log := log + if raises then [Unfencing, Raised(UnfenceCall)] else [Unfencing];
      if !raises || reached {
        fenced, removed := false, true;
      }
      return if raises then Err(CallRaised) else Ok(());
    }

    /** Ignores failures of its own commands, and may be cut off: it only tightens, and tells the witness when
        it never reached the fence. */
    method RestoreEntryFence() returns (r: Result<(), PromotionError>)
      modifies this`fenced, this`entryActive, this`entryEnabled, this`log, this`refenceMissed
      ensures log == old(log) + if r.Ok? then [Refencing] else [Refencing, Raised(RefenceCall)]
      ensures r.Err? ==> r.error == CallRaised
      ensures Restores(old(State()), State(), refenceMissed)
    {
      var raises: bool, touched: bool, stopped: bool := *, *, *;
      log := log + if raises then [Refencing, Raised(RefenceCall)] else [Refencing];
      refenceMissed := !touched;
      fenced := fenced || touched;
      entryActive, entryEnabled := entryActive && !stopped, entryEnabled && !stopped;
      return if raises then Err(CallRaised) else Ok(());
    }
  }

  datatype Status = Promoted | PreparedOwnerPaused | AlreadyPromoted

  /** The admission of a certification already obtained, refused for the first reason that applies. */
  method Admit(b: EntryPromotionBackend, c: Certification, prepare: bool) returns (r: Result<(), PromotionError>)
    modifies b`log
    ensures OnlyAsked(old(b.log), b.log)
    ensures r.Ok? && Certified(c) in old(b.log) ==> Admitted(b.log, 0, c, prepare)
    ensures r.Err? ==> Grounded(b.log, prepare, None, r.error)
  {
    hide AuthorityMatches, Admitted;
    ghost var n := |b.log|;
    var authority := b.Judge(c, prepare);
    if !authority {
      if c.hasOwnerPolicy && (!c.newEntrySubmitEnabled || !c.ownerEntryResumeAuthorized) {
        return Err(PromotionBlocked(OwnerResumeRequired));
      }
      return Err(PromotionBlocked(GateFailed));
    }
    var matches :- b.ExternalStateAndRulesMatch(c);
    if !matches {
      return Err(PromotionBlocked(ExternalMismatch));
    }
    var stable :- b.SafetyWorkersActiveStable();
    if !stable {
      return Err(PromotionBlocked(WorkersNotStable));
    }
    if i: nat :| i < n && old(b.log)[i] == Certified(c) {
      AdmittedFrom(b.log, i, n, n + 1, n + 2, c, prepare);
    }
    return Ok(());
  }

  predicate NoUnfencing(before: seq<Event>, log: seq<Event>) {
    before <= log && forall k | |before| <= k < |log| :: log[k] != Unfencing
  }

  /** Only looks and answers were added. */
  predicate OnlyAsked(before: seq<Event>, log: seq<Event>) {
    before <= log && forall k | |before| <= k < |log| :: log[k] != Unfencing && log[k] != Starting && log[k] != Refencing
  }

  lemma ClearedSo(log: seq<Event>, log': seq<Event>, prepare: bool, first: Certification, second: Certification)
    requires Admitted(log, 0, first, prepare) && log <= log' && |log'| == |log| + 5
    requires AdmittedAt(log', |log|, |log| + 1, |log| + 2, |log| + 3, second, prepare)
    requires first.basisDigest == second.basisDigest
    requires var last := log'[|log| + 4];
             last.Judged? && last.certification == second && AuthorityMatches(second, prepare, last.nowMs)
    ensures Cleared(log', prepare)
  {
    assert log'[..|log|] == log;
    assert ClearedBy(log', prepare, first, second, |log|);
  }

  /** What was admitted stays admitted. */
  lemma AdmittedStays(log: seq<Event>, log': seq<Event>, c: Certification, prepare: bool)
    requires Admitted(log, 0, c, prepare) && log <= log'
    ensures Admitted(log', 0, c, prepare)
  {
    var i, j, k, l :| 0 <= i < j < k < l < |log| && AdmittedAt(log, i, j, k, l, c, prepare);
    AdmittedFrom(log', i, j, k, l, c, prepare);
  }

  /** The second admission and the last look at its expiry: with both, the fence may go. */
  method AdmitFinally(b: EntryPromotionBackend, first: Certification, prepare: bool) returns (r: Result<(), PromotionError>)
    requires Admitted(b.log, 0, first, prepare)
    modifies b`log
    ensures OnlyAsked(old(b.log), b.log)
    ensures r.Ok? ==> Cleared(b.log, prepare)
    ensures r.Err? ==> Grounded(b.log, prepare, Some(first), r.error)
  {
    hide AuthorityMatches, Admitted, Cleared;
    ghost var n := |b.log|;
    var second :- b.GetCertification();
    var authority := b.Judge(second, prepare);
    if !authority || second.basisDigest != first.basisDigest {
      return Err(PromotionBlocked(FinalPostflightFailed));
    }
    var matches :- b.ExternalStateAndRulesMatch(second);
    if !matches {
      return Err(PromotionBlocked(FinalPostflightFailed));
    }
    var stable :- b.SafetyWorkersActiveStable();
    if !stable {
      return Err(PromotionBlocked(FinalPostflightFailed));
    }
    authority := b.Judge(second, prepare);
    if !authority {
      return Err(PromotionBlocked(FinalPostflightFailed));
    }
    ClearedSo(old(b.log), b.log, prepare, first, second);
    return Ok(());
  }

  lemma UnfenceAfter(log: seq<Event>, prepare: bool)
    requires UnfencedCleared(log, prepare) && Cleared(log, prepare)
    ensures UnfencedCleared(log + [Unfencing], prepare)
  {
    hide Cleared;
    var log' := log + [Unfencing];
    forall k | 0 <= k < |log'| && log'[k] == Unfencing ensures Cleared(log'[..k], prepare) {
      assert log'[..k] == log[..k];
      assert log[..|log|] == log;
    }
  }

  lemma OthersAfter(log: seq<Event>, log': seq<Event>, prepare: bool)
    requires UnfencedCleared(log, prepare) && NoUnfencing(log, log')
    ensures UnfencedCleared(log', prepare)
  {
    hide Cleared;
    forall k | 0 <= k < |log'| && log'[k] == Unfencing ensures Cleared(log'[..k], prepare) {
      assert log'[..k] == log[..k];
    }
  }

  /** ENTRY started behind the fence, unless it already is, and found active there. */
  method StartFenced(b: EntryPromotionBackend, first: Certification, alreadyStarted: bool, prepare: bool)
    returns (r: Result<(), PromotionError>)
    requires b.fenced && (alreadyStarted ==> LookedHeld(false) in b.log)
    modifies b`log, b`entryActive, b`entryEnabled
    ensures NoUnfencing(old(b.log), b.log) && (Starting in b.log <==> Starting in old(b.log) || !alreadyStarted)
    ensures Refencing in b.log <==> Refencing in old(b.log)
    ensures r.Err? ==> Grounded(b.log, prepare, Some(first), r.error)
    ensures r.Ok? ==> b.entryActive
  {
    if !alreadyStarted {
      var _ :- b.StartEntryWhileFenced();
    }
    var active :- b.EntryIsActiveWhileFenced();
    if !active {
      return Err(PromotionBlocked(NotActiveWhileFenced));
    }
    return Ok(());
  }

  /** The removal itself, and the last look. */
  method RemoveFence(b: EntryPromotionBackend, first: Certification, prepare: bool) returns (r: Result<(), PromotionError>)
    requires Cleared(b.log, prepare) && UnfencedCleared(b.log, prepare) && b.fenced && !b.removed
    modifies b`log, b`removed, b`fenced
    ensures UnfencedCleared(b.log, prepare) && old(b.log) <= b.log && Unfencing in b.log
    ensures (Starting in b.log <==> Starting in old(b.log)) && (Refencing in b.log <==> Refencing in old(b.log))
    ensures b.fenced == !b.removed
    ensures r.Ok? ==> b.removed && b.entryActive
    ensures r.Err? ==> Grounded(b.log, prepare, Some(first), r.error)
  {
    hide Cleared;
    UnfenceAfter(b.log, prepare);
    ghost var log := b.log + [Unfencing];
    assert log[|b.log|] == Unfencing;
    var removed := b.RemoveEntryFence();
    OthersAfter(log, b.log, prepare);
    if removed.Err? {
      return removed;
    }
    ghost var log' := b.log;
    var active := b.EntryIsActive();
    OthersAfter(log', b.log, prepare);
    if active.Err? {
      return Err(active.error);
    }
    if !active.value {
      return Err(PromotionBlocked(NotActiveAfterUnfence));
    }
    return Ok(());
  }

  /** The body of the try. */
  method Unfence(b: EntryPromotionBackend, first: Certification, alreadyStarted: bool, prepare: bool)
    returns (r: Result<(), PromotionError>)
    requires Admitted(b.log, 0, first, prepare) && NoUnfencing([], b.log) && b.fenced && !b.removed
    requires alreadyStarted ==> LookedHeld(false) in b.log
    modifies b`log, b`removed, b`fenced, b`entryActive, b`entryEnabled
    ensures UnfencedCleared(b.log, prepare) && old(b.log) <= b.log
    ensures b.fenced == !b.removed && (b.removed ==> Unfencing in b.log)
    ensures Starting in b.log <==> Starting in old(b.log) || !alreadyStarted
    ensures Refencing in b.log <==> Refencing in old(b.log)
    ensures r.Ok? ==> b.removed && b.entryActive
    ensures r.Err? ==> Grounded(b.log, prepare, Some(first), r.error)
  {
    hide Admitted, Cleared, Grounded;
    NothingUnfenced(b.log, prepare);
    r := StartFenced(b, first, alreadyStarted, prepare);
    if r.Err? {
      return;
    }
    AdmittedStays(old(b.log), b.log, first, prepare);
    ghost var log := b.log;
    r := AdmitFinally(b, first, prepare);
    AskedOnly(log, b.log);
    OthersAfter(old(b.log), b.log, prepare);
    if r.Err? {
      return;
    }
    r := RemoveFence(b, first, prepare);
  }

  lemma AskedOnly(before: seq<Event>, log: seq<Event>)
    requires OnlyAsked(before, log)
    ensures NoUnfencing(before, log)
    ensures (Starting in log <==> Starting in before) && (Refencing in log <==> Refencing in before)
  {
    if Starting in log {
      var k :| 0 <= k < |log| && log[k] == Starting;
      assert before[k] == Starting;
    }
    if Refencing in log {
      var k :| 0 <= k < |log| && log[k] == Refencing;
      assert before[k] == Refencing;
    }
  }

  lemma NothingUnfenced(log: seq<Event>, prepare: bool)
    requires NoUnfencing([], log)
    ensures UnfencedCleared(log, prepare)
  {
  }

  /** Whether there is nothing left to do: ENTRY is active without the fence, on a certification admitted anew. */
  method AlreadyDone(b: EntryPromotionBackend, c: Certification, prepare: bool) returns (r: Result<bool, PromotionError>)
    requires |b.log| == 2 && b.log[1] == Certified(c)
    modifies b`log
    ensures OnlyAsked(old(b.log), b.log)
    ensures r.Ok? && r.value ==> !b.fenced && b.entryActive && Admitted(b.log, 0, c, prepare)
    ensures r.Ok? && !r.value ==> NotPromoted(b.log[|b.log| - 1], prepare)
    ensures r.Err? ==> b.log[|b.log| - 1].Raised? && r.error == CallRaised
  {
    hide AuthorityMatches, Admitted;
    var authority := b.Judge(c, prepare);
    if !authority {
      return Ok(false);
    }
    var active :- b.EntryIsActive();
    if !active {
      return Ok(false);
    }
    var matches :- b.ExternalStateAndRulesMatch(c);
    if !matches {
      return Ok(false);
    }
    var stable :- b.SafetyWorkersActiveStable();
    if stable {
      AdmittedFrom(b.log, 1, 2, 4, 5, c, prepare);
    }
    return Ok(stable);
  }

  /** Up to the first admission: which certification, and whether ENTRY was already started behind the fence;
      or the finding that there is nothing left to do. */
  method Approach(b: EntryPromotionBackend, prepare: bool)
    returns (r: Result<Option<(Certification, bool)>, PromotionError>)
    requires b.log == []
    modifies b`log
    ensures OnlyAsked([], b.log)
    ensures r.Ok? && r.value.Some? ==>
              && b.fenced && Certified(r.value.value.0) in b.log
              && LookedHeld(!r.value.value.1) in b.log && (r.value.value.1 <==> !b.Held())
    ensures r.Ok? && r.value.None? ==>
              !b.fenced && b.entryActive && exists c :: Admitted(b.log, 0, c, prepare)
    ensures r.Err? ==> Grounded(b.log, prepare, None, r.error)
  {
    hide Admitted;
    var held :- b.EntryIsInactiveDisabledAndFenced();
    assert b.log[0] == LookedHeld(held);
    var c :- b.GetCertification();
    assert b.log[1] == Certified(c);
    if held {
      return Ok(Some((c, false)));
    }
    ghost var log := b.log;
    var done :- AlreadyDone(b, c, prepare);
    if done {
      return Ok(None);
    }
    var started :- b.EntryIsActiveWhileFenced();
    assert b.log[0] == LookedHeld(false) && b.log[1] == Certified(c);
    if !started {
      return Err(PromotionBlocked(NotHeld));
    }
    return Ok(Some((c, true)));
  }

  /** `promote_entry`. The fence is only ever removed cleared. Called with the fence present, a return means ENTRY is
      active and unfenced; an exception leaves the fence present exactly unless a removal took effect and the
      restoration never reached the fence. Called without the fence it changes nothing at all. Every exception has its
      grounds: a promotion none of whose calls raises, and all of whose observations are good, returns. */
  method PromoteEntry(b: EntryPromotionBackend, prepareOwnerResume: bool)
    returns (r: Result<Status, PromotionError>, ghost tried: Option<Attempt>)
    requires b.Fresh()
    modifies b
    ensures UnfencedCleared(b.log, prepareOwnerResume)
    ensures r.Ok? ==> !b.fenced && b.entryActive
    ensures r.Ok? ==> r.value == if prepareOwnerResume then PreparedOwnerPaused
                                 else if old(b.fenced) then Promoted else AlreadyPromoted
    ensures r.Ok? && old(b.fenced) ==> b.removed
    ensures r.Ok? && !old(b.fenced) ==> exists c :: Admitted(b.log, 0, c, prepareOwnerResume)
    ensures r.Err? && old(b.fenced) ==> (!b.fenced <==> b.removed && b.refenceMissed)
    ensures b.removed ==> Unfencing in b.log
    ensures !old(b.fenced) ==> tried.None? && b.State() == old(b.State())
    // before the try nothing is done; within it ENTRY is started unless it was found started, and an exception restores
    ensures tried.None? ==> OnlyAsked([], b.log) && b.State() == old(b.State())
                            && (r.Err? ==> Grounded(b.log, prepareOwnerResume, None, r.error))
    ensures tried.Some? ==> (Starting in b.log <==> old(b.Held())) && Restored(b.log, prepareOwnerResume, tried.value, r)
  {
    hide Admitted, Cleared, Grounded;
    tried := None;
    var approach := Approach(b, prepareOwnerResume);
    AskedOnly([], b.log);
    NothingUnfenced(b.log, prepareOwnerResume);
    if approach.Err? {
      return Err(approach.error), tried;
    }
    if approach.value.None? {
      return Ok(if prepareOwnerResume then PreparedOwnerPaused else AlreadyPromoted), tried;
    }
    var (c, alreadyStarted) := approach.value.value;
    ghost var log := b.log;
    var admitted := Admit(b, c, prepareOwnerResume);
    AskedOnly(log, b.log);
    AskedOnly([], b.log);
    NothingUnfenced(b.log, prepareOwnerResume);
    if admitted.Err? {
      return Err(admitted.error), tried;
    }
    r, tried := Guarded(b, c, alreadyStarted, prepareOwnerResume);
  }

  /** The try of a promotion: the certification admitted before it, its log, and the exception it was left with. */
  datatype Attempt = Attempt(first: Certification, log: seq<Event>, failure: Option<PromotionError>)

  /** A try that failed, for grounds of its own, is followed by the restoration of the fence and by nothing else; its
      exception is raised, or that of the restoration. */
  predicate Restored(log: seq<Event>, prepare: bool, tried: Attempt, r: Result<Status, PromotionError>) {
    match tried.failure
    case None => r.Ok? && log == tried.log && Refencing !in log
    case Some(error) =>
      && Grounded(tried.log, prepare, Some(tried.first), error) && Refencing !in tried.log
      && (|| (log == tried.log + [Refencing] && r == Err(error))
          || (log == tried.log + [Refencing, Raised(RefenceCall)] && r == Err(CallRaised)))
  }

  /** The try and its handler. */
  method Guarded(b: EntryPromotionBackend, first: Certification, alreadyStarted: bool, prepare: bool)
    returns (r: Result<Status, PromotionError>, ghost tried: Option<Attempt>)
    requires Admitted(b.log, 0, first, prepare) && OnlyAsked([], b.log) && b.fenced && !b.removed
    requires alreadyStarted ==> LookedHeld(false) in b.log
    modifies b
    ensures UnfencedCleared(b.log, prepare) && (b.removed ==> Unfencing in b.log)
    ensures r.Ok? ==> !b.fenced && b.entryActive && b.removed
    ensures r.Ok? ==> r.value == if prepare then PreparedOwnerPaused else Promoted
    ensures r.Err? ==> (!b.fenced <==> b.removed && b.refenceMissed)
    ensures Starting in b.log <==> !alreadyStarted
    ensures tried.Some? && Restored(b.log, prepare, tried.value, r)
  {
    hide Admitted, Cleared, Grounded;
    AskedOnly([], b.log);
    var body := Unfence(b, first, alreadyStarted, prepare);
    tried := Some(Attempt(first, b.log, if body.Ok? then None else Some(body.error)));
    if body.Ok? {
      return Ok(if prepare then PreparedOwnerPaused else Promoted), tried;
    }
    ghost var log := b.log;
    var restored := b.RestoreEntryFence();
    OthersAfter(log, b.log, prepare);
    assert Unfencing in log ==> Unfencing in b.log;
    assert Starting in b.log ==> Starting in log;
    assert Starting in log ==> Starting in b.log;
    r := Err(if restored.Err? then restored.error else body.error);
  }

  // ----- an exception that leaves ENTRY unfenced -----

  /** There are certifications with authority. */
  lemma AuthorityExists() returns (c: Certification)
    ensures AuthorityMatches(c, false, 0)
  {
    var zeros := seq(64, i => '0');
    c := Certification(true, true, true, "sha256:" + zeros, Some(1), true, true, 1, true, true);
    forall i | 7 <= i < 71 ensures c.basisDigest[i] == '0' {
      assert c.basisDigest[i] == zeros[i - 7];
    }
  }

  /** The log of a promotion up to its handler. */
  function PromotionLog(c: Certification, nowMs: int): seq<Event> {
    [LookedHeld(true), Certified(c), Judged(c, nowMs), Matched(c, true), Workers(true), Starting, LookedFenced(true),
     Certified(c), Judged(c, nowMs), Matched(c, true), Workers(true), Judged(c, nowMs), Unfencing, Raised(ActiveCall),
     Refencing]
  }

  lemma PromotionIsCleared(c: Certification, nowMs: int)
    requires AuthorityMatches(c, false, nowMs)
    ensures Cleared(PromotionLog(c, nowMs)[..12], false)
  {
    hide AuthorityMatches, Admitted, Cleared;
    var cleared := PromotionLog(c, nowMs)[..12];
    var first := cleared[..7];
    AdmittedFrom(first, 1, 2, 3, 4, c, false);
    assert |cleared| == 12 && cleared[7] == cleared[1] && cleared[8] == cleared[2] == cleared[11];
    assert cleared[9] == cleared[3] && cleared[10] == cleared[4];
    assert AdmittedAt(cleared, 7, 8, 9, 10, c, false);
    hide PromotionLog, AdmittedAt;
    ClearedSo(first, cleared, false, c, c);
  }

  /** Every call up to the removal returns, the removal takes effect, the look at ENTRY after it raises, and the
      restoration, whose commands may fail silently, never reaches the fence: the promotion ends in an exception with
      ENTRY active and unfenced. Every removal on the way was cleared. */
  lemma ExceptionLeavesEntryUnfenced(c: Certification, nowMs: int)
    requires AuthorityMatches(c, false, nowMs)
    ensures
      var held := EntryState(true, false, false);
      var started := EntryState(true, true, true);
      var unfenced := EntryState(false, true, true);
      && Starts(held, started) && Removes(started, unfenced, true) && Restores(unfenced, unfenced, true)
    ensures UnfencedCleared(PromotionLog(c, nowMs), false)
    ensures PromotionLog(c, nowMs)[13..] == [Raised(ActiveCall), Refencing]
  {
    PromotionIsCleared(c, nowMs);
    hide Cleared, AuthorityMatches;
    var log := PromotionLog(c, nowMs);
    forall k | 0 <= k < |log| && log[k] == Unfencing ensures Cleared(log[..k], false) {
      assert k == 12;
    }
  }

  // ----- what a removal and a refusal mean, field by field -----

  /** A certification has authority at a time exactly when it passed, is ready for recovery, is authorised by the owner
      or only prepares that, carries a digest, has not expired, is flat, allows exchange commands, and stands under a
      policy that is switched as the promotion expects it. */
  lemma AuthorityExactly(c: Certification, prepare: bool, nowMs: int)
    ensures AuthorityMatches(c, prepare, nowMs) <==>
              && c.pass && c.entryRecoveryReady && c.flat && c.exchangeCommands
              && (prepare || c.ownerEntryResumeAuthorized)
              && c.hasOwnerPolicy && c.policyVersion >= 1 && (c.newEntrySubmitEnabled <==> !prepare)
              && c.validUntilMs.Some? && nowMs < c.validUntilMs.value
              && |c.basisDigest| == 71 && c.basisDigest[..7] == "sha256:"
              && forall i | 7 <= i < 71 :: c.basisDigest[i] in "0123456789abcdef"
  {
    forall ch: char ensures ('0' <= ch <= '9' || 'a' <= ch <= 'f') <==> ch in "0123456789abcdef" {
      HexLetter(ch);
    }
  }

  lemma HexLetter(ch: char)
    ensures ('0' <= ch <= '9' || 'a' <= ch <= 'f') <==> ch in "0123456789abcdef"
  {
    var letters := "0123456789abcdef";
    if '0' <= ch <= '9' {
      assert letters[ch as int - '0' as int] == ch;
    } else if 'a' <= ch <= 'f' {
      assert letters[10 + (ch as int - 'a' as int)] == ch;
    }
  }

  lemma CertifiedBefore(log: seq<Event>, from: nat, c: Certification, prepare: bool)
    requires Admitted(log, from, c, prepare)
    ensures Certified(c) in log
  {
    var i, j, k, l :| from <= i < j < k < l < |log| && AdmittedAt(log, i, j, k, l, c, prepare);
    assert log[i] in log;
  }

  /** The fence is removed only on a certification that passed, is ready for recovery, is authorised by the owner, or
      only prepares that, carries a digest, is flat, allows exchange commands, stands under a policy in the expected
      state, and has not expired at the last look, directly before. */
  lemma UnfencedOnlyOn(log: seq<Event>, prepare: bool, k: nat)
    requires UnfencedCleared(log, prepare) && k < |log| && log[k] == Unfencing
    ensures k > 0 && log[k - 1].Judged? && Certified(log[k - 1].certification) in log[..k]
    ensures
      var c, nowMs := log[k - 1].certification, log[k - 1].nowMs;
      && c.pass && c.entryRecoveryReady && c.flat && c.exchangeCommands
      && (prepare || c.ownerEntryResumeAuthorized)
      && c.hasOwnerPolicy && c.policyVersion >= 1 && (c.newEntrySubmitEnabled <==> !prepare)
      && c.validUntilMs.Some? && nowMs < c.validUntilMs.value
      && |c.basisDigest| == 71 && c.basisDigest[..7] == "sha256:"
      && forall i | 7 <= i < 71 :: c.basisDigest[i] in "0123456789abcdef"
  {
    hide Admitted;
    var first, second, mid: nat :| mid < k && ClearedBy(log[..k], prepare, first, second, mid);
    assert log[..k][k - 1] == log[k - 1];
    CertifiedBefore(log[..k], mid, second, prepare);
    AuthorityExactly(second, prepare, log[k - 1].nowMs);
  }
}
