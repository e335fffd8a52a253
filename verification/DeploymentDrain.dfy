/** scripts/trading_kernel/deployment_control.py: one request at most, then a bounded wait for flatness. */
module DeploymentDrain {
  import opened Wrappers

  datatype DrainError =
    | TimeoutNotPositive
    | SourceBlocked
    | UnsafeRequest
    | InvalidStatus
    | TimedOut
    | CallRaised

  /** What was asked of the source runtime, and each sleep with the reading of the clock before it. */
  datatype DrainEvent =
    | Inspected(status: string)
    | InspectionRaised
    | Requested(result: string)
    | RequestRaised
    | Slept(seconds: real, clock: real)

  predicate IsInspection(e: DrainEvent) {
    e.Inspected? || e.InspectionRaised?
  }

  predicate IsRequest(e: DrainEvent) {
    e.Requested? || e.RequestRaised?
  }

  function SleptIn(log: seq<DrainEvent>): real {
    if log == [] then 0.0
    else SleptIn(log[..|log| - 1]) + match log[|log| - 1] case Slept(d, _) => d case _ => 0.0
  }

  function InspectionsIn(log: seq<DrainEvent>): nat {
    if log == [] then 0 else InspectionsIn(log[..|log| - 1]) + if IsInspection(log[|log| - 1]) then 1 else 0
  }

  function RequestsIn(log: seq<DrainEvent>): nat {
    if log == [] then 0 else RequestsIn(log[..|log| - 1]) + if IsRequest(log[|log| - 1]) then 1 else 0
  }

  lemma Counting(log: seq<DrainEvent>, e: DrainEvent)
    ensures SleptIn(log + [e]) == SleptIn(log) + match e case Slept(d, _) => d case _ => 0.0
    ensures InspectionsIn(log + [e]) == InspectionsIn(log) + if IsInspection(e) then 1 else 0
    ensures RequestsIn(log + [e]) == RequestsIn(log) + if IsRequest(e) then 1 else 0
  {
    assert (log + [e])[..|log|] == log;
  }

  /** Five-second sleeps that fit into a positive remainder, the last one cut short. */
  function Sleeps(remaining: real): (n: nat)
    ensures remaining <= 0.0 <==> n == 0
    ensures n > 0 ==> (n - 1) as real * 5.0 < remaining <= n as real * 5.0
  {
    if remaining <= 0.0 then 0
    else
      var n := (remaining / 5.0).Floor;
      if n as real * 5.0 < remaining then n + 1 else n
  }

  lemma SleepsDescend(remaining: real, later: real)
    requires remaining > 0.0
    requires later <= remaining - (if remaining < 5.0 then remaining else 5.0)
    ensures Sleeps(later) < Sleeps(remaining)
  {
  }

  /** The source runtime, a monotonic clock, and the witness of what was asked of them. */
  class Runtime {
    var now: real
    ghost var log: seq<DrainEvent>

    constructor ()
      ensures log == []
    {
      now := 0.0;
      log := [];
    }

    /** Any call takes some time. */
    method Pass()
      modifies this`now
      ensures now >= old(now)
    {
      var spent: real := *;
      if spent > 0.0 {
        now := now + spent;
      }
    }

    method Clock() returns (t: real)
      modifies this`now
      ensures t == now >= old(now)
    {
      Pass();
      t := now;
    }

    method Sleep(seconds: real, ghost clock: real)
      requires seconds >= 0.0
      modifies this
      ensures now >= old(now) + seconds && log == old(log) + [Slept(seconds, clock)]
    {
      Pass();
      now := now + seconds;
      log := log + [Slept(seconds, clock)];
    }

    method InspectDeploymentDrain() returns (r: Result<string, DrainError>)
      modifies this
      ensures now >= old(now)
      ensures if r.Ok? then log == old(log) + [Inspected(r.value)]
              else r.error == CallRaised && log == old(log) + [InspectionRaised]
    {
      Pass();
      var raises: bool, status: string := *, *;
      if raises {
        log := log + [InspectionRaised];
        return Err(CallRaised);
      }
      log := log + [Inspected(status)];
      return Ok(status);
    }

    method RequestDeploymentDrain() returns (r: Result<string, DrainError>)
      modifies this
      ensures now >= old(now)
      ensures if r.Ok? then log == old(log) + [Requested(r.value)]
              else r.error == CallRaised && log == old(log) + [RequestRaised]
    {
      Pass();
      var raises: bool, status: string := *, *;
      if raises {
        log := log + [RequestRaised];
        return Err(CallRaised);
      }
      log := log + [Requested(status)];
      return Ok(status);
    }
  }

  // ----- the protocol -----

  const SAFE_RESULTS: set<string> := {"requested", "in_progress", "flat"}

  function Pause(remaining: real): real {
    if remaining < 5.0 then remaining else 5.0
  }

  /** The event the drain owes next: a first inspection; directly after "eligible", the one request; after a safe
      request, another inspection; after "eligible" once more, or "in_progress", a sleep to the deadline, of five
      seconds at most; after a sleep, another inspection. After anything else it is over. */
  predicate Owed(log: seq<DrainEvent>, deadline: real, e: DrainEvent) {
    if log == [] then IsInspection(e)
    else
      match log[|log| - 1]
      case Inspected(status) =>
        if status == "eligible" && RequestsIn(log) == 0 then IsRequest(e)
        else
          && (status == "eligible" || status == "in_progress")
          && e.Slept? && e.clock < deadline && e.seconds == Pause(deadline - e.clock)
      case Requested(result) => result in SAFE_RESULTS && IsInspection(e)
      case Slept(_, _) => IsInspection(e)
      case _ => false
  }

  ghost predicate Lawful(log: seq<DrainEvent>, deadline: real) {
    forall k | 0 <= k < |log| :: Owed(log[..k], deadline, log[k])
  }

  lemma LawfulGrows(log: seq<DrainEvent>, deadline: real, e: DrainEvent)
    requires Lawful(log, deadline) && Owed(log, deadline, e)
    ensures Lawful(log + [e], deadline)
  {
    hide Owed;
    var log' := log + [e];
    forall k | 0 <= k < |log'| ensures Owed(log'[..k], deadline, log'[k]) {
      assert log'[..k] == log[..k];
      assert log[..|log|] == log;
    }
  }

  /** How a drain with this log ends; None while it goes on. A drain that may still wait ends only when it times out. */
  function Ending(log: seq<DrainEvent>): Option<Result<(), DrainError>> {
    if log == [] then None
    else
      match log[|log| - 1]
      case Inspected(status) =>
        if status == "flat" then Some(Ok(()))
        else if status == "blocked" then Some(Err(SourceBlocked))
        else if status == "eligible" && RequestsIn(log) == 0 then None
        else if status == "eligible" || status == "in_progress" then Some(Err(TimedOut))
        else Some(Err(InvalidStatus))
      case Requested(result) => if result in SAFE_RESULTS then None else Some(Err(UnsafeRequest))
      case Slept(_, _) => None
      case _ => Some(Err(CallRaised))
  }

  ghost predicate LastInspected(log: seq<DrainEvent>, status: string) {
    |log| > 0 && log[|log| - 1] == Inspected(status)
  }

  /** The one request directly follows the first "eligible": made exactly if there is one. */
  lemma RequestedIffEligible(log: seq<DrainEvent>, deadline: real, k: nat)
    requires Lawful(log, deadline) && k + 1 < |log| && log[k] == Inspected("eligible") && RequestsIn(log[..k + 1]) == 0
    ensures IsRequest(log[k + 1])
  {
    assert Owed(log[..k + 1], deadline, log[k + 1]);
  }

  lemma RequestIsOwed(log: seq<DrainEvent>, deadline: real, e: DrainEvent)
    requires Owed(log, deadline, e) && IsRequest(e)
    ensures log != [] && log[|log| - 1] == Inspected("eligible") && RequestsIn(log) == 0
  {
  }

  /** Never a second one, and none unasked. */
  lemma {:induction false} AtMostOneRequest(log: seq<DrainEvent>, deadline: real)
    requires Lawful(log, deadline)
    ensures RequestsIn(log) <= 1
    ensures forall k | 0 <= k < |log| && IsRequest(log[k]) :: k > 0 && log[k - 1] == Inspected("eligible")
  {
    hide Owed;
    if log != [] {
      var init, e := log[..|log| - 1], log[|log| - 1];
      assert Owed(log[..|init|], deadline, log[|init|]);
      assert forall k | 0 <= k < |init| :: init[..k] == log[..k] && init[k] == log[k];
      AtMostOneRequest(init, deadline);
      if IsRequest(e) {
        RequestIsOwed(init, deadline, e);
      }
    }
  }

  // ----- the bounds -----

  /** At the head of the loop: what was asked, and what of the timeout is left. */
  ghost predicate Within(log: seq<DrainEvent>, start: real, now: real, timeout: real, requested: bool) {
    && start + SleptIn(log) <= now && SleptIn(log) <= timeout
    && InspectionsIn(log) + Sleeps(start + timeout - now) <= Sleeps(timeout) + (if requested then 1 else 0)
    && RequestsIn(log) == (if requested then 1 else 0)
  }

  /** In the middle of a turn: one inspection more. */
  ghost predicate Inside(log: seq<DrainEvent>, start: real, now: real, timeout: real, requested: bool) {
    && start + SleptIn(log) <= now && SleptIn(log) <= timeout
    && InspectionsIn(log) + Sleeps(start + timeout - now) <= Sleeps(timeout) + (if requested then 2 else 1)
    && RequestsIn(log) == (if requested then 1 else 0)
  }

  lemma SleepsGrow(shorter: real, longer: real)
    requires shorter <= longer
    ensures Sleeps(shorter) <= Sleeps(longer)
  {
  }

  lemma WaitInside(log: seq<DrainEvent>, start: real, now: real, later: real, timeout: real, requested: bool)
    requires Inside(log, start, now, timeout, requested) && now <= later
    ensures Inside(log, start, later, timeout, requested)
  {
    SleepsGrow(start + timeout - later, start + timeout - now);
  }

  lemma InspectWithin(log: seq<DrainEvent>, start: real, now: real, later: real, timeout: real, requested: bool, e: DrainEvent)
    requires Within(log, start, now, timeout, requested) && now <= later && IsInspection(e)
    ensures Inside(log + [e], start, later, timeout, requested)
  {
    SleepsGrow(start + timeout - later, start + timeout - now);
    Counting(log, e);
  }

  lemma RequestInside(log: seq<DrainEvent>, start: real, now: real, later: real, timeout: real, e: DrainEvent)
    requires Inside(log, start, now, timeout, false) && now <= later && IsRequest(e)
    ensures Within(log + [e], start, later, timeout, true)
  {
    SleepsGrow(start + timeout - later, start + timeout - now);
    Counting(log, e);
  }

  lemma SleepInside(log: seq<DrainEvent>, start: real, now: real, later: real, timeout: real, requested: bool)
    requires Inside(log, start, now, timeout, requested) && now < start + timeout
    requires later >= now + Pause(start + timeout - now)
    ensures Within(log + [Slept(Pause(start + timeout - now), now)], start, later, timeout, requested)
  {
    var remaining := start + timeout - now;
    SleepsDescend(remaining, start + timeout - later);
    Counting(log, Slept(Pause(remaining), now));
  }

  /** What holds of the witness however the drain ends. */
  ghost predicate Bounds(log: seq<DrainEvent>, timeout: real) {
    InspectionsIn(log) <= Sleeps(timeout) + 2 && SleptIn(log) <= timeout && RequestsIn(log) <= 1
  }

  lemma WithinBounds(log: seq<DrainEvent>, start: real, now: real, timeout: real, requested: bool)
    requires Within(log, start, now, timeout, requested) || Inside(log, start, now, timeout, requested)
    ensures Bounds(log, timeout)
  {
  }

  lemma Beginning(start: real, timeout: real)
    requires timeout > 0.0
    ensures Within([], start, start, timeout, false)
  {
  }

  // ----- the drain -----

  /** The head of the loop: an inspection is due. */
  ghost predicate InspectionDue(log: seq<DrainEvent>) {
    || log == []
    || log[|log| - 1].Slept?
    || (log[|log| - 1].Requested? && log[|log| - 1].result in SAFE_RESULTS)
  }

  method Inspect(b: Runtime, ghost start: real, ghost timeout: real, ghost requested: bool)
    returns (r: Result<string, DrainError>)
    requires Within(b.log, start, b.now, timeout, requested) && Lawful(b.log, start + timeout) && InspectionDue(b.log)
    modifies b
    ensures b.now >= old(b.now)
    ensures Inside(b.log, start, b.now, timeout, requested) && Lawful(b.log, start + timeout) && Bounds(b.log, timeout)
    ensures if r.Ok? then LastInspected(b.log, r.value)
            else r.error == CallRaised && |b.log| > 0 && b.log[|b.log| - 1] == InspectionRaised
  {
    hide Within, Inside, Bounds, Lawful;
    r := b.InspectDeploymentDrain();
    ghost var e := if r.Ok? then Inspected(r.value) else InspectionRaised;
    InspectWithin(old(b.log), start, old(b.now), b.now, timeout, requested, e);
    LawfulGrows(old(b.log), start + timeout, e);
    WithinBounds(b.log, start, b.now, timeout, requested);
  }

  /** The one request, after an eligible observation. */
  method Request(b: Runtime, ghost start: real, ghost timeout: real) returns (r: Result<(), DrainError>)
    requires Inside(b.log, start, b.now, timeout, false) && LastInspected(b.log, "eligible") && RequestsIn(b.log) == 0
    requires Lawful(b.log, start + timeout)
    modifies b
    ensures b.now >= old(b.now) && Within(b.log, start, b.now, timeout, true) && Bounds(b.log, timeout)
    ensures Lawful(b.log, start + timeout)
    ensures if r.Ok? then InspectionDue(b.log) else Ending(b.log) == Some(r) && r != Err(TimedOut)
  {
    hide Within, Inside, Bounds, Lawful;
    var result := b.RequestDeploymentDrain();
    ghost var e := if result.Ok? then Requested(result.value) else RequestRaised;
    RequestInside(old(b.log), start, old(b.now), b.now, timeout, e);
    LawfulGrows(old(b.log), start + timeout, e);
    WithinBounds(b.log, start, b.now, timeout, true);
    if result.Err? {
      return Err(result.error);
    }
    if result.value !in SAFE_RESULTS {
      return Err(UnsafeRequest);
    }
    return Ok(());
  }

  /** One sleep of at most five seconds, never past the deadline. */
  method Wait(b: Runtime, start: real, timeout: real, ghost requested: bool) returns (r: Result<(), DrainError>)
    requires Inside(b.log, start, b.now, timeout, requested) && Lawful(b.log, start + timeout)
    requires Ending(b.log) == Some(Err(TimedOut))
    modifies b
    ensures Lawful(b.log, start + timeout)
    ensures r.Ok? ==>
              && Within(b.log, start, b.now, timeout, requested)
              && |b.log| > 0 && b.log[|b.log| - 1].Slept?
              && Sleeps(start + timeout - b.now) < Sleeps(start + timeout - old(b.now))
    ensures r.Err? ==> r.error == TimedOut && b.log == old(b.log) && b.now >= start + timeout
  {
    hide Within, Inside, Lawful;
    var t := b.Clock();
    var remaining := start + timeout - t;
    if remaining <= 0.0 {
      return Err(TimedOut);
    }
    WaitInside(b.log, start, old(b.now), t, timeout, requested);
    LawfulGrows(b.log, start + timeout, Slept(Pause(remaining), t));
    b.Sleep(if remaining < 5.0 then remaining else 5.0, t);
    SleepInside(old(b.log), start, t, b.now, timeout, requested);
    SleepsDescend(remaining, start + timeout - b.now);
    SleepsGrow(remaining, start + timeout - old(b.now));
    return Ok(());
  }

  /** `run_deployment_drain`. Its calls follow the protocol, within so many inspections, so much sleep and one request;
      and it ends as, and only as, its last call says, or when the deadline has passed. */
  method RunDeploymentDrain(b: Runtime, timeoutSeconds: real) returns (r: Result<(), DrainError>, ghost start: real)
    requires b.log == []
    modifies b
    ensures r == Err(TimeoutNotPositive) <==> timeoutSeconds <= 0.0
    ensures timeoutSeconds <= 0.0 ==> b.log == []
    ensures timeoutSeconds > 0.0 ==>
              && start >= old(b.now) && Bounds(b.log, timeoutSeconds) && Lawful(b.log, start + timeoutSeconds)
              && Ending(b.log) == Some(r)
    // the endings, one by one
    ensures r.Ok? <==> LastInspected(b.log, "flat")
    ensures r == Err(SourceBlocked) <==> LastInspected(b.log, "blocked")
    ensures r == Err(UnsafeRequest) <==>
              |b.log| > 0 && b.log[|b.log| - 1].Requested?
              && b.log[|b.log| - 1].result !in {"requested", "in_progress", "flat"}
    ensures r == Err(InvalidStatus) <==>
              |b.log| > 0 && b.log[|b.log| - 1].Inspected?
              && b.log[|b.log| - 1].status !in {"flat", "blocked", "eligible", "in_progress"}
    ensures r == Err(TimedOut) ==>
              && b.now >= start + timeoutSeconds
              && (LastInspected(b.log, "in_progress") || (LastInspected(b.log, "eligible") && RequestsIn(b.log) == 1))
    ensures r == Err(CallRaised) <==>
              |b.log| > 0 && (b.log[|b.log| - 1].InspectionRaised? || b.log[|b.log| - 1].RequestRaised?)
  {
    hide SleptIn, InspectionsIn, RequestsIn, Within, Inside, Bounds, Lawful;
    start := 0.0;
    if timeoutSeconds <= 0.0 {
      return Err(TimeoutNotPositive), start;
    }
    var began := b.Clock();
    start := began;
    var requested := false;
    Beginning(began, timeoutSeconds);
    NothingYet(began + timeoutSeconds);
    while true
      invariant began >= old(b.now) && Within(b.log, began, b.now, timeoutSeconds, requested)
      invariant Lawful(b.log, began + timeoutSeconds) && InspectionDue(b.log)
      decreases Sleeps(began + timeoutSeconds - b.now), !requested
    {
      ghost var before := b.now;
      var status := Inspect(b, began, timeoutSeconds, requested);
      if status.Err? {
        return Err(status.error), start;
      }
      SoFar(b.log, began, b.now, timeoutSeconds, requested);
      if status.value == "flat" {
        return Ok(()), start;
      }
      if status.value == "blocked" {
        return Err(SourceBlocked), start;
      }
      if status.value == "eligible" && !requested {
        r := Request(b, began, timeoutSeconds);
        if r.Err? {
          return;
        }
        SleepsGrow(began + timeoutSeconds - b.now, began + timeoutSeconds - before);
        requested := true;
        continue;
      }
      if status.value !in {"eligible", "in_progress"} {
        return Err(InvalidStatus), start;
      }
      r := Wait(b, began, timeoutSeconds, requested);
      if r.Err? {
        return;
      }
      SleepsGrow(began + timeoutSeconds - b.now, began + timeoutSeconds - before);
    }
  }

  lemma NothingYet(deadline: real)
    ensures Lawful([], deadline)
  {
  }

  lemma SoFar(log: seq<DrainEvent>, start: real, now: real, timeout: real, requested: bool)
    requires Inside(log, start, now, timeout, requested)
    ensures RequestsIn(log) == if requested then 1 else 0
  {
  }
}
