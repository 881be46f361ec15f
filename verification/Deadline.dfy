/** `block_on_until`: polling an upstream operation against its own deadline, the route's
    deadline and the client's departure. */
module Deadline {
  import opened Wrappers
  import opened Delivery

  datatype DeadlineOutcome = AttemptTimeout | OverallTimeout | Cancelled

  /** The readings to come, the deadline of the whole route, and a reading from which on
      time is up. */
  datatype Limits = Limits(oracle: Oracle, overall: nat, horizon: nat)

  /** From the horizon on, the route's deadline or the attempt's has passed. */
  ghost predicate Bounded(l: Limits, attempt: nat) {
    forall t: nat :: t >= l.horizon ==> l.oracle.clock(t) >= l.overall || l.oracle.clock(t) >= attempt
  }

  /** From the horizon on, the route's deadline has passed: enough for every attempt of a route. */
  ghost predicate Passes(l: Limits) {
    forall t: nat :: t >= l.horizon ==> l.oracle.clock(t) >= l.overall
  }

  type Budget = l: Limits | Passes(l) ghost witness Limits(Oracle((t: nat) => 0, (c: nat) => false), 0, 0)

  /** The result, and how many clock and cancellation readings have been made by then. */
  datatype Blocked<+T> = Blocked(result: Result<T, DeadlineOutcome>, t: nat, c: nat)

  /** One turn of the loop; `polls(p)` is what poll number `p` finds, nothing yet or the value. */
  function PollOnce<T>(o: Oracle, polls: nat -> Option<T>, attempt: nat, overall: nat, t: nat, c: nat, p: nat): Option<Blocked<T>> {
    if o.cancelled(c) then Some(Blocked(Err(Cancelled), t, c + 1))
    else if o.clock(t) >= overall then Some(Blocked(Err(OverallTimeout), t + 1, c + 1))
    else if o.clock(t + 1) >= attempt then Some(Blocked(Err(AttemptTimeout), t + 2, c + 1))
    else
      match polls(p)
      case None => None
      case Some(value) =>
        if o.clock(t + 2) >= overall then Some(Blocked(Err(OverallTimeout), t + 3, c + 1))
        else if o.clock(t + 3) >= attempt then Some(Blocked(Err(AttemptTimeout), t + 4, c + 1))
        else Some(Blocked(Ok(value), t + 4, c + 1))
  }

  /** A turn that goes on was made before the horizon. */
  lemma GoesOn<T>(b: Limits, polls: nat -> Option<T>, attempt: nat, t: nat, c: nat, p: nat)
    requires Bounded(b, attempt)
    requires PollOnce(b.oracle, polls, attempt, b.overall, t, c, p).None?
    ensures t < b.horizon
  {
  }

  /** The whole loop. */
  ghost function BlockOn<T>(b: Limits, polls: nat -> Option<T>, attempt: nat, t: nat, c: nat, p: nat): Blocked<T>
    requires Bounded(b, attempt)
    decreases if t < b.horizon then b.horizon - t else 0
  {
    match PollOnce(b.oracle, polls, attempt, b.overall, t, c, p)
    case Some(r) => r
    case None =>
      GoesOn(b, polls, attempt, t, c, p);
      BlockOn(b, polls, attempt, t + 2, c + 1, p + 1)
  }

  /** Poll number `p` is the first, from `from` on, that finds `value`. */
  ghost predicate FirstReady<T>(polls: nat -> Option<T>, from: nat, p: nat, value: T) {
    from <= p && polls(p) == Some(value) && forall q :: from <= q < p ==> polls(q) == None
  }

  /** `value` is the first thing the operation has ready. */
  ghost predicate Yields<T(!new)>(polls: nat -> Option<T>, value: T) {
    exists p :: FirstReady(polls, 0, p, value)
  }

  /** How polling ended, by the readings made last. */
  ghost predicate Ended<T>(b: Limits, attempt: nat, t: nat, c: nat, r: Blocked<T>) {
    var o := b.oracle;
    && r.t >= t && r.c > c
    && match r.result
       case Ok(_) =>
         r.t >= t + 4 && o.clock(r.t - 2) < b.overall && o.clock(r.t - 1) < attempt && !o.cancelled(r.c - 1)
       case Err(Cancelled) => o.cancelled(r.c - 1)
       case Err(OverallTimeout) => r.t > t && o.clock(r.t - 1) >= b.overall
       case Err(AttemptTimeout) => r.t >= t + 2 && o.clock(r.t - 2) < b.overall && o.clock(r.t - 1) >= attempt
  }

  /** A value passed both deadlines' last checks; anything else has the reading that says so. */
  lemma {:induction false} EndsForCause<T>(b: Limits, polls: nat -> Option<T>, attempt: nat, t: nat, c: nat, p: nat)
    requires Bounded(b, attempt)
    ensures Ended(b, attempt, t, c, BlockOn(b, polls, attempt, t, c, p))
    decreases if t < b.horizon then b.horizon - t else 0
  {
    if !b.oracle.cancelled(c) && b.oracle.clock(t) < b.overall && b.oracle.clock(t + 1) < attempt && polls(p).None? {
      EndsForCause(b, polls, attempt, t + 2, c + 1, p + 1);
    }
  }

  /** The value handed over is the first one ready. */
  lemma {:induction false} HandsOverFirstReady<T>(b: Limits, polls: nat -> Option<T>, attempt: nat, t: nat, c: nat, p: nat)
    requires Bounded(b, attempt) && BlockOn(b, polls, attempt, t, c, p).result.Ok?
    ensures exists q :: FirstReady(polls, p, q, BlockOn(b, polls, attempt, t, c, p).result.value)
    decreases if t < b.horizon then b.horizon - t else 0
  {
    var value := BlockOn(b, polls, attempt, t, c, p).result.value;
    if polls(p).None? {
      HandsOverFirstReady(b, polls, attempt, t + 2, c + 1, p + 1);
      var q :| FirstReady(polls, p + 1, q, value);
      assert FirstReady(polls, p, q, value);
    } else {
      assert FirstReady(polls, p, p, value);
    }
  }

  /** Both, from the first poll on. */
  lemma PollingEnds<T(!new)>(b: Limits, polls: nat -> Option<T>, attempt: nat, t: nat, c: nat)
    requires Bounded(b, attempt)
    ensures var r := BlockOn(b, polls, attempt, t, c, 0);
            Ended(b, attempt, t, c, r) && (r.result.Ok? ==> Yields(polls, r.result.value))
  {
    EndsForCause(b, polls, attempt, t, c, 0);
    if BlockOn(b, polls, attempt, t, c, 0).result.Ok? {
      HandsOverFirstReady(b, polls, attempt, t, c, 0);
    }
  }

  /** Readings are made in pairs, so a value is handed over between two checks. */
  lemma {:induction false} ReadyBetweenChecks<T>(b: Limits, polls: nat -> Option<T>, attempt: nat, t: nat, c: nat, p: nat)
    requires Bounded(b, attempt) && BlockOn(b, polls, attempt, t, c, p).result.Ok?
    ensures (BlockOn(b, polls, attempt, t, c, p).t - t) % 2 == 0
    decreases if t < b.horizon then b.horizon - t else 0
  {
    if polls(p).None? {
      GoesOn(b, polls, attempt, t, c, p);
      ReadyBetweenChecks(b, polls, attempt, t + 2, c + 1, p + 1);
    }
  }

  ghost predicate NonDecreasing(o: Oracle) {
    forall s: nat, t: nat :: s <= t ==> o.clock(s) <= o.clock(t)
  }

  /** The route's deadline passes between the two readings of a check, counting checks from `t`. */
  ghost predicate Straddles(b: Limits, t: nat) {
    exists k: nat :: StraddlesAt(b, t, k)
  }

  ghost predicate StraddlesAt(b: Limits, t: nat, k: nat) {
    b.oracle.clock(t + 2 * k) < b.overall <= b.oracle.clock(t + 2 * k + 1)
  }

  /** Polling towards a deadline it shares with the route, an attempt times out only at such a check. */
  lemma {:induction false} TieLostOnlyThere<T>(b: Budget, polls: nat -> Option<T>, t: nat, c: nat, p: nat)
    requires BlockOn(b, polls, b.overall, t, c, p).result == Err(AttemptTimeout)
    ensures Straddles(b, t)
    decreases if t < b.horizon then b.horizon - t else 0
  {
    if PollOnce(b.oracle, polls, b.overall, b.overall, t, c, p).None? {
      GoesOn(b, polls, b.overall, t, c, p);
      TieLostOnlyThere(b, polls, t + 2, c + 1, p + 1);
      var k: nat :| StraddlesAt(b, t + 2, k);
      assert StraddlesAt(b, t, k + 1);
    } else {
      TieLostAtOnce(b, polls, t, c, p);
    }
  }

  lemma TieLostAtOnce<T>(b: Limits, polls: nat -> Option<T>, t: nat, c: nat, p: nat)
    requires var r := PollOnce(b.oracle, polls, b.overall, b.overall, t, c, p); r.Some? && r.value.result == Err(AttemptTimeout)
    ensures Straddles(b, t)
  {
    assert StraddlesAt(b, t, 0) || StraddlesAt(b, t, 1);
  }

  /** And there it does, if nothing is ready before and the client stays. */
  lemma {:induction false} TieLostThere<T>(b: Budget, polls: nat -> Option<T>, t: nat, c: nat, p: nat, k: nat)
    requires NonDecreasing(b.oracle) && (forall i: nat :: !b.oracle.cancelled(i)) && (forall i: nat :: polls(i) == None)
    requires StraddlesAt(b, t, k)
    ensures BlockOn(b, polls, b.overall, t, c, p).result == Err(AttemptTimeout)
    decreases k
  {
    if k > 0 {
      assert b.oracle.clock(t) <= b.oracle.clock(t + 2 * k) && b.oracle.clock(t + 1) <= b.oracle.clock(t + 2 * k);
      assert StraddlesAt(b, t + 2, k - 1);
      TieLostThere(b, polls, t + 2, c + 1, p + 1, k - 1);
    }
  }

  /** An attempt whose deadline is the route's own is always reported as the route's timeout exactly
      when no check straddles that deadline. */
  lemma TieIsOverallExactly<T>(b: Budget, t: nat)
    requires NonDecreasing(b.oracle) && forall i: nat :: !b.oracle.cancelled(i)
    ensures (forall polls: nat -> Option<T>, c: nat :: BlockOn(b, polls, b.overall, t, c, 0).result != Err(AttemptTimeout))
       <==> !Straddles(b, t)
  {
    forall polls: nat -> Option<T>, c: nat | BlockOn(b, polls, b.overall, t, c, 0).result == Err(AttemptTimeout)
      ensures Straddles(b, t)
    {
      TieLostOnlyThere(b, polls, t, c, 0);
    }
    if Straddles(b, t) {
      var k: nat :| StraddlesAt(b, t, k);
      var never: nat -> Option<T> := (i: nat) => None;
      TieLostThere(b, never, t, 0, 0, k);
    }
  }

  /** It can happen: a clock that reaches a shared deadline between the two readings of the first check. */
  lemma TieLostToMovingClock<T>(polls: nat -> Option<T>, deadline: nat)
    requires deadline > 0
    ensures exists b: Budget :: b.overall == deadline && BlockOn(b, polls, deadline, 0, 0, 0).result == Err(AttemptTimeout)
  {
    var o := Oracle((t: nat) => if t == 0 then 0 else deadline, (c: nat) => false);
    var b: Budget := Limits(o, deadline, 1);
    assert BlockOn(b, polls, deadline, 0, 0, 0).result == Err(AttemptTimeout);
  }

  // ------------------------------------------------------------------ machine

  /** What a dispatch reads while it runs, and the readings made so far. */
  class Surroundings {
    const oracle: Oracle
    var clockReads: nat
    var cancelReads: nat

    constructor (oracle: Oracle)
      ensures this.oracle == oracle && clockReads == 0 && cancelReads == 0
    {
      this.oracle, clockReads, cancelReads := oracle, 0, 0;
    }

    method Now() returns (now: nat)
      modifies this`clockReads
      ensures now == oracle.clock(old(clockReads)) && clockReads == old(clockReads) + 1
    {
      now := oracle.clock(clockReads);
      clockReads := clockReads + 1;
    }

    method IsCancelled() returns (b: bool)
      modifies this`cancelReads
      ensures b == oracle.cancelled(old(cancelReads)) && cancelReads == old(cancelReads) + 1
    {
      b := oracle.cancelled(cancelReads);
      cancelReads := cancelReads + 1;
    }
  }

  /** One turn: the checks, the poll, and if it found the value the checks again. */
  method Poll<T>(env: Surroundings, polls: nat -> Option<T>, attemptDeadline: nat, overallDeadline: nat, polled: nat)
    returns (result: Option<Result<T, DeadlineOutcome>>)
    modifies env
    ensures var r := PollOnce(env.oracle, polls, attemptDeadline, overallDeadline, old(env.clockReads), old(env.cancelReads), polled);
            match result
            case Some(v) => r == Some(Blocked(v, env.clockReads, env.cancelReads))
            case None => r == None && env.clockReads == old(env.clockReads) + 2 && env.cancelReads == old(env.cancelReads) + 1
  {
    var cancelled := env.IsCancelled();
    if cancelled {
      return Some(Err(Cancelled));
    }
    var now := env.Now();
    if now >= overallDeadline {
      return Some(Err(OverallTimeout));
    }
    now := env.Now();
    if now >= attemptDeadline {
      return Some(Err(AttemptTimeout));
    }
    var found := polls(polled);
    if found.None? {
      return None;
    }
    now := env.Now();
    if now >= overallDeadline {
      return Some(Err(OverallTimeout));
    }
    now := env.Now();
    if now >= attemptDeadline {
      return Some(Err(AttemptTimeout));
    }
    result := Some(Ok(found.value));
  }

  /** The polling loop ends, whatever the future does, because one of its deadlines passes. */
  method BlockOnUntil<T>(env: Surroundings, polls: nat -> Option<T>, attemptDeadline: nat, overallDeadline: nat, ghost b: Limits)
    returns (result: Result<T, DeadlineOutcome>)
    requires b.oracle == env.oracle && b.overall == overallDeadline && Bounded(b, attemptDeadline)
    modifies env
    ensures Blocked(result, env.clockReads, env.cancelReads)
         == BlockOn(b, polls, attemptDeadline, old(env.clockReads), old(env.cancelReads), 0)
  {
    var polled := 0;
    while true
      invariant BlockOn(b, polls, attemptDeadline, env.clockReads, env.cancelReads, polled)
             == BlockOn(b, polls, attemptDeadline, old(env.clockReads), old(env.cancelReads), 0)
      decreases if env.clockReads < b.horizon then b.horizon - env.clockReads else 0
    {
      ghost var t, c := env.clockReads, env.cancelReads;
      var ready := Poll(env, polls, attemptDeadline, overallDeadline, polled);
      if ready.Some? {
        return ready.value;
      }
      GoesOn(b, polls, attemptDeadline, t, c, polled);
      polled := polled + 1;
    }
  }
}
