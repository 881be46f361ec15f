/** The two failover loops, over any targets, providers, clock and client. */
module Dispatch {
  import opened Wrappers
  import opened Response
  import opened Gate
  import opened Sse
  import opened Delivery
  import opened Deadline

  /** A configured target: its diagnostics, and its timeout. */
  datatype Target = Target(provider: string, model: string, timeout: nat)

  datatype AttemptOutcome = Failed(kind: TargetErrorKind) | Succeeded | Abandoned
  datatype AttemptRecord = AttemptRecord(routeIndex: nat, provider: string, targetModel: string, outcome: AttemptOutcome)

  datatype RouteExhausted = RouteExhausted(overallTimeout: bool, cancelled: bool)

  /** How one target ended: with success, with a failure that the next target may make good,
      with the route's time used up, or with the client gone, on record or not. */
  datatype Verdict<+T> = Won(value: T) | Lost(kind: TargetErrorKind) | Expired | Gone(recorded: bool)

  /** One target's turn: the first reading it made, whether its provider was constructed, the reading its
      operation started from if it was invoked, and the readings made by its end. */
  datatype Trial<+T> = Trial(verdict: Verdict<T>, from: nat, constructed: bool, start: Option<nat>, t: nat, c: nat)

  function Min(a: nat, b: nat): nat {
    if a <= b then a else b
  }

  function AttemptDeadline(b: Limits, timeout: nat, start: nat): nat {
    Min(SaturatingAdd(b.oracle.clock(start), timeout), b.overall)
  }

  type Polls<!T> = nat -> Option<Result<T, TargetErrorKind>>

  /** The checks before a provider is constructed and before its operation is invoked; only
      `dispatch_route` looks for the client again in between. */
  function Enter<T>(o: Oracle, overall: nat, again: bool, t: nat, c: nat): Option<Trial<T>> {
    if o.cancelled(c) then Some(Trial(Gone(false), t, false, None, t, c + 1))
    else if o.clock(t) >= overall then Some(Trial(Expired, t, false, None, t + 1, c + 1))
    else if o.clock(t + 1) >= overall then Some(Trial(Expired, t, true, None, t + 2, c + 1))
    else if again && o.cancelled(c + 1) then Some(Trial(Gone(false), t, true, None, t + 2, c + 2))
    else None
  }

  /** A target of `dispatch_route`. */
  ghost function TryComplete<T>(b: Budget, timeout: nat, polls: Polls<T>, t: nat, c: nat): Trial<T> {
    match Enter(b.oracle, b.overall, true, t, c)
    case Some(trial) => trial
    case None => Answered(t, BlockOn(b, polls, AttemptDeadline(b, timeout, t + 1), t + 2, c + 2, 0))
  }

  function Answered<T>(from: nat, r: Blocked<Result<T, TargetErrorKind>>): Trial<T> {
    var verdict := if r.result.Err? then Interrupted(r.result.error)
                   else if r.result.value.Err? then Lost(r.result.value.error)
                   else Won(r.result.value.value);
    Trial(verdict, from, true, Some(from + 1), r.t, r.c)
  }

  function Interrupted<T>(d: DeadlineOutcome): Verdict<T> {
    match d
    case AttemptTimeout => Lost(Timeout)
    case OverallTimeout => Expired
    case Cancelled => Gone(true)
  }

  /** A stream whose first chunk was read, and what is still to be read from it. */
  datatype Selected = Selected(first: ChatChunk, rest: seq<Item>, idle: nat)

  /** A target of `dispatch_stream_route`; what becomes ready is the stream itself. */
  ghost function TryStream(b: Budget, timeout: nat, request: CanonicalRequest, polls: Polls<seq<Item>>, t: nat,
                           c: nat): Trial<Selected> {
    match Enter(b.oracle, b.overall, false, t, c)
    case Some(trial) => trial
    case None => OpenStream(b, timeout, request, t, BlockOn(b, polls, AttemptDeadline(b, timeout, t + 1), t + 2, c + 1, 0))
  }

  /** Once there is a stream, its first chunk is read under the same deadlines, checked on both sides. */
  function OpenStream(b: Limits, timeout: nat, request: CanonicalRequest, from: nat,
                      r: Blocked<Result<seq<Item>, TargetErrorKind>>): Trial<Selected> {
    if r.result.Err? then Trial(Interrupted(r.result.error), from, true, Some(from + 1), r.t, r.c)
    else if r.result.value.Err? then Trial(Lost(r.result.value.error), from, true, Some(from + 1), r.t, r.c)
    else ReadFirst(b, timeout, request, r.result.value.value, from, r.t, r.c)
  }

  function ReadFirst(b: Limits, timeout: nat, request: CanonicalRequest, stream: seq<Item>, from: nat, t: nat,
                     c: nat): Trial<Selected> {
    var o := b.oracle;
    var deadline := AttemptDeadline(b, timeout, from + 1);
    if o.cancelled(c) then Trial(Gone(true), from, true, Some(from + 1), t, c + 1)
    else if o.clock(t) >= b.overall then Trial(Expired, from, true, Some(from + 1), t + 1, c + 1)
    else if o.clock(t + 1) >= deadline then Trial(Lost(Timeout), from, true, Some(from + 1), t + 2, c + 1)
    else if o.clock(t + 2) >= b.overall then Trial(Expired, from, true, Some(from + 1), t + 3, c + 1)
    else if o.cancelled(c + 1) then Trial(Gone(true), from, true, Some(from + 1), t + 3, c + 2)
    else if o.clock(t + 3) >= deadline then Trial(Lost(Timeout), from, true, Some(from + 1), t + 4, c + 2)
    else Trial(Inspect(request, timeout, stream), from, true, Some(from + 1), t + 4, c + 2)
  }

  function Inspect(request: CanonicalRequest, timeout: nat, stream: seq<Item>): Verdict<Selected> {
    if stream == [] then Lost(InvalidResponseError)
    else if stream[0].Err? then Lost(stream[0].error)
    else if First(stream[0].value, request.includeUsage).Some? && stream[0].value.model == request.model
    then Won(Selected(stream[0].value, stream[1..], timeout))
    else Lost(InvalidResponseError)
  }

  // ------------------------------------------------------------ the route loop

  /** The whole loop: the attempts on record, the result, and each target's turn. */
  datatype Run<+T> = Run(attempts: seq<AttemptRecord>, result: Result<T, RouteExhausted>, trials: seq<Trial<T>>)

  function Record(targets: seq<Target>, i: nat, outcome: AttemptOutcome): AttemptRecord
    requires i < |targets|
  {
    AttemptRecord(i, targets[i].provider, targets[i].model, outcome)
  }

  function Earlier<T>(attempts: seq<AttemptRecord>, trials: seq<Trial<T>>, run: Run<T>): Run<T> {
    Run(attempts + run.attempts, run.result, trials + run.trials)
  }

  /** How the loop goes on from target `i`. */
  function RouteFrom<T>(targets: seq<Target>, attempt: (nat, nat, nat) -> Trial<T>, i: nat, t: nat, c: nat): Run<T>
    requires i <= |targets|
    decreases |targets| - i
  {
    if i == |targets| then Run([], Err(RouteExhausted(false, false)), [])
    else
      var trial := attempt(i, t, c);
      match trial.verdict
      case Won(value) => Run([Record(targets, i, Succeeded)], Ok(value), [trial])
      case Lost(kind) =>
        Earlier([Record(targets, i, Failed(kind))], [trial], RouteFrom(targets, attempt, i + 1, trial.t, trial.c))
      case Expired => Run([], Err(RouteExhausted(true, false)), [trial])
      case Gone(recorded) =>
        Run(if recorded then [Record(targets, i, Abandoned)] else [], Err(RouteExhausted(false, true)), [trial])
  }

  /** How many providers were constructed. */
  function Constructed<T>(trials: seq<Trial<T>>): nat {
    if trials == [] then 0 else (if trials[0].constructed then 1 else 0) + Constructed(trials[1..])
  }

  // ---------------------------------------------------------- failover shape

  /** An operation that answered, or that was abandoned on record, had its provider constructed. */
  ghost predicate Constructive<T(!new)>(attempt: (nat, nat, nat) -> Trial<T>) {
    forall i: nat, t: nat, c: nat :: OnSite(attempt(i, t, c))
  }

  predicate OnSite<T>(trial: Trial<T>) {
    trial.verdict.Won? || trial.verdict.Lost? || (trial.verdict.Gone? && trial.verdict.recorded) ==> trial.constructed
  }

  ghost predicate Shaped<T>(targets: seq<Target>, i: nat, run: Run<T>)
    requires i <= |targets|
  {
    var n := |run.attempts|;
    && i + n <= |targets|
    && (forall k :: 0 <= k < n ==> run.attempts[k] == Record(targets, i + k, run.attempts[k].outcome))
    && (forall k :: 0 <= k < n - 1 ==> run.attempts[k].outcome.Failed?)
    && (run.result.Ok? <==> n > 0 && run.attempts[n - 1].outcome.Succeeded?)
    && (n > 0 && run.attempts[n - 1].outcome.Abandoned? ==> run.result == Err(RouteExhausted(false, true)))
    && (run.result.Err? ==> !(run.result.error.overallTimeout && run.result.error.cancelled))
    && (run.result == Err(RouteExhausted(true, false)) ==> i + n < |targets|)
    && (run.result == Err(RouteExhausted(false, false)) ==> i + n == |targets|)
  }

  /** Providers constructed: one for each attempt on record, and perhaps one whose
      operation the route's deadline or the client's departure cut off. */
  ghost predicate Accounted<T>(run: Run<T>) {
    var built := Constructed(run.trials);
    && (built == |run.attempts| || built == |run.attempts| + 1)
    && (built == |run.attempts| + 1 ==> run.result.Err? && run.result.error != RouteExhausted(false, false))
  }

  lemma {:induction false} FailoverShape<T(!new)>(targets: seq<Target>, attempt: (nat, nat, nat) -> Trial<T>, i: nat, t: nat, c: nat)
    requires i <= |targets| && Constructive(attempt)
    ensures Shaped(targets, i, RouteFrom(targets, attempt, i, t, c))
    ensures Accounted(RouteFrom(targets, attempt, i, t, c))
    decreases |targets| - i
  {
    if i < |targets| {
      var trial := attempt(i, t, c);
      assert Constructed([trial]) == (if trial.constructed then 1 else 0) + Constructed<T>([]) by {
        assert [trial][1..] == [];
      }
      if trial.verdict.Lost? {
        FailoverShape(targets, attempt, i + 1, trial.t, trial.c);
        var rest := RouteFrom(targets, attempt, i + 1, trial.t, trial.c);
        OneMoreFailed(targets, i, trial, rest);
      }
    }
  }

  lemma OneMoreFailed<T>(targets: seq<Target>, i: nat, trial: Trial<T>, rest: Run<T>)
    requires i < |targets| && trial.verdict.Lost? && trial.constructed
    requires Shaped(targets, i + 1, rest) && Accounted(rest)
    ensures var run := Earlier([Record(targets, i, Failed(trial.verdict.kind))], [trial], rest);
            Shaped(targets, i, run) && Accounted(run)
  {
    var run := Earlier([Record(targets, i, Failed(trial.verdict.kind))], [trial], rest);
    assert run.trials[1..] == rest.trials;
    forall k | 0 <= k < |run.attempts| ensures run.attempts[k] == Record(targets, i + k, run.attempts[k].outcome) {
      if k > 0 {
        assert run.attempts[k] == rest.attempts[k - 1];
      }
    }
  }

  // --------------------------------------------------------- deadline safety

  /** One target's turn and the clock: a provider is constructed, and its operation invoked, only from a
      reading before the route's deadline; a success passed both deadlines' last checks; and
      every other ending but a provider's own failure has its reading. */
  ghost predicate Punctual<T>(b: Limits, timeout: nat, trial: Trial<T>) {
    var o := b.oracle;
    && trial.t >= trial.from && trial.c > 0
    && (trial.constructed ==> o.clock(trial.from) < b.overall)
    && (trial.start.Some? ==> trial.constructed && trial.start.value == trial.from + 1 && o.clock(trial.from + 1) < b.overall)
    && (trial.verdict.Won? ==>
          && trial.start.Some? && trial.t >= trial.from + 2
          && o.clock(trial.t - 2) < b.overall && o.clock(trial.t - 1) < AttemptDeadline(b, timeout, trial.from + 1)
          && !o.cancelled(trial.c - 1))
    && (trial.verdict.Expired? ==> trial.t > trial.from && o.clock(trial.t - 1) >= b.overall)
    && (trial.verdict.Gone? ==> o.cancelled(trial.c - 1) && (trial.verdict.recorded <==> trial.start.Some?))
    && (trial.verdict.Lost? ==> trial.start.Some?)
  }

  /** Every turn is punctual, and takes up the clock where the one before left it. */
  ghost predicate AllPunctual<T>(b: Limits, targets: seq<Target>, i: nat, t: nat, trials: seq<Trial<T>>) {
    && i + |trials| <= |targets|
    && forall k :: 0 <= k < |trials| ==>
         Punctual(b, targets[i + k].timeout, trials[k]) && trials[k].from == if k == 0 then t else trials[k - 1].t
  }

  ghost predicate PunctualAttempts<T(!new)>(b: Limits, targets: seq<Target>, attempt: (nat, nat, nat) -> Trial<T>) {
    forall i: nat, t: nat, c: nat :: i < |targets| ==>
      Punctual(b, targets[i].timeout, attempt(i, t, c)) && attempt(i, t, c).from == t
  }

  lemma {:induction false} DeadlineSafety<T(!new)>(b: Limits, targets: seq<Target>,
                                                   attempt: (nat, nat, nat) -> Trial<T>, i: nat, t: nat, c: nat)
    requires i <= |targets| && PunctualAttempts(b, targets, attempt)
    ensures AllPunctual(b, targets, i, t, RouteFrom(targets, attempt, i, t, c).trials)
    decreases |targets| - i
  {
    if i < |targets| {
      var trial := attempt(i, t, c);
      if trial.verdict.Lost? {
        DeadlineSafety(b, targets, attempt, i + 1, trial.t, trial.c);
        EarlierPunctual(b, targets, i, t, trial, RouteFrom(targets, attempt, i + 1, trial.t, trial.c).trials);
      }
    }
  }

  lemma EarlierPunctual<T>(b: Limits, targets: seq<Target>, i: nat, t: nat, trial: Trial<T>, rest: seq<Trial<T>>)
    requires i < |targets| && Punctual(b, targets[i].timeout, trial) && trial.from == t
    requires AllPunctual(b, targets, i + 1, trial.t, rest)
    ensures AllPunctual(b, targets, i, t, [trial] + rest)
  {
    var all := [trial] + rest;
    forall k | 0 <= k < |all|
      ensures Punctual(b, targets[i + k].timeout, all[k]) && all[k].from == if k == 0 then t else all[k - 1].t
    {
      if k > 0 {
        assert all[k] == rest[k - 1] && targets[i + k] == targets[i + 1 + (k - 1)];
        assert rest[k - 1].from == if k - 1 == 0 then trial.t else rest[k - 2].t;
        assert k > 1 ==> all[k - 1] == rest[k - 2];
      }
    }
  }

  /** A turn that begins at `t`, as it should be. */
  ghost predicate Proper<T>(b: Limits, timeout: nat, t: nat, trial: Trial<T>) {
    Punctual(b, timeout, trial) && trial.from == t && OnSite(trial)
  }

  lemma CutIsProper<T>(b: Limits, timeout: nat, again: bool, t: nat, c: nat)
    ensures var cut := Enter<T>(b.oracle, b.overall, again, t, c);
            if cut.Some? then Proper(b, timeout, t, cut.value)
            else b.oracle.clock(t) < b.overall && b.oracle.clock(t + 1) < b.overall
  {
  }

  lemma AnsweredIsProper<T>(b: Limits, timeout: nat, from: nat, c: nat, r: Blocked<Result<T, TargetErrorKind>>)
    requires Ended(b, AttemptDeadline(b, timeout, from + 1), from + 2, c, r)
    requires b.oracle.clock(from) < b.overall && b.oracle.clock(from + 1) < b.overall
    ensures Proper(b, timeout, from, Answered(from, r))
  {
  }

  lemma CompleteIsProper<T>(b: Budget, timeout: nat, polls: Polls<T>, t: nat, c: nat)
    ensures Proper(b, timeout, t, TryComplete(b, timeout, polls, t, c))
  {
    CutIsProper<T>(b, timeout, true, t, c);
    if Enter<T>(b.oracle, b.overall, true, t, c).None? {
      var deadline := AttemptDeadline(b, timeout, t + 1);
      EndsForCause(b, polls, deadline, t + 2, c + 2, 0);
      AnsweredIsProper(b, timeout, t, c + 2, BlockOn(b, polls, deadline, t + 2, c + 2, 0));
    }
  }

  /** The response that wins is the first thing its provider had ready. */
  lemma CompleteIsFirstReady<T(!new)>(b: Budget, timeout: nat, polls: Polls<T>, t: nat, c: nat)
    requires TryComplete(b, timeout, polls, t, c).verdict.Won?
    ensures Yields(polls, Ok(TryComplete(b, timeout, polls, t, c).verdict.value))
  {
    HandsOverFirstReady(b, polls, AttemptDeadline(b, timeout, t + 1), t + 2, c + 2, 0);
  }

  lemma OpenIsProper(b: Limits, timeout: nat, request: CanonicalRequest, from: nat, c: nat,
                     r: Blocked<Result<seq<Item>, TargetErrorKind>>)
    requires Ended(b, AttemptDeadline(b, timeout, from + 1), from + 2, c, r)
    requires b.oracle.clock(from) < b.overall && b.oracle.clock(from + 1) < b.overall
    ensures Proper(b, timeout, from, OpenStream(b, timeout, request, from, r))
  {
  }

  lemma StreamIsProper(b: Budget, timeout: nat, request: CanonicalRequest, polls: Polls<seq<Item>>, t: nat, c: nat)
    ensures Proper(b, timeout, t, TryStream(b, timeout, request, polls, t, c))
  {
    CutIsProper<Selected>(b, timeout, false, t, c);
    if Enter<Selected>(b.oracle, b.overall, false, t, c).None? {
      var deadline := AttemptDeadline(b, timeout, t + 1);
      EndsForCause(b, polls, deadline, t + 2, c + 1, 0);
      OpenIsProper(b, timeout, request, t, c + 1, BlockOn(b, polls, deadline, t + 2, c + 1, 0));
    }
  }

  /** A stream that wins is the first thing its provider had ready, and its first chunk has passed
      the gate and answers for the requested model. */
  lemma StreamPassedTheGate(b: Budget, timeout: nat, request: CanonicalRequest, polls: Polls<seq<Item>>, t: nat, c: nat)
    requires TryStream(b, timeout, request, polls, t, c).verdict.Won?
    ensures var s := TryStream(b, timeout, request, polls, t, c).verdict.value;
            && First(s.first, request.includeUsage).Some? && s.first.model == request.model && s.idle == timeout
            && Yields(polls, Ok([Ok(s.first)] + s.rest))
  {
    var deadline := AttemptDeadline(b, timeout, t + 1);
    HandsOverFirstReady(b, polls, deadline, t + 2, c + 1, 0);
    var stream := BlockOn(b, polls, deadline, t + 2, c + 1, 0).result.value.value;
    assert stream == [Ok(stream[0].value)] + stream[1..];
  }

  /** A target is given up for its provider's own first answer, or for its time being up. */
  lemma CompleteLostForCause<T(!new)>(b: Budget, timeout: nat, polls: Polls<T>, t: nat, c: nat)
    requires TryComplete(b, timeout, polls, t, c).verdict.Lost?
    ensures var trial := TryComplete(b, timeout, polls, t, c);
            OutOfTime(b, timeout, trial) || Yields(polls, Err(trial.verdict.kind))
  {
    PollingEnds(b, polls, AttemptDeadline(b, timeout, t + 1), t + 2, c + 2);
  }

  /** A stream is not worth committing to: it ends at once, fails at once, or starts with a chunk
      that the gate refuses or that answers for another model. */
  ghost predicate NotWorthCommitting(request: CanonicalRequest, stream: seq<Item>, kind: TargetErrorKind) {
    if stream != [] && stream[0].Err? then kind == stream[0].error
    else
      && kind == InvalidResponseError
      && (stream != [] ==> First(stream[0].value, request.includeUsage).None? || stream[0].value.model != request.model)
  }

  /** What a provider had ready is reason to give it up, and this is the kind of failure. */
  ghost predicate GivenUpOver(request: CanonicalRequest, ready: Result<seq<Item>, TargetErrorKind>, kind: TargetErrorKind) {
    ready == Err(kind) || (ready.Ok? && NotWorthCommitting(request, ready.value, kind))
  }

  ghost predicate OutOfTime<T>(b: Limits, timeout: nat, trial: Trial<T>) {
    trial.verdict == Lost(Timeout) && trial.t > 0 && b.oracle.clock(trial.t - 1) >= AttemptDeadline(b, timeout, trial.from + 1)
  }

  lemma StreamLostForCause(b: Budget, timeout: nat, request: CanonicalRequest, polls: Polls<seq<Item>>, t: nat, c: nat)
    requires TryStream(b, timeout, request, polls, t, c).verdict.Lost?
    ensures var trial := TryStream(b, timeout, request, polls, t, c);
            || OutOfTime(b, timeout, trial)
            || exists ready :: Yields(polls, ready) && GivenUpOver(request, ready, trial.verdict.kind)
  {
    var deadline := AttemptDeadline(b, timeout, t + 1);
    PollingEnds(b, polls, deadline, t + 2, c + 1);
    OpenLost(b, timeout, request, t, c + 1, BlockOn(b, polls, deadline, t + 2, c + 1, 0));
  }

  lemma OpenLost(b: Limits, timeout: nat, request: CanonicalRequest, from: nat, c: nat, r: Blocked<Result<seq<Item>, TargetErrorKind>>)
    requires Ended(b, AttemptDeadline(b, timeout, from + 1), from + 2, c, r)
    requires OpenStream(b, timeout, request, from, r).verdict.Lost?
    ensures var trial := OpenStream(b, timeout, request, from, r);
            OutOfTime(b, timeout, trial) || (r.result.Ok? && GivenUpOver(request, r.result.value, trial.verdict.kind))
  {
  }

  // -------------------------------------------------------------------- ties

  /** Out of time in a turn that shares the route's deadline: it passed within some check. */
  lemma OpenTie(b: Limits, timeout: nat, request: CanonicalRequest, from: nat, c: nat,
                r: Blocked<Result<seq<Item>, TargetErrorKind>>)
    requires Ended(b, b.overall, from + 2, c, r) && AttemptDeadline(b, timeout, from + 1) == b.overall
    requires r.result.Ok? ==> (r.t - (from + 2)) % 2 == 0
    requires r.result == Err(AttemptTimeout) ==> Straddles(b, from + 2)
    requires OutOfTime(b, timeout, OpenStream(b, timeout, request, from, r))
    ensures Straddles(b, from + 2)
  {
    if r.result.Ok? {
      var k := (r.t - (from + 2)) / 2;
      assert r.t == from + 2 + 2 * k;
      assert StraddlesAt(b, from + 2, k) || StraddlesAt(b, from + 2, k + 1);
    }
  }

  lemma StreamTieOnlyThere(b: Budget, timeout: nat, request: CanonicalRequest, polls: Polls<seq<Item>>, t: nat, c: nat)
    requires AttemptDeadline(b, timeout, t + 1) == b.overall
    requires OutOfTime(b, timeout, TryStream(b, timeout, request, polls, t, c))
    ensures Straddles(b, t + 2)
  {
    LostWasOpened(b, timeout, request, polls, t, c);
    PollsTie(b, polls, t + 2, c + 1);
    OpenTie(b, timeout, request, t, c + 1, BlockOn(b, polls, b.overall, t + 2, c + 1, 0));
  }

  lemma LostWasOpened(b: Budget, timeout: nat, request: CanonicalRequest, polls: Polls<seq<Item>>, t: nat, c: nat)
    requires AttemptDeadline(b, timeout, t + 1) == b.overall
    requires OutOfTime(b, timeout, TryStream(b, timeout, request, polls, t, c))
    ensures OutOfTime(b, timeout, OpenStream(b, timeout, request, t, BlockOn(b, polls, b.overall, t + 2, c + 1, 0)))
  {
  }

  lemma PollsTie<T(!new)>(b: Budget, polls: nat -> Option<T>, t: nat, c: nat)
    ensures var r := BlockOn(b, polls, b.overall, t, c, 0);
            && Ended(b, b.overall, t, c, r)
            && (r.result.Ok? ==> (r.t - t) % 2 == 0)
            && (r.result == Err(AttemptTimeout) ==> Straddles(b, t))
  {
    EndsForCause(b, polls, b.overall, t, c, 0);
    if BlockOn(b, polls, b.overall, t, c, 0).result.Ok? {
      ReadyBetweenChecks(b, polls, b.overall, t, c, 0);
    } else if BlockOn(b, polls, b.overall, t, c, 0).result == Err(AttemptTimeout) {
      TieLostOnlyThere(b, polls, t, c, 0);
    }
  }

  /** Through connecting and reading the first chunk, a target whose deadline is the route's own is never
      given up for its own time being up exactly when no check from its first poll on straddles that deadline. */
  lemma StreamTieIsOverallExactly(b: Budget, timeout: nat, request: CanonicalRequest, t: nat)
    requires NonDecreasing(b.oracle) && forall i: nat :: !b.oracle.cancelled(i)
    requires AttemptDeadline(b, timeout, t + 1) == b.overall
    ensures (forall polls: Polls<seq<Item>>, c: nat :: !OutOfTime(b, timeout, TryStream(b, timeout, request, polls, t, c)))
       <==> !Straddles(b, t + 2)
  {
    forall polls: Polls<seq<Item>>, c: nat | OutOfTime(b, timeout, TryStream(b, timeout, request, polls, t, c))
      ensures Straddles(b, t + 2)
    {
      StreamTieOnlyThere(b, timeout, request, polls, t, c);
    }
    if Straddles(b, t + 2) {
      var k: nat :| StraddlesAt(b, t + 2, k);
      var never: Polls<seq<Item>> := (i: nat) => None;
      StreamTieThere(b, timeout, request, never, t, 0, k);
    }
  }

  lemma StreamTieThere(b: Budget, timeout: nat, request: CanonicalRequest, never: Polls<seq<Item>>, t: nat, c: nat, k: nat)
    requires NonDecreasing(b.oracle) && (forall i: nat :: !b.oracle.cancelled(i)) && (forall i: nat :: never(i) == None)
    requires AttemptDeadline(b, timeout, t + 1) == b.overall && StraddlesAt(b, t + 2, k)
    ensures OutOfTime(b, timeout, TryStream(b, timeout, request, never, t, c))
  {
    assert b.oracle.clock(t) <= b.oracle.clock(t + 2 + 2 * k) && b.oracle.clock(t + 1) <= b.oracle.clock(t + 2 + 2 * k);
    TieLostThere(b, never, t + 2, c + 1, 0, k);
    StreamTimesOut(b, timeout, request, never, t, c);
  }

  lemma StreamTimesOut(b: Budget, timeout: nat, request: CanonicalRequest, polls: Polls<seq<Item>>, t: nat, c: nat)
    requires Enter<Selected>(b.oracle, b.overall, false, t, c) == None
    requires BlockOn(b, polls, AttemptDeadline(b, timeout, t + 1), t + 2, c + 1, 0).result == Err(AttemptTimeout)
    ensures OutOfTime(b, timeout, TryStream(b, timeout, request, polls, t, c))
  {
    var deadline := AttemptDeadline(b, timeout, t + 1);
    EndsForCause(b, polls, deadline, t + 2, c + 1, 0);
    OpenTimedOut(b, timeout, request, t, c + 1, BlockOn(b, polls, deadline, t + 2, c + 1, 0));
  }

  lemma OpenTimedOut(b: Limits, timeout: nat, request: CanonicalRequest, from: nat, c: nat,
                     r: Blocked<Result<seq<Item>, TargetErrorKind>>)
    requires Ended(b, AttemptDeadline(b, timeout, from + 1), from + 2, c, r) && r.result == Err(AttemptTimeout)
    ensures OutOfTime(b, timeout, OpenStream(b, timeout, request, from, r))
  {
  }

  // ------------------------------------------------------- the two dispatches

  /** What `complete` of each target's provider finds at each poll. */
  type Operations<!T> = nat -> Polls<T>

  ghost function CompleteRoute<T>(b: Budget, targets: seq<Target>, ops: Operations<T>, t: nat, c: nat): Run<T> {
    RouteFrom(targets, Completing(b, targets, ops), 0, t, c)
  }

  ghost function Completing<T>(b: Budget, targets: seq<Target>, ops: Operations<T>): (nat, nat, nat) -> Trial<T> {
    (i: nat, t: nat, c: nat) => TryComplete(b, if i < |targets| then targets[i].timeout else 0, ops(i), t, c)
  }

  ghost function StreamRoute(b: Budget, targets: seq<Target>, request: CanonicalRequest, ops: Operations<seq<Item>>,
                             t: nat, c: nat): Run<Selected> {
    RouteFrom(targets, Streaming(b, targets, request, ops), 0, t, c)
  }

  ghost function Streaming(b: Budget, targets: seq<Target>, request: CanonicalRequest,
                           ops: Operations<seq<Item>>): (nat, nat, nat) -> Trial<Selected> {
    (i: nat, t: nat, c: nat) => TryStream(b, if i < |targets| then targets[i].timeout else 0, request, ops(i), t, c)
  }

  lemma CompletingIsPunctual<T(!new)>(b: Budget, targets: seq<Target>, ops: Operations<T>)
    ensures PunctualAttempts(b, targets, Completing(b, targets, ops)) && Constructive(Completing(b, targets, ops))
  {
    var attempt := Completing(b, targets, ops);
    forall i: nat, t: nat, c: nat | i < |targets|
      ensures Punctual(b, targets[i].timeout, attempt(i, t, c)) && attempt(i, t, c).from == t
    {
      CompleteIsProper(b, targets[i].timeout, ops(i), t, c);
    }
    forall i: nat, t: nat, c: nat ensures OnSite(attempt(i, t, c)) {
      CompleteIsProper(b, if i < |targets| then targets[i].timeout else 0, ops(i), t, c);
    }
  }

  lemma CompleteRouteIsSafe<T(!new)>(b: Budget, targets: seq<Target>, ops: Operations<T>, t: nat, c: nat)
    ensures var run := CompleteRoute(b, targets, ops, t, c);
            Shaped(targets, 0, run) && Accounted(run) && AllPunctual(b, targets, 0, t, run.trials)
  {
    CompletingIsPunctual(b, targets, ops);
    DeadlineSafety(b, targets, Completing(b, targets, ops), 0, t, c);
    FailoverShape(targets, Completing(b, targets, ops), 0, t, c);
  }

  lemma StreamingIsPunctual(b: Budget, targets: seq<Target>, request: CanonicalRequest, ops: Operations<seq<Item>>)
    ensures PunctualAttempts(b, targets, Streaming(b, targets, request, ops)) && Constructive(Streaming(b, targets, request, ops))
  {
    var attempt := Streaming(b, targets, request, ops);
    forall i: nat, t: nat, c: nat | i < |targets|
      ensures Punctual(b, targets[i].timeout, attempt(i, t, c)) && attempt(i, t, c).from == t
    {
      StreamIsProper(b, targets[i].timeout, request, ops(i), t, c);
    }
    forall i: nat, t: nat, c: nat ensures OnSite(attempt(i, t, c)) {
      StreamIsProper(b, if i < |targets| then targets[i].timeout else 0, request, ops(i), t, c);
    }
  }

  lemma StreamRouteIsSafe(b: Budget, targets: seq<Target>, request: CanonicalRequest, ops: Operations<seq<Item>>, t: nat, c: nat)
    ensures var run := StreamRoute(b, targets, request, ops, t, c);
            Shaped(targets, 0, run) && Accounted(run) && AllPunctual(b, targets, 0, t, run.trials)
  {
    StreamingIsPunctual(b, targets, request, ops);
    DeadlineSafety(b, targets, Streaming(b, targets, request, ops), 0, t, c);
    FailoverShape(targets, Streaming(b, targets, request, ops), 0, t, c);
  }

  /** The last target won, and every reading made by then lies before the route's deadline. */
  ghost predicate WonInTime<T>(b: Limits, run: Run<T>) {
    && run.result.Ok? && run.trials != []
    && var last := run.trials[|run.trials| - 1];
       && last.verdict == Won(run.result.value)
       && forall s: nat :: s < last.t ==> b.oracle.clock(s) < b.overall
  }

  lemma SuccessWithinTheRoute<T(!new)>(b: Limits, targets: seq<Target>, attempt: (nat, nat, nat) -> Trial<T>,
                                       i: nat, t: nat, c: nat)
    requires i <= |targets| && PunctualAttempts(b, targets, attempt) && NonDecreasing(b.oracle)
    requires RouteFrom(targets, attempt, i, t, c).result.Ok?
    ensures WonInTime(b, RouteFrom(targets, attempt, i, t, c))
    decreases |targets| - i
  {
    var trial := attempt(i, t, c);
    if trial.verdict.Won? {
      forall s: nat | s < trial.t ensures b.oracle.clock(s) < b.overall {
        assert b.oracle.clock(s) <= b.oracle.clock(trial.t - 1);
      }
    } else {
      SuccessWithinTheRoute(b, targets, attempt, i + 1, trial.t, trial.c);
    }
  }

  /** Time never runs backwards: then every reading of a successful run lies before the route's deadline. */
  lemma CompleteSuccessInTime<T(!new)>(b: Budget, targets: seq<Target>, ops: Operations<T>, t: nat, c: nat)
    requires NonDecreasing(b.oracle) && CompleteRoute(b, targets, ops, t, c).result.Ok?
    ensures WonInTime(b, CompleteRoute(b, targets, ops, t, c))
  {
    CompletingIsPunctual(b, targets, ops);
    SuccessWithinTheRoute(b, targets, Completing(b, targets, ops), 0, t, c);
  }

  lemma StreamSuccessInTime(b: Budget, targets: seq<Target>, request: CanonicalRequest, ops: Operations<seq<Item>>, t: nat, c: nat)
    requires NonDecreasing(b.oracle) && StreamRoute(b, targets, request, ops, t, c).result.Ok?
    ensures WonInTime(b, StreamRoute(b, targets, request, ops, t, c))
  {
    StreamingIsPunctual(b, targets, request, ops);
    SuccessWithinTheRoute(b, targets, Streaming(b, targets, request, ops), 0, t, c);
  }

  // ------------------------------------------------------------------ machine

  lemma CompletingIs<T>(b: Budget, targets: seq<Target>, ops: Operations<T>, i: nat, t: nat, c: nat)
    requires i < |targets|
    ensures Completing(b, targets, ops)(i, t, c) == TryComplete(b, targets[i].timeout, ops(i), t, c)
  {
  }

  lemma StreamingIs(b: Budget, targets: seq<Target>, request: CanonicalRequest, ops: Operations<seq<Item>>, i: nat, t: nat, c: nat)
    requires i < |targets|
    ensures Streaming(b, targets, request, ops)(i, t, c) == TryStream(b, targets[i].timeout, request, ops(i), t, c)
  {
  }

  /** The checks on the way in, and the reading the attempt starts from. */
  method CheckIn<T>(env: Surroundings, overallDeadline: nat, again: bool) returns (cut: Option<Trial<T>>, attemptStart: nat)
    modifies env
    ensures cut == Enter(env.oracle, overallDeadline, again, old(env.clockReads), old(env.cancelReads))
    ensures cut.Some? ==> cut.value.t == env.clockReads && cut.value.c == env.cancelReads
    ensures cut.None? ==> env.clockReads == old(env.clockReads) + 2 && env.cancelReads == old(env.cancelReads) + if again then 2 else 1
    ensures cut.None? ==> attemptStart == env.oracle.clock(old(env.clockReads) + 1)
  {
    var from := env.clockReads;
    attemptStart := 0;
    var cancelled := env.IsCancelled();
    if cancelled {
      return Some(Trial(Gone(false), from, false, None, env.clockReads, env.cancelReads)), attemptStart;
    }
    var now := env.Now();
    if now >= overallDeadline {
      return Some(Trial(Expired, from, false, None, env.clockReads, env.cancelReads)), attemptStart;
    }
    attemptStart := env.Now();
    if attemptStart >= overallDeadline {
      return Some(Trial(Expired, from, true, None, env.clockReads, env.cancelReads)), attemptStart;
    }
    if again {
      cancelled := env.IsCancelled();
      if cancelled {
        return Some(Trial(Gone(false), from, true, None, env.clockReads, env.cancelReads)), attemptStart;
      }
    }
    cut := None;
  }

  /** One target of `dispatch_route`. */
  method CompleteTarget<T>(env: Surroundings, target: Target, polls: Polls<T>, overallDeadline: nat, ghost b: Budget)
    returns (trial: Trial<T>)
    requires b.oracle == env.oracle && b.overall == overallDeadline
    modifies env
    ensures trial == TryComplete(b, target.timeout, polls, old(env.clockReads), old(env.cancelReads))
    ensures trial.t == env.clockReads && trial.c == env.cancelReads
  {
    var from := env.clockReads;
    var cut, attemptStart := CheckIn(env, overallDeadline, true);
    if cut.Some? {
      return cut.value;
    }
    var deadline := Min(SaturatingAdd(attemptStart, target.timeout), overallDeadline);
    var result := BlockOnUntil(env, polls, deadline, overallDeadline, b);
    trial := Answered(from, Blocked(result, env.clockReads, env.cancelReads));
  }

  /** One target of `dispatch_stream_route`. */
  method StreamTarget(env: Surroundings, target: Target, request: CanonicalRequest, polls: Polls<seq<Item>>, overallDeadline: nat,
                      ghost b: Budget)
    returns (trial: Trial<Selected>)
    requires b.oracle == env.oracle && b.overall == overallDeadline
    modifies env
    ensures trial == TryStream(b, target.timeout, request, polls, old(env.clockReads), old(env.cancelReads))
    ensures trial.t == env.clockReads && trial.c == env.cancelReads
  {
    var from := env.clockReads;
    var cut, attemptStart := CheckIn(env, overallDeadline, false);
    if cut.Some? {
      return cut.value;
    }
    var deadline := Min(SaturatingAdd(attemptStart, target.timeout), overallDeadline);
    var result := BlockOnUntil(env, polls, deadline, overallDeadline, b);
    trial := FirstOf(env, request, target.timeout, result, deadline, overallDeadline, from, b);
  }

  /** What became ready is looked at: an error, or a stream whose first chunk is read. */
  method FirstOf(env: Surroundings, request: CanonicalRequest, timeout: nat,
                 result: Result<Result<seq<Item>, TargetErrorKind>, DeadlineOutcome>,
                 deadline: nat, overallDeadline: nat, from: nat, ghost b: Budget)
    returns (trial: Trial<Selected>)
    requires b.oracle == env.oracle && b.overall == overallDeadline && deadline == AttemptDeadline(b, timeout, from + 1)
    modifies env
    ensures trial == OpenStream(b, timeout, request, from, Blocked(result, old(env.clockReads), old(env.cancelReads)))
    ensures trial.t == env.clockReads && trial.c == env.cancelReads
  {
    var verdict: Verdict<Selected>;
    if result.Err? {
      verdict := Interrupted(result.error);
    } else if result.value.Err? {
      verdict := Lost(result.value.error);
    } else {
      verdict := ReadFirstChunk(env, request, timeout, result.value.value, deadline, overallDeadline, from, b);
    }
    trial := Trial(verdict, from, true, Some(from + 1), env.clockReads, env.cancelReads);
  }

  /** Reading the first chunk, between checks. */
  method ReadFirstChunk(env: Surroundings, request: CanonicalRequest, timeout: nat, stream: seq<Item>, deadline: nat,
                        overallDeadline: nat,
                        ghost from: nat, ghost b: Budget)
    returns (verdict: Verdict<Selected>)
    requires b.oracle == env.oracle && b.overall == overallDeadline && deadline == AttemptDeadline(b, timeout, from + 1)
    modifies env
    ensures Trial(verdict, from, true, Some(from + 1), env.clockReads, env.cancelReads)
         == ReadFirst(b, timeout, request, stream, from, old(env.clockReads), old(env.cancelReads))
  {
    var cancelled := env.IsCancelled();
    if cancelled {
      return Gone(true);
    }
    var now := env.Now();
    if now >= overallDeadline {
      return Expired;
    }
    now := env.Now();
    if now >= deadline {
      return Lost(Timeout);
    }
    now := env.Now();
    if now >= overallDeadline {
      return Expired;
    }
    cancelled := env.IsCancelled();
    if cancelled {
      return Gone(true);
    }
    now := env.Now();
    if now >= deadline {
      return Lost(Timeout);
    }
    verdict := Inspect(request, timeout, stream);
  }

  /** The attempts so far, and the rest of the run. */
  ghost predicate Underway<T>(total: Run<T>, attempts: seq<AttemptRecord>, trials: seq<Trial<T>>, rest: Run<T>) {
    total == Earlier(attempts, trials, rest)
  }

  /** What target `i` makes of it. */
  lemma TargetTried<T>(targets: seq<Target>, attempt: (nat, nat, nat) -> Trial<T>, i: nat, t: nat, c: nat,
                       total: Run<T>, attempts: seq<AttemptRecord>, trials: seq<Trial<T>>, trial: Trial<T>)
    requires i < |targets| && Underway(total, attempts, trials, RouteFrom(targets, attempt, i, t, c))
    requires trial == attempt(i, t, c)
    ensures match trial.verdict
            case Won(value) => total.result == Ok(value) && total.attempts == attempts + [Record(targets, i, Succeeded)]
            case Lost(kind) =>
              Underway(total, attempts + [Record(targets, i, Failed(kind))], trials + [trial],
                       RouteFrom(targets, attempt, i + 1, trial.t, trial.c))
            case Expired => total.result == Err(RouteExhausted(true, false)) && total.attempts == attempts
            case Gone(recorded) =>
              && total.result == Err(RouteExhausted(false, true))
              && total.attempts == attempts + if recorded then [Record(targets, i, Abandoned)] else []
  {
    match trial.verdict {
      case Lost(kind) =>
        var rest := RouteFrom(targets, attempt, i + 1, trial.t, trial.c);
        Associative(attempts, [Record(targets, i, Failed(kind))], rest.attempts);
        Associative(trials, [trial], rest.trials);
      case _ =>
        assert attempts + [] == attempts;
    }
  }

  /** `dispatch_route`: each target once, in order, until one succeeds. */
  method DispatchRoute<T>(env: Surroundings, targets: seq<Target>, ops: Operations<T>, overallTimeout: nat, ghost b: Budget)
    returns (result: Result<T, RouteExhausted>, attempts: seq<AttemptRecord>)
    requires b.oracle == env.oracle && b.overall == SaturatingAdd(env.oracle.clock(env.clockReads), overallTimeout)
    modifies env
    ensures var run := CompleteRoute(b, targets, ops, old(env.clockReads) + 1, old(env.cancelReads));
            result == run.result && attempts == run.attempts
  {
    var now := env.Now();
    var overallDeadline := SaturatingAdd(now, overallTimeout);
    ghost var total := CompleteRoute(b, targets, ops, env.clockReads, env.cancelReads);
    ghost var trials: seq<Trial<T>> := [];
    attempts := [];
    for i := 0 to |targets|
      invariant Underway(total, attempts, trials, RouteFrom(targets, Completing(b, targets, ops), i, env.clockReads, env.cancelReads))
    {
      ghost var t, c := env.clockReads, env.cancelReads;
      var trial := CompleteTarget(env, targets[i], ops(i), overallDeadline, b);
      CompletingIs(b, targets, ops, i, t, c);
      TargetTried(targets, Completing(b, targets, ops), i, t, c, total, attempts, trials, trial);
      match trial.verdict {
        case Won(value) =>
          return Ok(value), attempts + [Record(targets, i, Succeeded)];
        case Lost(kind) =>
          attempts, trials := attempts + [Record(targets, i, Failed(kind))], trials + [trial];
        case Expired =>
          return Err(RouteExhausted(true, false)), attempts;
        case Gone(recorded) =>
          return Err(RouteExhausted(false, true)), attempts + if recorded then [Record(targets, i, Abandoned)] else [];
      }
    }
    result := Err(RouteExhausted(false, false));
  }

  /** `dispatch_stream_route`: the same over streams, none of which is committed to here. */
  method DispatchStreamRoute(env: Surroundings, targets: seq<Target>, request: CanonicalRequest,
                             ops: Operations<seq<Item>>, overallTimeout: nat,
                             ghost b: Budget)
    returns (result: Result<Selected, RouteExhausted>, attempts: seq<AttemptRecord>)
    requires b.oracle == env.oracle && b.overall == SaturatingAdd(env.oracle.clock(env.clockReads), overallTimeout)
    modifies env
    ensures var run := StreamRoute(b, targets, request, ops, old(env.clockReads) + 1, old(env.cancelReads));
            result == run.result && attempts == run.attempts
  {
    var now := env.Now();
    var overallDeadline := SaturatingAdd(now, overallTimeout);
    ghost var total := StreamRoute(b, targets, request, ops, env.clockReads, env.cancelReads);
    ghost var trials: seq<Trial<Selected>> := [];
    attempts := [];
    for i := 0 to |targets|
      invariant Underway(total, attempts, trials, RouteFrom(targets, Streaming(b, targets, request, ops), i, env.clockReads, env.cancelReads))
    {
      ghost var t, c := env.clockReads, env.cancelReads;
      var trial := StreamTarget(env, targets[i], request, ops(i), overallDeadline, b);
      StreamingIs(b, targets, request, ops, i, t, c);
      TargetTried(targets, Streaming(b, targets, request, ops), i, t, c, total, attempts, trials, trial);
      match trial.verdict {
        case Won(value) =>
          return Ok(value), attempts + [Record(targets, i, Succeeded)];
        case Lost(kind) =>
          attempts, trials := attempts + [Record(targets, i, Failed(kind))], trials + [trial];
        case Expired =>
          return Err(RouteExhausted(true, false)), attempts;
        case Gone(recorded) =>
          return Err(RouteExhausted(false, true)), attempts + if recorded then [Record(targets, i, Abandoned)] else [];
      }
    }
    result := Err(RouteExhausted(false, false));
  }
}
