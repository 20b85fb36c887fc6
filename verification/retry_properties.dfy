/**
 Properties of a retry episode: how each kind of failure ends it, that a
 deadline error comes only once the deadline has passed, and bounds on the
 number of attempts that follow from the delay and timeout curves.
 */
module RetryProperties {
  import opened Options
  import opened Backoff
  import opened Retry
  import Classifier

  function Max(a: nat, b: nat): nat
  {
    if a <= b then b else a
  }

  /** An attempt with this duration runs no longer than `limit` when it ignores its timeout. */
  predicate AtMost(duration: Duration, limit: nat)
  {
    duration.Fixed? ==> duration.ms <= limit
  }

  /** An attempt with this duration runs at least `least` when it ignores its timeout. */
  predicate AtLeast(duration: Duration, least: nat)
  {
    duration.Fixed? ==> duration.ms >= least
  }

  /** Every per-attempt timeout of `b` is at least `least`. */
  predicate TimeoutFloor(b: BackoffSettings, least: nat)
  {
    least == 0 ||
    (b.timeouts.Some? && least <= b.timeouts.value.initialTimeout <= b.timeouts.value.maxTimeout
     && NonShrinking(b.timeouts.value.timeoutMult))
  }

  /** `n` steps of `x` milliseconds each: `n * x`, kept linear for the solver. */
  function Steps(n: nat, x: nat): nat
  {
    if n == 0 then 0 else Steps(n - 1, x) + x
  }

  lemma {:induction false} StepsIsProduct(n: nat, x: nat)
    ensures Steps(n, x) == n * x
  {
    if n > 0 {
      StepsIsProduct(n - 1, x);
    }
  }

  /** Without timeout settings an operation that fails retryably and then
      succeeds is retried until it succeeds: the call returns its value after
      exactly one attempt per scripted outcome. */
  lemma EventualSuccess<C, V>(opts: RetryOptions<C>, script: seq<Attempt<C, V>>, v: V, now: nat)
    requires opts.backoff.timeouts.None?
    requires 0 < |script| && script[|script| - 1].outcome == Ok(v)
    requires forall j :: 0 <= j < |script| - 1 ==>
               script[j].outcome.Fail? && Classifier.IsRetryable(script[j].outcome.failure, opts.retryCodes)
    ensures Retryable(opts, script, now).ending == Returned(v)
    ensures Retryable(opts, script, now).attempts == |script|
  {
  }

  /** A total timeout of zero means the deadline has passed at the start of the
      episode: the call raises a deadline error with no cause and never runs
      the operation. */
  lemma PreExpiredDeadline<C, V>(opts: RetryOptions<C>, script: seq<Attempt<C, V>>, now: nat)
    requires opts.backoff.timeouts.Some? && opts.backoff.timeouts.value.totalTimeout == 0
    ensures Retryable(opts, script, now) == Episode(DeadlineExceeded(None), 0, now)
  {
  }

  /** A first failure whose code is not retryable is wrapped and not retried,
      whatever later attempts would have produced. */
  lemma NonRetryableWrapped<C, V>(opts: RetryOptions<C>, script: seq<Attempt<C, V>>, now: nat)
    requires 0 < |script| && script[0].outcome.Fail?
    requires script[0].outcome.failure.code.Some?
    requires script[0].outcome.failure.code.value !in opts.retryCodes
    requires opts.backoff.timeouts.None? || 0 < opts.backoff.timeouts.value.totalTimeout
    ensures Retryable(opts, script, now).ending == Wrapped(script[0].outcome.failure)
    ensures Retryable(opts, script, now).attempts == 1
  {
  }

  /** A first failure that exposes no status code is re-raised as it is, after
      one attempt, whatever the retryable codes are. */
  lemma ForeignPassthrough<C, V>(opts: RetryOptions<C>, script: seq<Attempt<C, V>>, now: nat)
    requires 0 < |script| && script[0].outcome.Fail? && script[0].outcome.failure.code.None?
    requires opts.backoff.timeouts.None? || 0 < opts.backoff.timeouts.value.totalTimeout
    ensures Retryable(opts, script, now).ending == Foreign(script[0].outcome.failure)
    ensures Retryable(opts, script, now).attempts == 1
  {
  }

  /** A deadline error names the failure of the last attempt made, a retryable
      one, as its cause; it has no cause exactly when no attempt was made. */
  lemma DeadlineCause<C, V>(opts: RetryOptions<C>, script: seq<Attempt<C, V>>, now: nat)
    ensures var e := Retryable(opts, script, now);
            e.ending.DeadlineExceeded? ==>
              (e.ending.cause.None? <==> e.attempts == 0) &&
              (e.ending.cause.Some? ==>
                 script[e.attempts - 1].outcome == Fail(e.ending.cause.value) &&
                 Classifier.IsRetryable(e.ending.cause.value, opts.retryCodes))
  {
    var e := Retryable(opts, script, now);
    if e.ending.DeadlineExceeded? && e.attempts > 0 {
      assert script[e.attempts - 1].outcome.Fail?;
    }
  }

  /** A retryable failure before the deadline: the loop goes on from the retried
      state, which meets the loop's own preconditions and is one step further
      along the delay and timeout curves. */
  lemma RetriedStep<C, V>(opts: RetryOptions<C>, script: seq<Attempt<C, V>>, deadline: Option<nat>,
                          i: nat, s: Loop<C>)
    requires i < |script| && AllRetried(opts.retryCodes, script, i) && s.last == LastCause(script, i)
    requires deadline.None? || s.clock < deadline.value
    requires script[i].outcome.Fail? && Classifier.IsRetryable(script[i].outcome.failure, opts.retryCodes)
    ensures var b := opts.backoff;
            var next := Retried(b, deadline, s, AttemptEnd(script[i].duration, deadline, s), script[i].outcome.failure);
            && AllRetried(opts.retryCodes, script, i + 1)
            && next.last == LastCause(script, i + 1)
            && Run(opts, script, deadline, i, s).attempts == Run(opts, script, deadline, i + 1, next).attempts
            && Run(opts, script, deadline, i, s).clock == Run(opts, script, deadline, i + 1, next).clock
            && (s.delay == DelayAt(b, i) ==> next.delay == DelayAt(b, i + 1))
            && (b.timeouts.Some? && s.timeout == TimeoutAt(b.timeouts.value, i) ==>
                  next.timeout == TimeoutAt(b.timeouts.value, i + 1))
  {
  }

  /** An attempt before the deadline that does not fail retryably is the last
      one: the episode ends when it returns or fails. */
  lemma FinalStep<C, V>(opts: RetryOptions<C>, script: seq<Attempt<C, V>>, deadline: Option<nat>,
                        i: nat, s: Loop<C>)
    requires i < |script| && AllRetried(opts.retryCodes, script, i) && s.last == LastCause(script, i)
    requires deadline.None? || s.clock < deadline.value
    requires !(script[i].outcome.Fail? && Classifier.IsRetryable(script[i].outcome.failure, opts.retryCodes))
    ensures var e := Run(opts, script, deadline, i, s);
            e.attempts == i + 1 && e.clock == AttemptEnd(script[i].duration, deadline, s)
  {
  }

  /** One attempt takes at most the larger of the current and the initial timeout. */
  lemma AttemptCapped<C>(b: BackoffSettings, d: nat, i: nat, s: Loop<C>, duration: Duration)
    requires b.timeouts.Some?
    requires AtMost(duration, b.timeouts.value.initialTimeout)
    ensures AttemptEnd(duration, Some(d), s) <= s.clock + Max(s.timeout, b.timeouts.value.initialTimeout)
  {
  }

  /** One attempt and the sleep after it take at most the current delay plus the
      larger of the current and the initial timeout; afterwards the delay and
      the timeout are within their caps. */
  lemma CappedStep<C>(b: BackoffSettings, d: nat, i: nat, s: Loop<C>, duration: Duration, f: Failure<C>)
    requires b.timeouts.Some?
    requires b.timeouts.value.initialTimeout <= b.timeouts.value.maxTimeout
    requires s.delay == DelayAt(b, i) && s.timeout == TimeoutAt(b.timeouts.value, i)
    requires AtMost(duration, b.timeouts.value.initialTimeout)
    ensures var t := b.timeouts.value;
            var c := AttemptEnd(duration, Some(d), s);
            var next := Retried(b, Some(d), s, c, f);
            && next.clock <= s.clock + s.delay + Max(s.timeout, t.initialTimeout)
            && next.delay + Max(next.timeout, t.initialTimeout) <= b.maxDelay + t.maxTimeout
  {
    var t := b.timeouts.value;
    CurveCapped(b.initialDelay, b.delayMult, b.maxDelay, i + 1);
    CurveCapped(t.initialTimeout, t.timeoutMult, t.maxTimeout, i + 1);
  }

  /** Loop-level form of `AttemptsLowerBound`: the first step from `s` costs at
      most its delay plus its timeout, every later step at most the two caps. */
  lemma {:induction false} RunLowerBound<C, V>(opts: RetryOptions<C>, script: seq<Attempt<C, V>>,
                                                  d: nat, i: nat, s: Loop<C>)
    requires i <= |script| && AllRetried(opts.retryCodes, script, i) && s.last == LastCause(script, i)
    requires opts.backoff.timeouts.Some?
    requires opts.backoff.initialDelay <= opts.backoff.maxDelay
    requires opts.backoff.timeouts.value.initialTimeout <= opts.backoff.timeouts.value.maxTimeout
    requires s.delay == DelayAt(opts.backoff, i) && s.timeout == TimeoutAt(opts.backoff.timeouts.value, i)
    requires forall j :: i <= j < |script| ==> AtMost(script[j].duration, opts.backoff.timeouts.value.initialTimeout)
    decreases |script| - i, 1
    ensures var e := Run(opts, script, Some(d), i, s);
            var t := opts.backoff.timeouts.value;
            i < e.attempts ==>
              e.clock <= s.clock + s.delay + Max(s.timeout, t.initialTimeout)
                         + Steps(e.attempts - 1 - i, opts.backoff.maxDelay + t.maxTimeout)
  {
    if s.clock < d && i < |script| {
      var a := script[i];
      if !(a.outcome.Fail? && Classifier.IsRetryable(a.outcome.failure, opts.retryCodes)) {
        FinalStep(opts, script, Some(d), i, s);
        AttemptCapped(opts.backoff, d, i, s, a.duration);
      } else {
        RunLowerBoundRetried(opts, script, d, i, s);
      }
    }
  }

  /** `RunLowerBound` when attempt `i` fails retryably before the deadline. */
  lemma {:induction false} RunLowerBoundRetried<C, V>(opts: RetryOptions<C>, script: seq<Attempt<C, V>>,
                                                         d: nat, i: nat, s: Loop<C>)
    requires i <= |script| && AllRetried(opts.retryCodes, script, i) && s.last == LastCause(script, i)
    requires opts.backoff.timeouts.Some?
    requires opts.backoff.initialDelay <= opts.backoff.maxDelay
    requires opts.backoff.timeouts.value.initialTimeout <= opts.backoff.timeouts.value.maxTimeout
    requires s.delay == DelayAt(opts.backoff, i) && s.timeout == TimeoutAt(opts.backoff.timeouts.value, i)
    requires forall j :: i <= j < |script| ==> AtMost(script[j].duration, opts.backoff.timeouts.value.initialTimeout)
    requires s.clock < d && i < |script|
    requires script[i].outcome.Fail? && Classifier.IsRetryable(script[i].outcome.failure, opts.retryCodes)
    decreases |script| - i, 0
    ensures var e := Run(opts, script, Some(d), i, s);
            var t := opts.backoff.timeouts.value;
            i < e.attempts ==>
              e.clock <= s.clock + s.delay + Max(s.timeout, t.initialTimeout)
                         + Steps(e.attempts - 1 - i, opts.backoff.maxDelay + t.maxTimeout)
  {
    var a := script[i];
    var next := Retried(opts.backoff, Some(d), s, AttemptEnd(a.duration, Some(d), s), a.outcome.failure);
    RetriedStep(opts, script, Some(d), i, s);
    RunLowerBound(opts, script, d, i + 1, next);
    LowerRetried(opts.backoff, d, i, s, a.duration, a.outcome.failure,
                 Run(opts, script, Some(d), i, s), Run(opts, script, Some(d), i + 1, next));
  }

  /** The inductive step of `RunLowerBound`. The episode `e` from state `s` has
      the attempts and the final clock of the episode `e'` that goes on from
      the state after a retryable failure of the attempt started in `s`; if the
      bound holds for `e'`, it holds for `e`. */
  lemma LowerRetried<C, V>(b: BackoffSettings, d: nat, i: nat, s: Loop<C>, duration: Duration, f: Failure<C>,
                           e: Episode<C, V>, e': Episode<C, V>)
    requires b.timeouts.Some?
    requires b.timeouts.value.initialTimeout <= b.timeouts.value.maxTimeout
    requires s.delay == DelayAt(b, i) && s.timeout == TimeoutAt(b.timeouts.value, i)
    requires AtMost(duration, b.timeouts.value.initialTimeout)
    requires e.attempts == e'.attempts && e.clock == e'.clock
    requires var next := Retried(b, Some(d), s, AttemptEnd(duration, Some(d), s), f);
             i + 1 <= e'.attempts && (e'.attempts == i + 1 ==> e'.clock == next.clock)
    requires var next := Retried(b, Some(d), s, AttemptEnd(duration, Some(d), s), f);
             var t := b.timeouts.value;
             i + 1 < e'.attempts ==>
               e'.clock <= next.clock + next.delay + Max(next.timeout, t.initialTimeout)
                           + Steps(e'.attempts - 1 - (i + 1), b.maxDelay + t.maxTimeout)
    ensures var t := b.timeouts.value;
            i < e.attempts ==>
              e.clock <= s.clock + s.delay + Max(s.timeout, t.initialTimeout)
                         + Steps(e.attempts - 1 - i, b.maxDelay + t.maxTimeout)
  {
    var t := b.timeouts.value;
    var next := Retried(b, Some(d), s, AttemptEnd(duration, Some(d), s), f);
    CappedStep(b, d, i, s, duration, f);
    ChainStep(e'.clock, next.clock, s.clock + s.delay + Max(s.timeout, t.initialTimeout),
              next.delay + Max(next.timeout, t.initialTimeout), i, e'.attempts, b.maxDelay + t.maxTimeout);
  }

  /** Arithmetic of one step of `RunLowerBound`: attempt `i` ends by `first`;
      the attempts from `i + 1` on start with `rest <= x` and take one more `x`
      each after that. */
  lemma ChainStep(clock: nat, nextClock: nat, first: nat, rest: nat, i: nat, attempts: nat, x: nat)
    requires i + 1 <= attempts
    requires nextClock <= first && rest <= x
    requires attempts == i + 1 ==> clock == nextClock
    requires i + 1 < attempts ==> clock <= nextClock + rest + Steps(attempts - 1 - (i + 1), x)
    ensures clock <= first + Steps(attempts - 1 - i, x)
  {
  }

  /** A retried attempt after which the deadline has still not passed took its
      whole timeout (or at least `least`) and a full delay. */
  lemma FullStep<C>(b: BackoffSettings, d: nat, least: nat, i: nat, s: Loop<C>, duration: Duration,
                    f: Failure<C>)
    requires b.timeouts.Some?
    requires NonShrinking(b.delayMult) && b.initialDelay <= b.maxDelay
    requires TimeoutFloor(b, least)
    requires s.delay == DelayAt(b, i) && s.timeout == TimeoutAt(b.timeouts.value, i)
    requires AtLeast(duration, least)
    requires s.clock < d
    requires Retried(b, Some(d), s, AttemptEnd(duration, Some(d), s), f).clock < d
    ensures s.clock + b.initialDelay + least <= Retried(b, Some(d), s, AttemptEnd(duration, Some(d), s), f).clock
  {
    var t := b.timeouts.value;
    var c := AttemptEnd(duration, Some(d), s);
    CurveMonotone(b.initialDelay, b.delayMult, b.maxDelay, i);
    if least > 0 {
      CurveMonotone(t.initialTimeout, t.timeoutMult, t.maxTimeout, i);
    }
  }

  /** Loop-level form of `AttemptsUpperBound`: every step from `s` that is
      followed by another attempt took at least the initial delay plus `least`. */
  lemma {:induction false} RunUpperBound<C, V>(opts: RetryOptions<C>, script: seq<Attempt<C, V>>,
                                                  d: nat, least: nat, i: nat, s: Loop<C>)
    requires i <= |script| && AllRetried(opts.retryCodes, script, i) && s.last == LastCause(script, i)
    requires opts.backoff.timeouts.Some?
    requires NonShrinking(opts.backoff.delayMult) && opts.backoff.initialDelay <= opts.backoff.maxDelay
    requires TimeoutFloor(opts.backoff, least)
    requires s.delay == DelayAt(opts.backoff, i) && s.timeout == TimeoutAt(opts.backoff.timeouts.value, i)
    requires forall j :: i <= j < |script| ==> AtLeast(script[j].duration, least)
    decreases |script| - i
    ensures var e := Run(opts, script, Some(d), i, s);
            i < e.attempts ==> s.clock + Steps(e.attempts - 1 - i, opts.backoff.initialDelay + least) < d
  {
    var b := opts.backoff;
    var t := b.timeouts.value;
    var e := Run(opts, script, Some(d), i, s);
    if d <= s.clock || i == |script| {
      return;
    }
    var a := script[i];
    var c := AttemptEnd(a.duration, Some(d), s);
    if a.outcome.Fail? && Classifier.IsRetryable(a.outcome.failure, opts.retryCodes) {
      var next := Retried(b, Some(d), s, c, a.outcome.failure);
      RetriedStep(opts, script, Some(d), i, s);
      RunUpperBound(opts, script, d, least, i + 1, next);
      if i + 1 < e.attempts {
        FullStep(b, d, least, i, s, a.duration, a.outcome.failure);
      }
    }
  }

  /** Loop-level form of `DeadlineReachedExactly`: attempts that run until their
      timeout expires never carry the clock past the deadline. */
  lemma {:induction false} RunWithinDeadline<C, V>(opts: RetryOptions<C>, script: seq<Attempt<C, V>>,
                                                      d: nat, i: nat, s: Loop<C>)
    requires i <= |script| && AllRetried(opts.retryCodes, script, i) && s.last == LastCause(script, i)
    requires s.clock <= d
    requires forall j :: i <= j < |script| ==> script[j].duration.UntilTimeout?
    decreases |script| - i
    ensures Run(opts, script, Some(d), i, s).clock <= d
  {
    var b := opts.backoff;
    if d <= s.clock || i == |script| {
      return;
    }
    var a := script[i];
    var c := AttemptEnd(a.duration, Some(d), s);
    if a.outcome.Fail? && Classifier.IsRetryable(a.outcome.failure, opts.retryCodes) {
      var next := Retried(b, Some(d), s, c, a.outcome.failure);
      RetriedStep(opts, script, Some(d), i, s);
      RunWithinDeadline(opts, script, d, i + 1, next);
    }
  }

  /** Linear form of `AttemptsLowerBound`, with `Steps` in place of the product. */
  lemma AttemptsLowerSteps<C, V>(opts: RetryOptions<C>, script: seq<Attempt<C, V>>, now: nat)
    requires opts.backoff.timeouts.Some? && 0 < opts.backoff.timeouts.value.totalTimeout
    requires opts.backoff.initialDelay <= opts.backoff.maxDelay
    requires opts.backoff.timeouts.value.initialTimeout <= opts.backoff.timeouts.value.maxTimeout
    requires forall j :: 0 <= j < |script| ==> AtMost(script[j].duration, opts.backoff.timeouts.value.initialTimeout)
    ensures var e := Retryable(opts, script, now);
            var b := opts.backoff;
            var t := b.timeouts.value;
            e.ending.DeadlineExceeded? ==>
              0 < e.attempts &&
              t.totalTimeout <= b.initialDelay + t.initialTimeout + Steps(e.attempts - 1, b.maxDelay + t.maxTimeout)
  {
    var b := opts.backoff;
    var t := b.timeouts.value;
    var s0: Loop<C> := Start(b, now);
    var dl := Deadline(b, now);
    assert dl == Some(now + t.totalTimeout);
    RunLowerBound(opts, script, dl.value, 0, s0);
  }

  /** The number of attempts is large enough to fill the total timeout: when
      the delay and the timeout start within their caps and no attempt runs
      longer than the initial timeout, a deadline error comes after at least
      one attempt, and the total timeout is at most the first step (initial
      delay plus initial timeout) plus one full step (both caps) per further
      attempt. */
  lemma AttemptsLowerBound<C, V>(opts: RetryOptions<C>, script: seq<Attempt<C, V>>, now: nat)
    requires opts.backoff.timeouts.Some? && 0 < opts.backoff.timeouts.value.totalTimeout
    requires opts.backoff.initialDelay <= opts.backoff.maxDelay
    requires opts.backoff.timeouts.value.initialTimeout <= opts.backoff.timeouts.value.maxTimeout
    requires forall j :: 0 <= j < |script| ==> AtMost(script[j].duration, opts.backoff.timeouts.value.initialTimeout)
    ensures var e := Retryable(opts, script, now);
            var b := opts.backoff;
            var t := b.timeouts.value;
            e.ending.DeadlineExceeded? ==>
              0 < e.attempts &&
              t.totalTimeout <= b.initialDelay + t.initialTimeout + (e.attempts - 1) * (b.maxDelay + t.maxTimeout)
  {
    AttemptsLowerSteps(opts, script, now);
    var e := Retryable(opts, script, now);
    if 0 < e.attempts {
      StepsIsProduct(e.attempts - 1, opts.backoff.maxDelay + opts.backoff.timeouts.value.maxTimeout);
    }
  }

  /** Linear form of `AttemptsUpperBound`, with `Steps` in place of the product. */
  lemma AttemptsUpperSteps<C, V>(opts: RetryOptions<C>, script: seq<Attempt<C, V>>, now: nat, least: nat)
    requires opts.backoff.timeouts.Some?
    requires NonShrinking(opts.backoff.delayMult) && opts.backoff.initialDelay <= opts.backoff.maxDelay
    requires TimeoutFloor(opts.backoff, least)
    requires forall j :: 0 <= j < |script| ==> AtLeast(script[j].duration, least)
    ensures var e := Retryable(opts, script, now);
            0 < e.attempts ==>
              Steps(e.attempts - 1, opts.backoff.initialDelay + least) < opts.backoff.timeouts.value.totalTimeout
  {
    var b := opts.backoff;
    var t := b.timeouts.value;
    var s0: Loop<C> := Start(b, now);
    var dl := Deadline(b, now);
    assert dl == Some(now + t.totalTimeout);
    RunUpperBound(opts, script, dl.value, least, 0, s0);
  }

  /** The number of attempts is small enough: with delays that never shrink,
      every attempt but the last is followed by a full delay, and by `least`
      more when every attempt takes at least `least` (an attempt that runs until
      its timeout takes the timeout, itself at least `least`), all before the
      deadline. */
  lemma AttemptsUpperBound<C, V>(opts: RetryOptions<C>, script: seq<Attempt<C, V>>, now: nat, least: nat)
    requires opts.backoff.timeouts.Some?
    requires NonShrinking(opts.backoff.delayMult) && opts.backoff.initialDelay <= opts.backoff.maxDelay
    requires TimeoutFloor(opts.backoff, least)
    requires forall j :: 0 <= j < |script| ==> AtLeast(script[j].duration, least)
    ensures var e := Retryable(opts, script, now);
            0 < e.attempts ==>
              (e.attempts - 1) * (opts.backoff.initialDelay + least) < opts.backoff.timeouts.value.totalTimeout
  {
    AttemptsUpperSteps(opts, script, now, least);
    var e := Retryable(opts, script, now);
    if 0 < e.attempts {
      StepsIsProduct(e.attempts - 1, opts.backoff.initialDelay + least);
    }
  }

  /** With attempts that run until their timeout expires the episode never
      outlives its deadline, so a deadline error comes exactly at the deadline. */
  lemma DeadlineReachedExactly<C, V>(opts: RetryOptions<C>, script: seq<Attempt<C, V>>, now: nat)
    requires opts.backoff.timeouts.Some?
    requires forall j :: 0 <= j < |script| ==> script[j].duration.UntilTimeout?
    ensures var e := Retryable(opts, script, now);
            e.clock <= now + opts.backoff.timeouts.value.totalTimeout &&
            (e.ending.DeadlineExceeded? ==> e.clock == now + opts.backoff.timeouts.value.totalTimeout)
  {
    var b := opts.backoff;
    var t := b.timeouts.value;
    var s0: Loop<C> := Start(b, now);
    var dl := Deadline(b, now);
    assert dl == Some(now + t.totalTimeout);
    RunWithinDeadline(opts, script, dl.value, 0, s0);
  }

  /** An operation that keeps failing retryably under a deadline is retried until
      the deadline passes: when the script holds more attempts than fit before
      the deadline, the call raises a deadline error whose cause is the last
      retryable failure (none if no attempt was made). */
  lemma RetriedUntilDeadline<C, V>(opts: RetryOptions<C>, script: seq<Attempt<C, V>>, now: nat, least: nat)
    requires opts.backoff.timeouts.Some?
    requires NonShrinking(opts.backoff.delayMult) && opts.backoff.initialDelay <= opts.backoff.maxDelay
    requires TimeoutFloor(opts.backoff, least)
    requires forall j :: 0 <= j < |script| ==> AtLeast(script[j].duration, least)
    requires AllRetried(opts.retryCodes, script, |script|)
    requires opts.backoff.timeouts.value.totalTimeout <= (|script| - 1) * (opts.backoff.initialDelay + least)
    ensures var e := Retryable(opts, script, now);
            e.ending == DeadlineExceeded(LastCause(script, e.attempts))
  {
    var e := Retryable(opts, script, now);
    if |script| == 0 {
      PreExpiredDeadline(opts, script, now);
    } else {
      AttemptsUpperBound(opts, script, now, least);
      if 0 < e.attempts {
        assert script[e.attempts - 1].outcome.Fail?;
      }
    }
  }
}
