/**
 The unit-test scenarios of the retry wrapper, each stated as a lemma about
 `Retry.Retryable` with the same settings, status codes and clock the
 scenarios use (times in milliseconds).
 */
module RetryTests {
  import opened Options
  import opened Backoff
  import opened Retry
  import opened RetryProperties
  import Classifier

  /** Two distinct status codes, the only thing the scenarios need of them. */
  datatype FakeCode = FakeCode1 | FakeCode2

  const Zero := Multiplier(0, 1)
  const Double := Multiplier(2, 1)

  /** A failure carrying status code `c`. */
  function GrpcFailure(c: FakeCode): Failure<FakeCode>
  {
    Classifier.Failure(Some(c), "")
  }

  /** Two retryable failures, then success with 1729, without timeout settings:
      the call returns 1729 after three attempts. */
  lemma RetryableWithoutTimeout()
    ensures var opts := RetryOptions({FakeCode1}, BackoffSettings(0, Zero, 0, None));
            var exc := Attempt(Fail(GrpcFailure(FakeCode1)), Fixed(0));
            var e := Retryable(opts, [exc, exc, Attempt(Ok(1729), Fixed(0))], 0);
            e.ending == Returned(1729) && e.attempts == 3
  {
    var opts := RetryOptions({FakeCode1}, BackoffSettings(0, Zero, 0, None));
    var exc := Attempt(Fail(GrpcFailure(FakeCode1)), Fixed(0));
    EventualSuccess(opts, [exc, exc, Attempt(Ok(1729), Fixed(0))], 1729, 0);
  }

  /** All settings zero, so the total timeout is zero: the call raises a
      deadline error and the operation runs zero times. */
  lemma RetryableWithTimeout()
    ensures var opts := RetryOptions({FakeCode1}, BackoffSettings(0, Zero, 0, Some(TimeoutSettings(0, Zero, 0, 0))));
            var script := [Attempt(Fail(GrpcFailure(FakeCode1)), Fixed(0)), Attempt(Ok(1729), Fixed(0))];
            var e := Retryable(opts, script, 1);
            e.ending.DeadlineExceeded? && e.attempts == 0
  {
    var opts := RetryOptions({FakeCode1}, BackoffSettings(0, Zero, 0, Some(TimeoutSettings(0, Zero, 0, 0))));
    var script := [Attempt(Fail(GrpcFailure(FakeCode1)), Fixed(0)), Attempt(Ok(1729), Fixed(0))];
    PreExpiredDeadline(opts, script, 1);
  }

  /** No retryable codes: a status-coded failure is wrapped after one attempt,
      although the second attempt would have succeeded. */
  lemma RetryableWhenNoCodes()
    ensures var opts := RetryOptions({}, BackoffSettings(0, Zero, 0, Some(TimeoutSettings(0, Zero, 0, 1))));
            var script := [Attempt(Fail(GrpcFailure(FakeCode2)), Fixed(0)), Attempt(Ok(1729), Fixed(0))];
            var e := Retryable(opts, script, 0);
            e.ending == Wrapped(GrpcFailure(FakeCode2)) && e.attempts == 1
  {
    var opts := RetryOptions({}, BackoffSettings(0, Zero, 0, Some(TimeoutSettings(0, Zero, 0, 1))));
    var script := [Attempt(Fail(GrpcFailure(FakeCode2)), Fixed(0)), Attempt(Ok(1729), Fixed(0))];
    NonRetryableWrapped(opts, script, 0);
  }

  /** A failure without a status code is re-raised unchanged after one attempt. */
  lemma RetryableAbortsOnUnexpectedException()
    ensures var opts := RetryOptions({FakeCode1}, BackoffSettings(0, Zero, 0, Some(TimeoutSettings(0, Zero, 0, 1))));
            var custom := Classifier.Failure(None, "bogus");
            var script := [Attempt(Fail(custom), Fixed(0)), Attempt(Ok(1729), Fixed(0))];
            var e := Retryable(opts, script, 0);
            e.ending == Foreign(custom) && e.attempts == 1
  {
    var opts := RetryOptions({FakeCode1}, BackoffSettings(0, Zero, 0, Some(TimeoutSettings(0, Zero, 0, 1))));
    var custom := Classifier.Failure(None, "bogus");
    var script := [Attempt(Fail(custom), Fixed(0)), Attempt(Ok(1729), Fixed(0))];
    ForeignPassthrough(opts, script, 0);
  }

  /** The backoff scenario: `BackoffSettings(3, 2, 24, 5, 2, 80, 2500)` and an
      operation that always fails retryably after running until its timeout
      expires. */
  function BackoffOptions(): RetryOptions<FakeCode>
  {
    RetryOptions({FakeCode1}, BackoffSettings(3, Double, 24, Some(TimeoutSettings(5, Double, 80, 2500))))
  }

  /** The backoff scenario's curves double each step until capped: delays
      3, 6, 12, 24, 24 ms and timeouts 5, 10, 20, 40, 80, 80 ms. */
  lemma ExponentialBackoffCurves()
    ensures var b := BackoffOptions().backoff;
            [DelayAt(b, 0), DelayAt(b, 1), DelayAt(b, 2), DelayAt(b, 3), DelayAt(b, 4)] == [3, 6, 12, 24, 24]
    ensures var t := BackoffOptions().backoff.timeouts.value;
            [TimeoutAt(t, 0), TimeoutAt(t, 1), TimeoutAt(t, 2), TimeoutAt(t, 3), TimeoutAt(t, 4), TimeoutAt(t, 5)]
              == [5, 10, 20, 40, 80, 80]
  {
    CurveClosedForm(3, 2, 24, 1); CurveClosedForm(3, 2, 24, 2);
    CurveClosedForm(3, 2, 24, 3); CurveClosedForm(3, 2, 24, 4);
    CurveClosedForm(5, 2, 80, 1); CurveClosedForm(5, 2, 80, 2); CurveClosedForm(5, 2, 80, 3);
    CurveClosedForm(5, 2, 80, 4); CurveClosedForm(5, 2, 80, 5);
  }

  /** More attempts than the episode can make before its deadline. */
  function AlwaysFailing(): seq<Attempt<FakeCode, int>>
  {
    seq(400, _ => Attempt(Fail(GrpcFailure(FakeCode1)), UntilTimeout(0)))
  }

  /** The call raises a deadline error whose cause is the retryable failure; the
      clock has reached the total timeout; and the attempt count lies strictly
      between 2500 / (24 + 80) and 2500 / 3. */
  lemma RetryableExponentialBackoff()
    ensures var e := Retryable(BackoffOptions(), AlwaysFailing(), 0);
            && e.ending == DeadlineExceeded(Some(GrpcFailure(FakeCode1)))
            && 2500 <= e.clock
            && 2500 < e.attempts * (24 + 80)
            && e.attempts * 3 < 2500
  {
    var opts := BackoffOptions();
    var script := AlwaysFailing();
    var e := Retryable(opts, script, 0);
    AttemptsUpperBound(opts, script, 0, 5);
    AttemptsLowerBound(opts, script, 0);
    DeadlineReachedExactly(opts, script, 0);
    assert 0 < e.attempts;
    assert script[e.attempts - 1].outcome.failure == GrpcFailure(FakeCode1);
  }
}
