/**
 One retry episode of a wrapped call.

 The wrapped call runs the operation repeatedly. Before each attempt it checks
 the deadline (start time plus the total timeout, when timeout settings are
 present); it hands each attempt the current per-attempt timeout, cut to the
 time left before the deadline; it returns the first success, re-raises a
 failure that exposes no status code, wraps a failure whose code is not
 retryable, and after a retryable failure sleeps for the current delay (never
 past the deadline) and grows both the delay and the timeout along their
 curves. When the deadline has passed it raises a deadline error whose cause is
 the last retryable failure, or no cause if no attempt was made.

 The operation is a finite script of attempts, the clock an integer number of
 milliseconds threaded through the episode.
 */
module Retry {
  import opened Options
  import opened Backoff
  import Classifier

  type Failure<C> = Classifier.Failure<C>

  /** How long one attempt runs before it returns or fails. */
  datatype Duration =
    | Fixed(ms: nat)              // a fixed time, whatever timeout it was handed
    | UntilTimeout(untimed: nat)  // until the timeout it was handed expires; `untimed` ms when handed none

  /** What one attempt of the operation produces. */
  datatype Outcome<C, V> = Ok(value: V) | Fail(failure: Failure<C>)

  datatype Attempt<C, V> = Attempt(outcome: Outcome<C, V>, duration: Duration)

  /** `RetryOptions(retry_codes, backoff_settings)`; only membership in the codes matters. */
  datatype RetryOptions<C> = RetryOptions(retryCodes: set<C>, backoff: BackoffSettings)

  /** How an episode ends. `ScriptExhausted` means the finite script ran out while
      the loop would have gone on retrying. */
  datatype Ending<C, V> =
    | Returned(value: V)
    | Foreign(failure: Failure<C>)
    | Wrapped(original: Failure<C>)
    | DeadlineExceeded(cause: Option<Failure<C>>)
    | ScriptExhausted

  /** The ending, the number of attempts made and the clock when the episode ended. */
  datatype Episode<C, V> = Episode(ending: Ending<C, V>, attempts: nat, clock: nat)

  /** State carried from one attempt to the next: the clock, the current delay,
      the current per-attempt timeout (meaningful only with timeout settings) and
      the last retryable failure. */
  datatype Loop<C> = Loop(clock: nat, delay: nat, timeout: nat, last: Option<Failure<C>>)

  /** The deadline of an episode that starts at `start`, if any. */
  function Deadline(b: BackoffSettings, start: nat): (r: Option<nat>)
    ensures r.Some? <==> b.timeouts.Some?
    ensures r.Some? ==> start <= r.value && r.value - start == b.timeouts.value.totalTimeout
  {
    if b.timeouts.Some? then Some(start + b.timeouts.value.totalTimeout) else None
  }

  /** Milliseconds left before `deadline` at `clock`; zero once it has passed. */
  function Remaining(deadline: nat, clock: nat): nat
  {
    if clock < deadline then deadline - clock else 0
  }

  /** The timeout handed to an attempt: the current timeout, cut to the time left. */
  function Handed(timeout: nat, deadline: Option<nat>, clock: nat): (h: Option<nat>)
    ensures h.Some? <==> deadline.Some?
    ensures h.Some? ==> h.value <= timeout && h.value <= Remaining(deadline.value, clock)
    ensures h.Some? ==> h.value == timeout || h.value == Remaining(deadline.value, clock)
  {
    match deadline
    case None => None
    case Some(d) => Some(Min(timeout, Remaining(d, clock)))
  }

  /** Milliseconds an attempt with `duration` takes when handed `handed`. */
  function Spend(duration: Duration, handed: Option<nat>): nat
  {
    match duration
    case Fixed(ms) => ms
    case UntilTimeout(untimed) => if handed.Some? then handed.value else untimed
  }

  /** The time slept after a retryable failure: the delay, cut to the time left. */
  function Sleep(delay: nat, deadline: Option<nat>, clock: nat): (r: nat)
    ensures r <= delay
    ensures deadline.Some? ==> r <= Remaining(deadline.value, clock)
    ensures r == delay || (deadline.Some? && r == Remaining(deadline.value, clock))
  {
    match deadline
    case None => delay
    case Some(d) => Min(delay, Remaining(d, clock))
  }

  /** The per-attempt timeout after one more retryable failure. */
  function NextTimeout(b: BackoffSettings, timeout: nat): nat
  {
    match b.timeouts
    case None => timeout
    case Some(t) => Grow(timeout, t.timeoutMult, t.maxTimeout)
  }

  /** The clock when an attempt with `duration`, started in state `s`, returns or fails. */
  function AttemptEnd<C>(duration: Duration, deadline: Option<nat>, s: Loop<C>): nat
  {
    s.clock + Spend(duration, Handed(s.timeout, deadline, s.clock))
  }

  /** The state after the retryable failure `f` of an attempt that ended at
      `clock`: sleep, then grow the delay and the timeout. */
  function Retried<C>(b: BackoffSettings, deadline: Option<nat>, s: Loop<C>, clock: nat, f: Failure<C>): (r: Loop<C>)
    ensures clock <= r.clock <= clock + s.delay
    ensures deadline.Some? && clock <= deadline.value ==> r.clock <= deadline.value
    ensures r.delay <= b.maxDelay
    ensures b.timeouts.Some? ==> r.timeout <= b.timeouts.value.maxTimeout
    ensures b.timeouts.None? ==> r.timeout == s.timeout
    ensures r.last == Some(f)
  {
    Loop(clock + Sleep(s.delay, deadline, clock),
         Grow(s.delay, b.delayMult, b.maxDelay),
         NextTimeout(b, s.timeout),
         Some(f))
  }

  /** The first `n` attempts of `script` all failed with a retryable code. */
  ghost predicate AllRetried<C, V>(retryCodes: set<C>, script: seq<Attempt<C, V>>, n: nat)
  {
    n <= |script| &&
    forall j :: 0 <= j < n ==>
      script[j].outcome.Fail? && Classifier.IsRetryable(script[j].outcome.failure, retryCodes)
  }

  /** The failure of attempt `n` (1-based), if there is one. */
  function LastCause<C, V>(script: seq<Attempt<C, V>>, n: nat): Option<Failure<C>>
  {
    if 0 < n <= |script| && script[n - 1].outcome.Fail? then Some(script[n - 1].outcome.failure)
    else None
  }

  /** The episode `e` is the one the script dictates: every attempt but the last
      one made failed retryably, and the ending is what the last attempt made
      produced (or, for a deadline error, names the last failure as its cause). */
  ghost predicate Consistent<C, V>(retryCodes: set<C>, script: seq<Attempt<C, V>>, e: Episode<C, V>)
  {
    var n := e.attempts;
    n <= |script| &&
    match e.ending
    case Returned(v) =>
      0 < n && AllRetried(retryCodes, script, n - 1) && script[n - 1].outcome == Ok(v)
    case Foreign(f) =>
      0 < n && AllRetried(retryCodes, script, n - 1) && script[n - 1].outcome == Fail(f)
      && f.code.None?
    case Wrapped(f) =>
      0 < n && AllRetried(retryCodes, script, n - 1) && script[n - 1].outcome == Fail(f)
      && f.code.Some? && f.code.value !in retryCodes
    case DeadlineExceeded(cause) =>
      AllRetried(retryCodes, script, n) && cause == LastCause(script, n)
    case ScriptExhausted =>
      n == |script| && AllRetried(retryCodes, script, n)
  }

  /** The retry loop from attempt `i` (0-based) on, in state `s`. */
  function Run<C(==), V>(opts: RetryOptions<C>, script: seq<Attempt<C, V>>, deadline: Option<nat>,
                         i: nat, s: Loop<C>): (e: Episode<C, V>)
    requires i <= |script|
    requires AllRetried(opts.retryCodes, script, i)
    requires s.last == LastCause(script, i)
    decreases |script| - i, 1
    ensures i <= e.attempts <= |script| && s.clock <= e.clock
    ensures e.attempts == i ==> e.clock == s.clock
    ensures i < e.attempts ==> deadline.None? || s.clock < deadline.value
    ensures e.ending.DeadlineExceeded? ==> deadline.Some? && deadline.value <= e.clock
  {
    if deadline.Some? && deadline.value <= s.clock then
      Episode(DeadlineExceeded(s.last), i, s.clock)
    else if i == |script| then
      Episode(ScriptExhausted, i, s.clock)
    else
      var t := AttemptEnd(script[i].duration, deadline, s);
      match script[i].outcome
      case Ok(v) => Episode(Returned(v), i + 1, t)
      case Fail(f) =>
        match Classifier.Classify(f, opts.retryCodes)
        case Foreign => Episode(Foreign(f), i + 1, t)
        case NonRetryable(_) => Episode(Wrapped(f), i + 1, t)
        case Retryable(_) => Resume(opts, script, deadline, i, s, t, f)
  }

  /** The loop after attempt `i`, started in state `s`, failed retryably with `f` at `clock`. */
  function Resume<C(==), V>(opts: RetryOptions<C>, script: seq<Attempt<C, V>>, deadline: Option<nat>,
                            i: nat, s: Loop<C>, clock: nat, f: Failure<C>): (e: Episode<C, V>)
    requires i < |script|
    requires AllRetried(opts.retryCodes, script, i + 1)
    requires script[i].outcome == Fail(f)
    decreases |script| - i, 0
    ensures i + 1 <= e.attempts <= |script|
  {
    Run(opts, script, deadline, i + 1, Retried(opts.backoff, deadline, s, clock, f))
  }

  /** From any loop state the episode is the one the script dictates. */
  lemma {:induction false} RunConsistent<C, V>(opts: RetryOptions<C>, script: seq<Attempt<C, V>>,
                                                deadline: Option<nat>, i: nat, s: Loop<C>)
    requires i <= |script|
    requires AllRetried(opts.retryCodes, script, i)
    requires s.last == LastCause(script, i)
    decreases |script| - i
    ensures Consistent(opts.retryCodes, script, Run(opts, script, deadline, i, s))
  {
    if deadline.Some? && deadline.value <= s.clock {
    } else if i < |script| && script[i].outcome.Fail?
              && Classifier.IsRetryable(script[i].outcome.failure, opts.retryCodes) {
      var t := AttemptEnd(script[i].duration, deadline, s);
      var next := Retried(opts.backoff, deadline, s, t, script[i].outcome.failure);
      assert AllRetried(opts.retryCodes, script, i + 1);
      RunConsistent(opts, script, deadline, i + 1, next);
    }
  }

  /** The state before the first attempt of an episode starting at `now`. */
  function Start<C>(b: BackoffSettings, now: nat): (r: Loop<C>)
    ensures r.clock == now && r.last.None?
    ensures r.delay == DelayAt(b, 0)
    ensures b.timeouts.Some? ==> r.timeout == TimeoutAt(b.timeouts.value, 0)
  {
    Loop(now, b.initialDelay, if b.timeouts.Some? then b.timeouts.value.initialTimeout else 0, None)
  }

  /** One call of the wrapped operation, started at time `now`. */
  function Retryable<C(==), V>(opts: RetryOptions<C>, script: seq<Attempt<C, V>>, now: nat): (e: Episode<C, V>)
    ensures Consistent(opts.retryCodes, script, e)
    ensures now <= e.clock
    ensures e.attempts == 0 ==> e.clock == now
    ensures e.ending.DeadlineExceeded? ==>
              opts.backoff.timeouts.Some? && now + opts.backoff.timeouts.value.totalTimeout <= e.clock
  {
    RunConsistent(opts, script, Deadline(opts.backoff, now), 0, Start(opts.backoff, now));
    Run(opts, script, Deadline(opts.backoff, now), 0, Start(opts.backoff, now))
  }
}
