# Retry episodes and recursive dictionary merge, modelled in Dafny

This project models two behaviours of the gax-python RPC client library.
Both are pinned down by the library's unit tests.

1. **The retry wrapper (`retry.retryable`).** It wraps an operation with
   `RetryOptions(retry_codes, BackoffSettings(...))`. Each call of the wrapped
   operation is one *episode*:
   - It checks the deadline before every attempt. The deadline is the start
     time plus `total_timeout`, when timeout settings are present.
   - It hands each attempt the current per-attempt timeout, cut to the time
     left before the deadline.
   - It returns the first success.
   - It re-raises unchanged a failure that carries no status code.
   - It wraps a failure whose code is not retryable (the library's `GaxError`).
   - After a retryable failure it sleeps for the current delay, never past the
     deadline. Then it multiplies the delay and the timeout by their
     multipliers, each capped by its maximum.
   - Once the deadline has passed it raises a deadline error (the library's
     `RetryError`). The cause is the last retryable failure, or no cause if
     no attempt was made.
2. **`utils.merge_dicts`.** It merges nested maps from left to right. Keys
   from every side are kept. Two maps under the same key merge recursively.
   Any other value, lists included, is replaced by the right-hand one.

Modules:

- `Options` (`options.dfy`): the `Option` type.
- `Backoff` (`backoff.dfy`): `BackoffSettings`, rational multipliers, and the
  delay and timeout curves with their cap and monotonicity lemmas.
- `Classifier` (`classifier.dfy`): failures and their three-way
  classification.
- `Retry` (`retry.dfy`): the episode as a pure function `Retryable`. It is
  driven by a finite *script* of attempts. Each attempt has an outcome and a
  duration. The clock is a whole number of milliseconds threaded through the
  episode. The result is an `Episode`: an ending
  (`Returned | Foreign | Wrapped | DeadlineExceeded | ScriptExhausted`), the
  number of attempts made and the final clock.
- `RetryProperties` (`retry_properties.dfy`): general lemmas. They cover each
  kind of ending, the deadline, and upper and lower bounds on the attempt
  count.
- `RetryTests` (`retry_tests.dfy`): the five retry test scenarios, as lemmas
  with the scenarios' own settings and clocks.
- `MergeDicts` (`merge_dicts.dfy`) and `MergeDictsTests`
  (`merge_dicts_tests.dfy`): the value tree, the merge, its lemmas, and the
  five merge test scenarios.

The model follows the library's unit tests. Those tests either pass a value for
each of the four timeout fields (`initial_rpc_timeout`, `rpc_timeout_multiplier`,
`max_rpc_timeout`, `total_timeout`) or pass `None` for exactly those four
(tests/test_retry.py:67, :89, :114). The model therefore groups them into one
optional `TimeoutSettings`. Timeout settings present means a deadline and
per-attempt timeouts; absent means neither.

The wrapper is a pure function, so two episodes built from identical options,
scripts and start times are identical by construction.

## Model

| member | source | states |
|---|---|---|
| Classifier.Classify | tests/test_retry.py:98-148 | a failure with no status code is foreign; one with a code is retryable exactly when the code is in the retryable set, otherwise non-retryable; the code is kept |
| Backoff.Scale | tests/test_retry.py:166 | the scaled value is `x * num / den` rounded down: the largest `r` with `r * den <= x * num`; a multiplier of at least one never shrinks a delay or timeout, one of at most one never grows it |
| Backoff.Grow | tests/test_retry.py:166 | one growth step never exceeds the cap nor the scaled value, and is one of the two |
| Backoff.CurveAt | tests/test_retry.py:166 | the capped curve of delays and timeouts, grown by the multiplier at each step: every value after the first growth step is within the cap, and no value exceeds both the initial value and the cap |
| Backoff.CurveClosedForm | tests/test_retry.py:166 | with a whole-number multiplier `k` the curve is geometric: after `n > 0` steps it is `min(initial * k^n, cap)` |
| Backoff.CurveCapped | tests/test_retry.py:180-183 | after the first growth step (or from an initial value within the cap) the delay and timeout never exceed their maxima |
| Backoff.CurveMonotone | tests/test_retry.py:185-187 | with a non-shrinking multiplier and an initial value within the cap, the curve never decreases and never drops below its initial value |
| Backoff.CurveStaysAtCap | tests/test_retry.py:166 | once a non-shrinking curve reaches its cap it stays there |
| Retry.Deadline | tests/test_retry.py:77-95 | an episode has a deadline exactly when timeout settings are present, and it lies `total_timeout` after the start |
| Retry.Start | tests/test_retry.py:77-95 | an episode starts at the call's clock with no failure recorded, the first delay of the delay curve and the first timeout of the timeout curve |
| Retry.Handed | tests/test_retry.py:156-158 | an attempt is handed a timeout exactly when there is a deadline; it is the smaller of the current timeout and the time left |
| Retry.Sleep | tests/test_retry.py:153-161 | the sleep after a retryable failure is the current delay, cut to the time left before the deadline |
| Retry.Retried | tests/test_retry.py:153-166 | after a retryable failure the clock advances by at most the current delay and never past a deadline not yet passed; the grown delay and timeout stay within their caps (the timeout is unchanged without timeout settings); the failure is recorded as the last one |
| Retry.Run | tests/test_retry.py:152-178 | from any loop state: a deadline error only once the clock is at or past the deadline; an attempt is only made before the deadline; no attempt means the clock is unchanged; the clock never goes back |
| Retry.Resume | tests/test_retry.py:153-166 | after a retryable failure of attempt `i` the loop goes on, so at least `i + 1` attempts are made |
| Retry.RunConsistent | tests/test_retry.py:152-178 | from any loop state the episode is the one the script dictates: all earlier attempts failed retryably, and the ending is produced by the last attempt made |
| Retry.Retryable | tests/test_retry.py:171-178 | one call of the wrapped operation: the episode is consistent with the script, the clock never goes back, and a deadline error means timeout settings are present and the clock is at or past start + total timeout |
| RetryProperties.EventualSuccess | tests/test_retry.py:54-74 | without timeout settings, k-1 retryable failures then success with v return v after exactly k attempts |
| RetryProperties.PreExpiredDeadline | tests/test_retry.py:77-95 | a zero total timeout gives a deadline error with no cause, zero attempts, clock unchanged, for any operation |
| RetryProperties.NonRetryableWrapped | tests/test_retry.py:98-123 | a first failure whose code is not retryable is wrapped after exactly one attempt, whatever later attempts would do |
| RetryProperties.ForeignPassthrough | tests/test_retry.py:126-148 | a first failure with no status code is re-raised as the same failure after exactly one attempt |
| RetryProperties.DeadlineCause | tests/test_retry.py:171-175 | a deadline error has no cause exactly when no attempt was made; otherwise its cause is the last attempt's failure, a retryable one |
| RetryProperties.RetriedUntilDeadline | tests/test_retry.py:152-175 | when every scripted attempt fails retryably and the script holds more attempts than fit before the deadline, the call ends in a deadline error whose cause is the last retryable failure |
| RetryProperties.RetriedStep | tests/test_retry.py:153-166 | unfolding lemma for `Run`: a retryable failure before the deadline leaves the episode's attempts and clock to the loop from the retried state, whose delay and timeout are one step further along their curves |
| RetryProperties.FinalStep | tests/test_retry.py:98-148 | unfolding lemma for `Run`: an attempt before the deadline that does not fail retryably is the last one, and the episode ends when it does |
| RetryProperties.RunLowerBound | tests/test_retry.py:180-183 | loop form of the lower bound: elapsed time is at most the first step plus one capped step per further attempt |
| RetryProperties.RunUpperBound | tests/test_retry.py:185-187 | loop form of the upper bound: every attempt but the last is followed by a full delay (and at least `least` of attempt time) before the deadline |
| RetryProperties.RunWithinDeadline | tests/test_retry.py:177-178 | loop form: attempts that run until their timeout never carry the clock past the deadline |
| RetryProperties.AttemptsLowerSteps | tests/test_retry.py:180-183 | a deadline error comes after at least one attempt, and the total timeout is covered by the first step plus one capped step per further attempt |
| RetryProperties.AttemptsLowerBound | tests/test_retry.py:180-183 | a deadline error comes after at least one attempt and total timeout <= initial delay + initial timeout + (attempts - 1) * (max delay + max timeout) |
| RetryProperties.AttemptsUpperSteps | tests/test_retry.py:185-187 | whatever the ending, in an episode with at least one attempt every attempt but the last is followed by at least the initial delay plus `least`, all before the deadline |
| RetryProperties.AttemptsUpperBound | tests/test_retry.py:185-187 | with non-shrinking delays, (attempts - 1) * (initial delay + least) < total timeout, where `least` bounds every attempt's own duration from below |
| RetryProperties.DeadlineReachedExactly | tests/test_retry.py:177-178 | with attempts that run until their timeout, the clock never passes the deadline, so a deadline error ends exactly at start + total timeout |
| RetryTests.RetryableWithoutTimeout | tests/test_retry.py:54-74 | two retryable failures then 1729: returns 1729 after 3 attempts |
| RetryTests.RetryableWithTimeout | tests/test_retry.py:77-95 | all-zero settings at clock 1: deadline error, 0 attempts |
| RetryTests.RetryableWhenNoCodes | tests/test_retry.py:98-123 | empty retryable set: the coded failure is wrapped after 1 attempt |
| RetryTests.RetryableAbortsOnUnexpectedException | tests/test_retry.py:126-148 | a failure without status code comes back unchanged after 1 attempt |
| RetryTests.RetryableExponentialBackoff | tests/test_retry.py:150-187 | settings (3, 2, 24, 5, 2, 80, 2500), always failing: deadline error caused by the retryable failure, clock >= 2500, 2500/(24+80) < attempts < 2500/3 |
| RetryTests.ExponentialBackoffCurves | tests/test_retry.py:166 | with settings (3, 2, 24, 5, 2, 80, 2500) the delays are 3, 6, 12, 24, 24 ms and the timeouts 5, 10, 20, 40, 80, 80 ms |
| MergeDicts.Merge | tests/utils/test_merge_dicts.py:42-80 | the merge keeps the union of the keys; one-sided keys keep their value; on shared keys two maps merge recursively and anything else (lists included) takes the right-hand value |
| MergeDicts.MergeAll | tests/utils/test_merge_dicts.py:51-61 | the left fold of any number of maps: no map gives the empty map, every key of every map is kept, and non-map values of the last map win |
| MergeDicts.MergeSingle | tests/utils/test_merge_dicts.py:38-40 | merging a single map gives that map |
| MergeDicts.MergeFlat | tests/utils/test_merge_dicts.py:42-61 | when the right-hand map holds no nested maps, merging is plain map update |
| MergeDicts.MergeSharedDict | tests/utils/test_merge_dicts.py:72-80 | merging in a one-key map whose value meets a map under the same key replaces that value by the recursive merge and leaves every other key alone |
| MergeDicts.MergeIdempotent | tests/utils/test_merge_dicts.py:72-80 | merging a map with itself changes nothing at any depth |
| MergeDicts.MergeRightAbsorbs | tests/utils/test_merge_dicts.py:42-80 | merging the right-hand map in a second time changes nothing |
| MergeDicts.MergeAllKeys | tests/utils/test_merge_dicts.py:51-61 | the keys of a multi-way merge are the keys of all merged maps |
| MergeDicts.MergeAllLastWins | tests/utils/test_merge_dicts.py:51-61 | under a key whose last holder stores a non-map value, the multi-way merge has exactly that value |
| MergeDicts.MergeAllAbsent | tests/utils/test_merge_dicts.py:51-61 | a key no merged map holds is absent from the merge |
| MergeDicts.MergeNotAssociative | tests/utils/test_merge_dicts.py:51-61 | the two-way merge is not associative, so the left-to-right fold order matters |
| MergeDictsTests.MergeAllThree | tests/utils/test_merge_dicts.py:51-61 | folding three maps merges the first two, then the third |
| MergeDictsTests.SingleDict | tests/utils/test_merge_dicts.py:38-40 | the single-map scenario merges to itself |
| MergeDictsTests.TwoDictsPrimitives | tests/utils/test_merge_dicts.py:42-49 | the two-map scenario gives `{baz: bar, foo: 3, spam: 42}` |
| MergeDictsTests.ThreeDictsPrimitives | tests/utils/test_merge_dicts.py:51-61 | the three-map scenario gives the expected five keys, last holder winning |
| MergeDictsTests.ListsAreAtoms | tests/utils/test_merge_dicts.py:63-70 | the right-hand list replaces the left-hand one |
| MergeDictsTests.NestedDicts | tests/utils/test_merge_dicts.py:72-80 | nested maps merge at two levels, keeping keys from both sides |

## Left out

- Real time and `time.sleep`: the clock is an integer threaded through the
  episode. The tests' clock mocking and call counting become the `clock` and
  `attempts` fields of the result.
- Seconds versus milliseconds: every time is a whole number of milliseconds.
  Scaling by a multiplier rounds down. The library computes in floating point.
- Backoff.CurveAt: every growth step rounds down, so with a fractional
  multiplier the rounding error compounds. A value below `den / (num - den)`
  ms never grows at all: 3 ms grown by 13/10 stays 3 ms
  (`Backoff.FractionalCurveStalls`). The floating-point curve of the library
  would give 3, 3.9, 5.07, and so on. With a whole-number multiplier, as in
  the tests, the curve is exactly geometric (`Backoff.CurveClosedForm`).
- Random jitter in the sleep: the sleep is the current delay, cut to the
  deadline.
- Timeout fields set independently of each other: the four timeout fields are
  either all present or all absent.
- Extra arguments passed through to the operation: only the per-attempt
  timeout it is handed matters.
- The concrete exception classes: a failure is a status code option plus a
  message. Status codes are any type with equality.
- Retrying forever without a deadline: the operation is a finite script. An
  episode whose script runs out while it would keep retrying ends in
  `ScriptExhausted`.
- Copying and aliasing in `merge_dicts`: values are immutable. `merge_dicts`
  with no argument gives the empty map. Atoms are strings and integers.
- RetryProperties.AttemptsUpperBound: states `(attempts - 1) * (initial delay + least) < total timeout`.
  That is one step weaker than the test's `attempts < total / initial delay`.
  The general episode may end with a sleep cut short by the deadline. The
  test's strict form is proved only for its own scenario, in
  `RetryTests.RetryableExponentialBackoff`.
- RetryProperties.AttemptsLowerBound: states `total <= first step + (attempts - 1) * (caps)`.
  The strict `attempts > total / (caps)` of the test follows from it when
  the first step is shorter than the caps' sum. It is proved for the test's
  own scenario in `RetryTests.RetryableExponentialBackoff`.
