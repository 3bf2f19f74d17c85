/** `requestStyleAvatarWithRetry`: at most three attempts per style, a retry only after a
    failure whose message looks transient, and a wait of `attempt × 2500` ms before the
    next attempt. */
module AppRetry {
  import opened Text
  import opened AppClient

  const MaxAttempts := 3
  const BackoffMs := 2500
  /** The message of the error `lastErr` starts out as. */
  const UnknownError := "Unknown generation error"

  /** The transience classifier on the lower-cased error message. */
  predicate IsTransient(message: string) {
    var m := Lower(message);
    Contains(m, "429") || Contains(m, "rate") || Contains(m, "timeout") || Contains(m, "temporar")
    || Contains(m, "busy") || Contains(m, "failed to fetch") || Contains(m, "load failed") || Contains(m, "http 5")
  }

  /** `shouldRetry` after a failure on attempt `attempt` (counted from 1). */
  predicate ShouldRetry(attempt: nat, message: string) {
    attempt < MaxAttempts && IsTransient(message)
  }

  /** The retry decision lower-cases the message first, so its letter case never matters,
      and no failure of the last attempt is retried. */
  lemma RetryIgnoresCase(attempt: nat, message: string)
    ensures IsTransient(Lower(message)) == IsTransient(message)
    ensures ShouldRetry(attempt, Lower(message)) == ShouldRetry(attempt, message)
    ensures attempt >= MaxAttempts ==> !ShouldRetry(attempt, message)
  {
    LowerIdempotent(message);
  }

  /** What a run of the loop does: the outcome it returns or throws, how many requests it
      made, and the waits it took, in order. */
  datatype RetryTrace = RetryTrace(outcome: Outcome, calls: nat, waits: seq<nat>)

  /** The loop from attempt `attempt` on, with `lastErr` the message of the last error
      caught. `outcomes[k]` is what attempt `k + 1` would produce. The first branch is the
      `throw lastErr` after the loop. */
  function RetryFrom(outcomes: seq<Outcome>, attempt: nat, lastErr: string): RetryTrace
    requires 1 <= attempt <= MaxAttempts + 1 && |outcomes| >= MaxAttempts
    decreases MaxAttempts + 1 - attempt
  {
    if attempt > MaxAttempts then RetryTrace(Failure(lastErr), 0, [])
    else match outcomes[attempt - 1]
      case Success(image) => RetryTrace(Success(image), 1, [])
      case Failure(m) =>
        if !ShouldRetry(attempt, m) then RetryTrace(Failure(m), 1, [])
        else
          var rest := RetryFrom(outcomes, attempt + 1, m);
          RetryTrace(rest.outcome, rest.calls + 1, [attempt * BackoffMs] + rest.waits)
  }

  /** The whole loop, from attempt 1. */
  function Retry(outcomes: seq<Outcome>): RetryTrace
    requires |outcomes| >= MaxAttempts
  {
    RetryFrom(outcomes, 1, UnknownError)
  }

  /** The run `t` of the remaining attempts, after the waits `waits` of earlier ones. */
  function After(waits: seq<nat>, t: RetryTrace): RetryTrace {
    RetryTrace(t.outcome, t.calls + |waits|, waits + t.waits)
  }

  /** Outcome `k` (0-based) ends the loop when it is made. */
  predicate Final(outcomes: seq<Outcome>, k: nat)
    requires k < |outcomes|
  {
    outcomes[k].Success? || !ShouldRetry(k + 1, outcomes[k].message)
  }

  /** The loop itself. It consumes the outcomes of the attempts it makes, in order, and
      returns what it returns or throws, the number of requests made and the waits taken. */
  method RequestStyleAvatarWithRetry(outcomes: seq<Outcome>) returns (outcome: Outcome, calls: nat, waits: seq<nat>)
    requires |outcomes| >= MaxAttempts
    ensures RetryTrace(outcome, calls, waits) == Retry(outcomes)
  {
    var lastErr := UnknownError;
    var attempt := 1;
    waits := [];
    while attempt <= MaxAttempts
      invariant 1 <= attempt <= MaxAttempts
      invariant |waits| == attempt - 1
      invariant Retry(outcomes) == After(waits, RetryFrom(outcomes, attempt, lastErr))
      decreases MaxAttempts + 1 - attempt
    {
      calls := attempt;
      match outcomes[attempt - 1] {
        case Success(image) =>
          outcome := Success(image);
          return;
        case Failure(m) =>
          lastErr := m;
          if !ShouldRetry(attempt, m) {
            outcome := Failure(m);
            return;
          }
          RetryStep(outcomes, attempt, lastErr, m, waits);
          waits := waits + [attempt * BackoffMs];
      }
      attempt := attempt + 1;
    }
    // `throw lastErr`: the third attempt always returns or throws, so this is never reached
    outcome := Failure(lastErr);
    assert false;
  }

  /** One retried failure: waiting after attempt `attempt` and carrying on from the next
      attempt is the same run. */
  lemma RetryStep(outcomes: seq<Outcome>, attempt: nat, lastErr: string, m: string, waits: seq<nat>)
    requires 1 <= attempt <= MaxAttempts && |outcomes| >= MaxAttempts
    requires outcomes[attempt - 1] == Failure(m) && ShouldRetry(attempt, m)
    ensures After(waits, RetryFrom(outcomes, attempt, lastErr))
            == After(waits + [attempt * BackoffMs], RetryFrom(outcomes, attempt + 1, m))
  {
    var rest := RetryFrom(outcomes, attempt + 1, m);
    assert waits + ([attempt * BackoffMs] + rest.waits) == (waits + [attempt * BackoffMs]) + rest.waits;
  }

  /** From attempt `a` on, the loop makes at least one and at most the remaining requests,
      and returns the outcome of the last one unchanged. */
  lemma {:induction false} RetryFromEnd(outcomes: seq<Outcome>, a: nat, lastErr: string)
    requires 1 <= a <= MaxAttempts && |outcomes| >= MaxAttempts
    ensures var t := RetryFrom(outcomes, a, lastErr);
            1 <= t.calls <= MaxAttempts + 1 - a && t.outcome == outcomes[a + t.calls - 2]
    decreases MaxAttempts + 1 - a
  {
    match outcomes[a - 1]
    case Success(_) =>
    case Failure(m) =>
      if ShouldRetry(a, m) {
        RetryFromEnd(outcomes, a + 1, m);
      }
  }

  /** From attempt `a` on, the loop stops at the first final outcome: the last request's
      outcome is final and none before it is. */
  lemma {:induction false} RetryFromShape(outcomes: seq<Outcome>, a: nat, lastErr: string)
    requires 1 <= a <= MaxAttempts && |outcomes| >= MaxAttempts
    ensures var t := RetryFrom(outcomes, a, lastErr);
            1 <= t.calls <= MaxAttempts + 1 - a
            && Final(outcomes, a + t.calls - 2)
            && (forall k :: a - 1 <= k < a + t.calls - 2 ==> !Final(outcomes, k))
    decreases MaxAttempts + 1 - a
  {
    RetryFromEnd(outcomes, a, lastErr);
    match outcomes[a - 1]
    case Success(_) =>
    case Failure(m) =>
      if ShouldRetry(a, m) {
        RetryFromShape(outcomes, a + 1, m);
        assert !Final(outcomes, a - 1);
      }
  }

  /** From attempt `a` on, the loop waits `j × 2500` ms after each failed attempt `j` but
      the last. */
  lemma {:induction false} RetryFromWaits(outcomes: seq<Outcome>, a: nat, lastErr: string)
    requires 1 <= a <= MaxAttempts && |outcomes| >= MaxAttempts
    ensures var t := RetryFrom(outcomes, a, lastErr);
            |t.waits| == t.calls - 1
            && (forall j :: 0 <= j < |t.waits| ==> t.waits[j] == (a + j) * BackoffMs)
    decreases MaxAttempts + 1 - a
  {
    var t := RetryFrom(outcomes, a, lastErr);
    match outcomes[a - 1]
    case Success(_) =>
    case Failure(m) =>
      if ShouldRetry(a, m) {
        RetryFromWaits(outcomes, a + 1, m);
        var rest := RetryFrom(outcomes, a + 1, m);
        assert t.waits == [a * BackoffMs] + rest.waits;
        forall j | 0 <= j < |t.waits| ensures t.waits[j] == (a + j) * BackoffMs {
          if j > 0 { assert t.waits[j] == rest.waits[j - 1]; }
        }
      }
  }

  /** The loop characterised outright: it makes `calls` requests (one to three), returns
      the outcome of the last one unchanged, stops at the first outcome that is a success,
      a non-transient failure or the third failure, and took the waits 2500, 5000, … ms,
      one after each failed attempt but the last. The `throw lastErr` after the loop is
      therefore never reached. */
  lemma RetryCharacterisation(outcomes: seq<Outcome>)
    requires |outcomes| >= MaxAttempts
    ensures var t := Retry(outcomes);
            1 <= t.calls <= MaxAttempts
            && t.outcome == outcomes[t.calls - 1]
            && Final(outcomes, t.calls - 1)
            && (forall k :: 0 <= k < t.calls - 1 ==> outcomes[k].Failure? && IsTransient(outcomes[k].message))
            && t.waits == seq(t.calls - 1, j => (j + 1) * BackoffMs)
  {
    RetryFromEnd(outcomes, 1, UnknownError);
    RetryFromShape(outcomes, 1, UnknownError);
    RetryFromWaits(outcomes, 1, UnknownError);
    var t := Retry(outcomes);
    forall k | 0 <= k < t.calls - 1 ensures outcomes[k].Failure? && IsTransient(outcomes[k].message) {
      assert !Final(outcomes, k);
    }
  }

  /** Never a fourth request, whatever the outcomes. */
  lemma AtMostThreeAttempts(outcomes: seq<Outcome>)
    requires |outcomes| >= MaxAttempts
    ensures 1 <= Retry(outcomes).calls <= MaxAttempts
  {
    RetryCharacterisation(outcomes);
  }

  /** The waits taken are a prefix of [2500, 5000]. */
  lemma WaitsArePrefix(outcomes: seq<Outcome>)
    requires |outcomes| >= MaxAttempts
    ensures Retry(outcomes).waits <= [2500, 5000]
  {
    RetryCharacterisation(outcomes);
  }

  /** The loop stops at the first final outcome `k`, after the waits 2500, …, `k × 2500`. */
  lemma StopsAtFirstFinal(outcomes: seq<Outcome>, k: nat)
    requires |outcomes| >= MaxAttempts && k < MaxAttempts
    requires forall j :: 0 <= j < k ==> outcomes[j].Failure? && IsTransient(outcomes[j].message)
    requires Final(outcomes, k)
    ensures Retry(outcomes) == RetryTrace(outcomes[k], k + 1, seq(k, j => (j + 1) * BackoffMs))
  {
    RetryCharacterisation(outcomes);
    var t := Retry(outcomes);
    assert t.calls == k + 1;
  }

  /** A failure with a non-transient message is rethrown at once: no later attempt and
      no further wait. */
  lemma NonTransientRethrown(outcomes: seq<Outcome>, k: nat)
    requires |outcomes| >= MaxAttempts && k < MaxAttempts
    requires forall j :: 0 <= j < k ==> outcomes[j].Failure? && IsTransient(outcomes[j].message)
    requires outcomes[k].Failure? && !IsTransient(outcomes[k].message)
    ensures Retry(outcomes) == RetryTrace(outcomes[k], k + 1, seq(k, j => (j + 1) * BackoffMs))
  {
    StopsAtFirstFinal(outcomes, k);
  }

  /** On the third attempt even a transient failure is rethrown. */
  lemma ThirdFailureRethrown(outcomes: seq<Outcome>)
    requires |outcomes| >= MaxAttempts
    requires forall j :: 0 <= j < MaxAttempts ==> outcomes[j].Failure? && IsTransient(outcomes[j].message)
    ensures Retry(outcomes) == RetryTrace(outcomes[2], 3, [2500, 5000])
  {
    StopsAtFirstFinal(outcomes, 2);
    assert seq(2, j => (j + 1) * BackoffMs) == [2500, 5000];
  }

  /** The first successful attempt's image is returned as it is, and no later attempt is
      made. */
  lemma FirstSuccessReturned(outcomes: seq<Outcome>, k: nat)
    requires |outcomes| >= MaxAttempts && k < MaxAttempts
    requires forall j :: 0 <= j < k ==> outcomes[j].Failure? && IsTransient(outcomes[j].message)
    requires outcomes[k].Success?
    ensures Retry(outcomes).outcome == outcomes[k] && Retry(outcomes).calls == k + 1
  {
    StopsAtFirstFinal(outcomes, k);
  }

  /** A 5xx answer without an error text reaches the classifier as `HTTP 5..`, which is
      transient: a failing backend is retried. */
  lemma ServerErrorStatusIsTransient(status: nat)
    requires 500 <= status < 600
    ensures IsTransient(HttpStatusText(status))
  {
    ThreeDigits(status);
    var m := Lower(HttpStatusText(status));
    assert m[0..6] == "http 5";
    ContainsAt(m, "http 5", 0);
  }
}
