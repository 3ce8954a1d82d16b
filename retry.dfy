/**
 * `retry.Do` of avast/retry-go as the resources use it: no options, so every error is
 * retried, the attempts stop at the first success, and when every attempt fails the
 * result carries the error of each attempt in order. The number of attempts is a
 * parameter; the delays between attempts are left out.
 */
module Retrying {
  import opened Wrappers

  datatype Outcome = Succeeded(attempts: nat) | AllFailed(errors: seq<string>)

  /**
   * Retry with `left` attempts still allowed after the failed ones whose errors are
   * `errors`. An attempt maps a state to its error (None on success) and the next state.
   */
  function RetryFrom<S>(attempt: S -> (Option<string>, S), s: S, left: nat, errors: seq<string>): (r: (Outcome, S))
    ensures r.0.Succeeded? ==> |errors| < r.0.attempts <= |errors| + left
    ensures r.0.AllFailed? ==> |r.0.errors| == |errors| + left && r.0.errors[..|errors|] == errors
    decreases left
  {
    if left == 0 then (AllFailed(errors), s)
    else
      var (e, t) := attempt(s);
      match e
      case None => (Succeeded(|errors| + 1), t)
      case Some(m) => RetryFrom(attempt, t, left - 1, errors + [m])
  }

  function Retry<S>(attempt: S -> (Option<string>, S), s: S, n: nat): (Outcome, S)
  {
    RetryFrom(attempt, s, n, [])
  }

  /** One more attempt: a success ends the retry, a failure adds its error and goes on. */
  lemma RetryFromStep<S>(attempt: S -> (Option<string>, S), s: S, left: nat, errors: seq<string>)
    requires left > 0
    ensures attempt(s).0.None? ==> RetryFrom(attempt, s, left, errors) == (Succeeded(|errors| + 1), attempt(s).1)
    ensures attempt(s).0.Some? ==>
      RetryFrom(attempt, s, left, errors) == RetryFrom(attempt, attempt(s).1, left - 1, errors + [attempt(s).0.value])
  {
  }

  /** A success comes within the allowed attempts; a failure carries one error per attempt. */
  lemma RetryBounds<S>(attempt: S -> (Option<string>, S), s: S, n: nat)
    ensures Retry(attempt, s, n).0.Succeeded? ==> 1 <= Retry(attempt, s, n).0.attempts <= n
    ensures Retry(attempt, s, n).0.AllFailed? ==> |Retry(attempt, s, n).0.errors| == n
  {
  }

  /** A first attempt that succeeds is the only one. */
  lemma FirstSuccessStops<S>(attempt: S -> (Option<string>, S), s: S, n: nat)
    requires 1 <= n && attempt(s).0.None?
    ensures Retry(attempt, s, n) == (Succeeded(1), attempt(s).1)
  {
  }

  /** The outcome of the retries after a failed first attempt, seen from the whole retry. */
  function AfterFailure(e: string, o: Outcome): Outcome
  {
    match o
    case Succeeded(k) => Succeeded(k + 1)
    case AllFailed(es) => AllFailed([e] + es)
  }

  lemma {:induction false} RetryFromShift<S>(attempt: S -> (Option<string>, S), s: S, left: nat, e: string, errors: seq<string>)
    ensures RetryFrom(attempt, s, left, [e] + errors).1 == RetryFrom(attempt, s, left, errors).1
    ensures RetryFrom(attempt, s, left, [e] + errors).0 == AfterFailure(e, RetryFrom(attempt, s, left, errors).0)
    decreases left
  {
    if left > 0 {
      var (x, t) := attempt(s);
      if x.Some? {
        assert [e] + errors + [x.value] == [e] + (errors + [x.value]);
        RetryFromShift(attempt, t, left - 1, e, errors + [x.value]);
      }
    }
  }

  /** A failed attempt is followed by a retry with one attempt fewer, from the state it left. */
  lemma RetryAfterFailure<S>(attempt: S -> (Option<string>, S), s: S, n: nat)
    requires 1 <= n && attempt(s).0.Some?
    ensures Retry(attempt, s, n).1 == Retry(attempt, attempt(s).1, n - 1).1
    ensures Retry(attempt, s, n).0 == AfterFailure(attempt(s).0.value, Retry(attempt, attempt(s).1, n - 1).0)
  {
    RetryFromShift(attempt, attempt(s).1, n - 1, attempt(s).0.value, []);
    assert [attempt(s).0.value] + [] == [] + [attempt(s).0.value];
  }

  /**
   * When every failed attempt from a state satisfying `inv` leaves such a state, and every
   * successful one leaves a state satisfying `post`, then a retry from such a state ends in
   * `post` when it succeeds and in `inv` when it gives up.
   */
  lemma {:induction false} RetryFromEstablishes<S>(attempt: S -> (Option<string>, S), inv: S -> bool, post: S -> bool, s: S, left: nat, errors: seq<string>)
    requires forall x :: inv(x) && attempt(x).0.Some? ==> inv(attempt(x).1)
    requires forall x :: inv(x) && attempt(x).0.None? ==> post(attempt(x).1)
    requires inv(s)
    ensures RetryFrom(attempt, s, left, errors).0.Succeeded? ==> post(RetryFrom(attempt, s, left, errors).1)
    ensures RetryFrom(attempt, s, left, errors).0.AllFailed? ==> inv(RetryFrom(attempt, s, left, errors).1)
    decreases left
  {
    if left > 0 {
      var (e, t) := attempt(s);
      if e.Some? {
        RetryFromEstablishes(attempt, inv, post, t, left - 1, errors + [e.value]);
      }
    }
  }

  lemma RetryEstablishes<S>(attempt: S -> (Option<string>, S), inv: S -> bool, post: S -> bool, s: S, n: nat)
    requires forall x :: inv(x) && attempt(x).0.Some? ==> inv(attempt(x).1)
    requires forall x :: inv(x) && attempt(x).0.None? ==> post(attempt(x).1)
    requires inv(s)
    ensures Retry(attempt, s, n).0.Succeeded? ==> post(Retry(attempt, s, n).1)
    ensures Retry(attempt, s, n).0.AllFailed? ==> inv(Retry(attempt, s, n).1)
  {
    RetryFromEstablishes(attempt, inv, post, s, n, []);
  }
}
