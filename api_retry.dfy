/** The retry policy of AdvancedCryptoScanner's HTTP helper: up to `retries` attempts,
    an exponential back-off after a rate-limit answer (HTTP 429), a fixed pause after a
    caught exception (a connection failure, or a 200 body that is not JSON), and an
    immediate give-up on any other status. The network is
    the sequence of answers successive attempts would receive; pauses are reported
    rather than slept. */
module ApiRetry {
  import opened Common

  /** What one attempt receives: an HTTP answer with its decoded JSON body, a 200 answer
      whose body is not JSON (its decoding error is a `RequestException` from requests 2.27
      on, so the helper's handler catches it), or a connection-level exception. */
  datatype Response = Reply(status: int, body: string) | Undecodable | ConnectionFailure

  /** What a run of the helper produces: the body it returns (None for Python's `None`),
      how many requests it sent, and the pauses it took, in seconds, in order. */
  datatype Outcome = Outcome(body: Option<string>, attempts: nat, sleeps: seq<nat>)

  const RATE_LIMITED: int := 429
  const OK: int := 200
  const BASE_BACKOFF: nat := 5
  const FAILURE_PAUSE: nat := 5

  function Pow2(n: nat): nat
  {
    if n == 0 then 1 else 2 * Pow2(n - 1)
  }

  /** An answer after which the helper tries again: a rate limit, or anything its
      exception handler catches. */
  predicate Retryable(r: Response)
  {
    !r.Reply? || r.status == RATE_LIMITED
  }

  /** The pause taken after attempt k received r (only meaningful when r is retryable). */
  function PauseAfter(r: Response, k: nat): nat
  {
    if r.Reply? then Pow2(k) * BASE_BACKOFF else FAILURE_PAUSE
  }

  /** The helper from attempt `attempt` on, given the answers `net` of every attempt. */
  function Run(net: nat -> Response, retries: int, attempt: nat): Outcome
    decreases retries - attempt
  {
    if attempt >= retries then Outcome(None, 0, [])
    else
      var r := net(attempt);
      if Retryable(r) then
        var rest := Run(net, retries, attempt + 1);
        Outcome(rest.body, rest.attempts + 1, [PauseAfter(r, attempt)] + rest.sleeps)
      else if r.status == OK then Outcome(Some(r.body), 1, [])
      else Outcome(None, 1, [])
  }

  /** The run as a whole. */
  function MakeApiRequest(net: nat -> Response, retries: int): Outcome
  {
    Run(net, retries, 0)
  }

  /** At most `retries` requests go out, one pause follows each retryable answer (the last
      one included) and no other, and the k-th pause is 5 seconds after a caught exception
      and 5 * 2^k seconds after a rate-limit answer (5, 10, 20 with the default three
      attempts). */
  lemma {:induction false} RunSchedule(net: nat -> Response, retries: int, attempt: nat)
    ensures Run(net, retries, attempt).attempts <= Max(0, retries - attempt)
    ensures |Run(net, retries, attempt).sleeps| <= Run(net, retries, attempt).attempts
    ensures forall k :: attempt <= k < attempt + |Run(net, retries, attempt).sleeps| ==>
              Retryable(net(k)) && Run(net, retries, attempt).sleeps[k - attempt] == PauseAfter(net(k), k)
    ensures forall k :: attempt <= k < attempt + Run(net, retries, attempt).attempts && Retryable(net(k))
              ==> k - attempt < |Run(net, retries, attempt).sleeps|
    decreases retries - attempt
  {
    if attempt < retries && Retryable(net(attempt)) {
      RunSchedule(net, retries, attempt + 1);
      var o, rest := Run(net, retries, attempt), Run(net, retries, attempt + 1);
      forall k | attempt < k < attempt + |o.sleeps|
        ensures o.sleeps[k - attempt] == PauseAfter(net(k), k)
      {
        assert o.sleeps[k - attempt] == rest.sleeps[k - (attempt + 1)];
      }
      forall k | attempt < k < attempt + o.attempts && Retryable(net(k))
        ensures k - attempt < |o.sleeps|
      {
        assert k - (attempt + 1) < |rest.sleeps|;
      }
    }
  }

  /** The first successful answer is returned when every earlier one was retryable. */
  lemma {:induction false} RunReturnsFirstSuccess(net: nat -> Response, retries: int, attempt: nat, k: nat)
    requires attempt <= k < retries
    requires net(k).Reply? && net(k).status == OK
    requires forall j :: attempt <= j < k ==> Retryable(net(j))
    ensures Run(net, retries, attempt).body == Some(net(k).body)
    ensures Run(net, retries, attempt).attempts == k - attempt + 1
    decreases k - attempt
  {
    if attempt < k {
      RunReturnsFirstSuccess(net, retries, attempt + 1, k);
    }
  }

  /** A body is returned only from a successful answer preceded by retryable ones;
      otherwise the run ends in None, and it never fails. */
  lemma {:induction false} RunBodyWitness(net: nat -> Response, retries: int, attempt: nat)
    requires Run(net, retries, attempt).body.Some?
    ensures exists k :: attempt <= k < retries && net(k) == Reply(OK, Run(net, retries, attempt).body.value)
                        && forall j :: attempt <= j < k ==> Retryable(net(j))
    decreases retries - attempt
  {
    var r := net(attempt);
    if Retryable(r) {
      RunBodyWitness(net, retries, attempt + 1);
      var k :| attempt + 1 <= k < retries && net(k) == Reply(OK, Run(net, retries, attempt + 1).body.value)
               && forall j :: attempt + 1 <= j < k ==> Retryable(net(j));
      assert forall j :: attempt <= j < k ==> Retryable(net(j));
    } else {
      assert attempt <= attempt < retries && net(attempt) == Reply(OK, Run(net, retries, attempt).body.value);
    }
  }

  /** Any status other than 200 and 429 ends the run at once with None. */
  lemma OtherStatusGivesUp(net: nat -> Response, retries: int, attempt: nat)
    requires attempt < retries
    requires net(attempt).Reply? && net(attempt).status != OK && net(attempt).status != RATE_LIMITED
    ensures Run(net, retries, attempt) == Outcome(None, 1, [])
  {
  }
}
