/**
 * internal/service/otomax.go: delivery of a webhook payload to Otomax with retries. One POST is
 * an oracle answer per attempt index; sleeping is recorded as the list of backoffs in seconds.
 */
module Otomax {
  import opened Wrappers

  /** What one POST attempt ran into: a failure before the response, or the response's status code. */
  datatype SendAttempt =
    | MarshalFails(cause: string)
    | RequestFails(cause: string)
    | TransportFails(cause: string)
    | Responded(status: int)

  /** The error `send` returns for an attempt. */
  datatype SendError =
    | MarshalError(cause: string)      // "failed to marshal payload: …"
    | RequestError(cause: string)      // "failed to create request: …"
    | TransportError(cause: string)    // "failed to send request: …"
    | UnexpectedStatus(status: int)    // "unexpected status code: …"

  /** "webhook delivery failed after <attempts> attempts: <last>"; `last` is None when no attempt ran. */
  datatype DeliveryError = DeliveryFailed(attempts: int, last: Option<SendError>)

  predicate IsSuccessStatus(status: int) {
    200 <= status < 300
  }

  /** send: the first failing step, else a status check. */
  function Send(a: SendAttempt): (err: Option<SendError>)
    ensures err.None? <==> a.Responded? && IsSuccessStatus(a.status)
    ensures a.Responded? && !IsSuccessStatus(a.status) ==> err == Some(UnexpectedStatus(a.status))
  {
    match a
    case MarshalFails(e) => Some(MarshalError(e))
    case RequestFails(e) => Some(RequestError(e))
    case TransportFails(e) => Some(TransportError(e))
    case Responded(status) =>
      if status < 200 || status >= 300 then Some(UnexpectedStatus(status)) else None
  }

  predicate Succeeds(a: SendAttempt) {
    Send(a).None?
  }

  function Pow2(n: nat): (p: nat)
    ensures p >= 1
  {
    if n == 0 then 1 else 2 * Pow2(n - 1)
  }

  /** The number of attempts the loop allows: RetryCount + 1, or none at all when RetryCount < 0. */
  function AttemptLimit(retryCount: int): nat {
    if retryCount < 0 then 0 else retryCount + 1
  }

  /** The index of the first successful attempt among the first `n`, if any. */
  function FirstSuccess(outcome: nat -> SendAttempt, n: nat): (k: Option<nat>)
    ensures k.None? <==> forall j: nat | j < n :: !Succeeds(outcome(j))
    ensures k.Some? ==> k.value < n && Succeeds(outcome(k.value)) &&
                        forall j: nat | j < k.value :: !Succeeds(outcome(j))
  {
    if n == 0 then None
    else
      var earlier := FirstSuccess(outcome, n - 1);
      if earlier.Some? then earlier
      else if Succeeds(outcome(n - 1)) then Some(n - 1)
      else None
  }

  /** The sleeps before the first `sends` attempts: none before attempt 0, then 2^(a-1) seconds before attempt a. */
  function Backoffs(sends: nat): (b: seq<nat>)
    ensures |b| == if sends == 0 then 0 else sends - 1
    ensures forall i | 0 <= i < |b| :: b[i] == Pow2(i)
  {
    if sends <= 1 then [] else Backoffs(sends - 1) + [Pow2(sends - 2)]
  }

  function Sum(s: seq<nat>): nat {
    if s == [] then 0 else Sum(s[..|s| - 1]) + s[|s| - 1]
  }

  /** Sending `sends` times sleeps 1 + 2 + … + 2^(sends-2) = 2^(sends-1) - 1 seconds in total. */
  lemma {:induction false} TotalSleep(sends: nat)
    requires sends >= 1
    ensures Sum(Backoffs(sends)) == Pow2(sends - 1) - 1
  {
    if sends > 1 {
      TotalSleep(sends - 1);
      var b := Backoffs(sends);
      assert b[..|b| - 1] == Backoffs(sends - 1);
    }
  }

  /**
   * SendWebhook: at most AttemptLimit(retryCount) sends, stopping at the first success; when all
   * fail, an error carrying the attempt count RetryCount + 1 and the last failure.
   */
  method SendWebhook(retryCount: int, outcome: nat -> SendAttempt)
    returns (err: Option<DeliveryError>, sends: nat, sleeps: seq<nat>)
    ensures FirstSuccess(outcome, AttemptLimit(retryCount)).Some? ==>
              err.None? && sends == FirstSuccess(outcome, AttemptLimit(retryCount)).value + 1
    ensures FirstSuccess(outcome, AttemptLimit(retryCount)).None? ==>
              sends == AttemptLimit(retryCount) &&
              err == Some(DeliveryFailed(retryCount + 1, if sends == 0 then None else Send(outcome(sends - 1))))
    ensures sleeps == Backoffs(sends)
  {
    var lastErr: Option<SendError> := None;
    var attempt := 0;
    sends := 0;
    sleeps := [];
    while attempt <= retryCount
      invariant 0 <= attempt <= AttemptLimit(retryCount)
      invariant sends == attempt && sleeps == Backoffs(attempt)
      invariant FirstSuccess(outcome, attempt).None?
      invariant lastErr == if attempt == 0 then None else Send(outcome(attempt - 1))
      decreases retryCount - attempt
    {
      if attempt > 0 {
        sleeps := sleeps + [Pow2(attempt - 1)];
      }
      var e := Send(outcome(attempt));
      sends := sends + 1;
      if e.None? {
        assert FirstSuccess(outcome, attempt + 1) == Some(attempt);
        FirstSuccessStable(outcome, attempt + 1, AttemptLimit(retryCount));
        return None, sends, sleeps;
      }
      lastErr := e;
      attempt := attempt + 1;
    }
    return Some(DeliveryFailed(retryCount + 1, lastErr)), sends, sleeps;
  }

  /** Once found among the first `n` attempts, the first success stays the same among more. */
  lemma FirstSuccessStable(outcome: nat -> SendAttempt, n: nat, m: nat)
    requires n <= m && FirstSuccess(outcome, n).Some?
    ensures FirstSuccess(outcome, m) == FirstSuccess(outcome, n)
  {
    var k := FirstSuccess(outcome, n).value;
    var f := FirstSuccess(outcome, m);
    assert f.Some?;
    assert !(f.value < k) && !(k < f.value);
  }

  /**
   * SendWebhook's delivery cost: a success at attempt k means k + 1 sends and 2^k - 1 seconds
   * of sleep; failing throughout means RetryCount + 1 sends and 2^RetryCount - 1 seconds.
   */
  lemma DeliveryCost(retryCount: int, outcome: nat -> SendAttempt, sends: nat, sleeps: seq<nat>)
    requires sleeps == Backoffs(sends)
    requires FirstSuccess(outcome, AttemptLimit(retryCount)).Some? ==>
               sends == FirstSuccess(outcome, AttemptLimit(retryCount)).value + 1
    requires FirstSuccess(outcome, AttemptLimit(retryCount)).None? ==> sends == AttemptLimit(retryCount)
    ensures sends <= AttemptLimit(retryCount)
    ensures sends >= 1 ==> Sum(sleeps) == Pow2(sends - 1) - 1
    ensures retryCount >= 0 && FirstSuccess(outcome, AttemptLimit(retryCount)).None? ==>
              Sum(sleeps) == Pow2(retryCount) - 1
    ensures retryCount < 0 ==> sends == 0 && sleeps == []
  {
    if sends >= 1 {
      TotalSleep(sends);
    }
  }
}
