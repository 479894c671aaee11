/** The retry loop that posts a batch of events to the collection endpoint
    (src/network/NetRequest.ts). `fetch` is replaced by a script saying, for
    each attempt, what the server answers and how long the answer takes. */
module NetRequest {
  import opened Types
  import opened Text

  const REQUEST_TIMEOUT := 3000
  const BATCH_REQUEST_TIMEOUT := 15000
  const REQUEST_RETRY_TIMES := 3
  const BATCH_REQUEST_RETRY_TIMES := 1

  /** How one `fetch` settles: a 200 response, any other status, or a
      rejection (network error or abort). */
  datatype Reply = Ok200 | OtherStatus(status: int) | Threw

  /** The server's behaviour for one attempt: the HTTP status it answers
      with, or `None` when `fetch` rejects (a network error), and the time
      in milliseconds the outcome takes to arrive. */
  datatype Attempt = Attempt(status: Option<int>, duration: nat)

  /** A response counts as success when `response.ok` holds and the status
      is 200; `ok` covers 200..299, so only 200 qualifies. */
  function ReplyOfStatus(status: int): (r: Reply)
    ensures r == Ok200 <==> status == 200
  {
    if 200 <= status <= 299 && status == 200 then Ok200 else OtherStatus(status)
  }

  /** How an attempt settles when nothing cuts it off: the status decides,
      and a rejected `fetch` throws. */
  function Settle(a: Attempt): Reply {
    match a.status
    case None => Threw
    case Some(status) => ReplyOfStatus(status)
  }

  /** The query string's parameters, in order. */
  function Query(appId: string, bundleSequenceId: int): (q: seq<(string, string)>)
    ensures |q| == 3
    ensures q[0] == ("platform", "Web") && q[1] == ("appId", appId)
    ensures q[2].0 == "event_bundle_sequence_id" && ParseInt(q[2].1) == Some(bundleSequenceId)
  {
    ParseIntRoundTrip(bundleSequenceId);
    [("platform", "Web"), ("appId", appId), ("event_bundle_sequence_id", IntToString(bundleSequenceId))]
  }

  // ---------------------------------------------------------------------
  // As written: one abort controller and one timer for the whole call

  /** How attempt `i` settles in the source. The single timer is armed
      before the loop and cleared when the first attempt settles, and the
      single signal stays aborted once the timer fired. So attempt 0 is cut
      off when it takes `timeout` or longer, every later attempt then fails
      at once, and if attempt 0 beat the timer no later attempt has any time
      bound. */
  function AsWrittenReply(server: nat -> Attempt, i: nat, timeout: int): Reply {
    if server(0).duration >= timeout then Threw else Settle(server(i))
  }

  /** The source's send succeeds when some attempt within the budget
      settles as 200 under the single timer and signal. */
  ghost predicate DeliveredAsWritten(server: nat -> Attempt, retryTimes: int, timeout: int) {
    exists i: nat :: i < retryTimes && AsWrittenReply(server, i, timeout) == Ok200
  }

  /** The source's loop, with the signal and timer state it threads through
      the attempts. Returns whether the send succeeded and how many attempts
      were made. */
  method SendRequestAsWritten(server: nat -> Attempt, retryTimes: int, timeout: int)
    returns (ok: bool, attempts: nat)
    ensures ok <==> DeliveredAsWritten(server, retryTimes, timeout)
    ensures attempts <= Max(retryTimes, 0)
    ensures ok ==> attempts >= 1 && AsWrittenReply(server, attempts - 1, timeout) == Ok200
    ensures !ok ==> attempts == Max(retryTimes, 0)
    ensures forall j: nat :: j < (if ok then attempts - 1 else attempts) ==>
      AsWrittenReply(server, j, timeout) != Ok200
  {
    var aborted := false;
    var timerArmed := true;
    var retries: nat := 0;
    while retries < retryTimes
      invariant retries <= Max(retryTimes, 0)
      invariant timerArmed <==> retries == 0
      invariant aborted <==> retries >= 1 && server(0).duration >= timeout
      invariant forall j: nat :: j < retries ==> AsWrittenReply(server, j, timeout) != Ok200
      decreases retryTimes - retries
    {
      var reply: Reply;
      if aborted {
        reply := Threw;
      } else if timerArmed && server(retries).duration >= timeout {
        aborted := true;
        reply := Threw;
      } else {
        reply := Settle(server(retries));
      }
      assert reply == AsWrittenReply(server, retries, timeout);
      timerArmed := false;
      retries := retries + 1;
      if reply == Ok200 {
        return true, retries;
      }
    }
    return false, retries;
  }

  /** With the timer as written, a first attempt that times out dooms every
      retry, whatever the server answers later. */
  lemma FirstTimeoutDoomsRetries(server: nat -> Attempt, timeout: int, retryTimes: int)
    requires server(0).duration >= timeout
    ensures forall i: nat :: AsWrittenReply(server, i, timeout) == Threw
    ensures !DeliveredAsWritten(server, retryTimes, timeout)
  {
  }

  /** A server that answers 200 slowly on the first attempt and 200 quickly
      on the second: the call as written fails after all its attempts. */
  lemma AsWrittenSlowFirstAttempt()
    ensures var server := (i: nat) => if i == 0 then Attempt(Some(200), 5000) else Attempt(Some(200), 10);
      AsWrittenReply(server, 0, REQUEST_TIMEOUT) == Threw &&
      AsWrittenReply(server, 1, REQUEST_TIMEOUT) == Threw &&
      AsWrittenReply(server, 2, REQUEST_TIMEOUT) == Threw &&
      !DeliveredAsWritten(server, REQUEST_RETRY_TIMES, REQUEST_TIMEOUT) &&
      PerAttemptReply(server(1), REQUEST_TIMEOUT) == Ok200
  {
    var server := (i: nat) => if i == 0 then Attempt(Some(200), 5000) else Attempt(Some(200), 10);
    FirstTimeoutDoomsRetries(server, REQUEST_TIMEOUT, REQUEST_RETRY_TIMES);
  }

  // ---------------------------------------------------------------------
  // Corrected: a fresh controller and timer for each attempt

  /** How an attempt settles when it has its own timer. */
  function PerAttemptReply(a: Attempt, timeout: int): Reply {
    if a.duration >= timeout then Threw else Settle(a)
  }

  /** The send succeeds when some attempt within the budget answers 200 in
      time. */
  ghost predicate Delivered(server: nat -> Attempt, retryTimes: int, timeout: int) {
    exists i: nat :: i < retryTimes && PerAttemptReply(server(i), timeout) == Ok200
  }

  /** The retry loop with a timer per attempt: stops at the first 200 that
      arrives in time, otherwise makes exactly `retryTimes` attempts. */
  method SendRequest(server: nat -> Attempt, retryTimes: int, timeout: int)
    returns (ok: bool, attempts: nat)
    ensures ok <==> Delivered(server, retryTimes, timeout)
    ensures attempts <= Max(retryTimes, 0)
    ensures ok ==> attempts >= 1 && PerAttemptReply(server(attempts - 1), timeout) == Ok200
    ensures !ok ==> attempts == Max(retryTimes, 0)
    ensures forall j: nat :: j < (if ok then attempts - 1 else attempts) ==>
      PerAttemptReply(server(j), timeout) != Ok200
  {
    var retries: nat := 0;
    while retries < retryTimes
      invariant retries <= Max(retryTimes, 0)
      invariant forall j: nat :: j < retries ==> PerAttemptReply(server(j), timeout) != Ok200
      decreases retryTimes - retries
    {
      var reply := PerAttemptReply(server(retries), timeout);
      retries := retries + 1;
      if reply == Ok200 {
        return true, retries;
      }
    }
    return false, retries;
  }

  /** Retrying is what the timer per attempt buys: a slow first answer no
      longer hides a good second one. */
  lemma CorrectedSlowFirstAttempt()
    ensures var server := (i: nat) => if i == 0 then Attempt(Some(200), 5000) else Attempt(Some(200), 10);
      Delivered(server, REQUEST_RETRY_TIMES, REQUEST_TIMEOUT)
  {
    var server := (i: nat) => if i == 0 then Attempt(Some(200), 5000) else Attempt(Some(200), 10);
    assert PerAttemptReply(server(1), REQUEST_TIMEOUT) == Ok200;
  }

  /** Both versions agree whenever the first attempt beats the timer and
      every later attempt answers in time; they differ only in how timeouts
      are applied. */
  lemma VersionsAgreeWithoutTimeouts(server: nat -> Attempt, timeout: int, retryTimes: int)
    requires forall i: nat :: i < retryTimes ==> server(i).duration < timeout
    ensures forall i: nat :: i < retryTimes ==> AsWrittenReply(server, i, timeout) == PerAttemptReply(server(i), timeout)
    ensures DeliveredAsWritten(server, retryTimes, timeout) <==> Delivered(server, retryTimes, timeout)
  {
    if DeliveredAsWritten(server, retryTimes, timeout) {
      var i: nat :| i < retryTimes && AsWrittenReply(server, i, timeout) == Ok200;
      assert PerAttemptReply(server(i), timeout) == Ok200;
    }
    if Delivered(server, retryTimes, timeout) {
      var i: nat :| i < retryTimes && PerAttemptReply(server(i), timeout) == Ok200;
      assert AsWrittenReply(server, i, timeout) == Ok200;
    }
  }

  /** No attempts are made and the send fails when the budget is not
      positive. */
  lemma NoBudgetNoDelivery(server: nat -> Attempt, retryTimes: int, timeout: int)
    requires retryTimes <= 0
    ensures !Delivered(server, retryTimes, timeout)
    ensures !DeliveredAsWritten(server, retryTimes, timeout)
  {
  }
}
