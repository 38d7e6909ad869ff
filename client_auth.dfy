/**
 * client/auth/core.py: the token loop that receives `running` by value and
 * sleeps through the shared `interruptible_sleep` of client/utils/glue.py,
 * and the local pre-check of a token's expiry.
 */
module ClientAuth {
  import opened Wrappers
  import opened Jwt
  import opened Backoff
  import opened TokenReply
  import Glue

  datatype AuthOutcome =
    | GotToken(token: Token)
    | NoToken      // `return None`
    | ArityError   // a TypeError escapes the loop

  /**
   * `obtain_jwt(running, ...)` as written: after the first failed attempt it
   * calls `interruptible_sleep(wait_time)`, but the imported sleep takes
   * `(running, duration)`, so the call raises TypeError. The call sits after
   * the `try`, so the error leaves `obtain_jwt`: at most one request is made.
   */
  method ObtainJwtAsWritten(running: bool, replies: seq<Reply>, maxRetries: int, backoffFactor: nat, maxBackoffTime: int)
    returns (r: AuthOutcome, sent: nat)
    ensures !running || maxRetries <= 0 ==> r == NoToken && sent == 0
    ensures running && maxRetries > 0 ==> sent == 1
    ensures running && maxRetries > 0 ==>
      r == (if ReplyAt(replies, 0).Issued? then GotToken(ReplyAt(replies, 0).token) else ArityError)
  {
    // The `while retry_attempts < max_retries` loop never starts a second pass:
    // every path through its body returns or raises.
    r, sent := NoToken, 0;
    var retryAttempts := 0;
    if retryAttempts < maxRetries {
      if !running {
        return;
      }
      var reply := ReplyAt(replies, sent);
      sent := sent + 1;
      if reply.Issued? {
        r := GotToken(reply.token);
        return;
      }
      retryAttempts := retryAttempts + 1;
      var waitTime := WaitTime(backoffFactor, retryAttempts, maxBackoffTime);
      // interruptible_sleep(wait_time): one argument short of glue's (running, duration)
      r := ArityError;
    }
  }

  /**
   * `obtain_jwt` with the sleep called as `interruptible_sleep(running, wait_time)`.
   * At most `max_retries` requests; all attempts before the last one failed; the
   * waits are the capped backoff sequence, including one after the final failure;
   * and since `running` is a value, every wait is slept in full.
   */
  method ObtainJwt(running: bool, replies: seq<Reply>, maxRetries: int, backoffFactor: nat, maxBackoffTime: int)
    returns (r: AuthOutcome, sent: nat, waits: seq<int>, slept: nat)
    ensures !r.ArityError?
    ensures !running ==> r == NoToken && sent == 0 && waits == [] && slept == 0
    ensures sent <= AttemptBudget(maxRetries)
    ensures r.GotToken? ==> 1 <= sent && ReplyAt(replies, sent - 1) == Issued(r.token)
    ensures r.GotToken? ==> forall i :: 0 <= i < sent - 1 ==> !ReplyAt(replies, i).Issued?
    ensures r.NoToken? ==> forall i :: 0 <= i < sent ==> !ReplyAt(replies, i).Issued?
    ensures running && r.NoToken? ==> sent == AttemptBudget(maxRetries)
    ensures r.GotToken? ==> waits == BackoffWaits(backoffFactor, maxBackoffTime, sent - 1)
    ensures r.NoToken? ==> waits == BackoffWaits(backoffFactor, maxBackoffTime, sent)
    ensures slept == TotalSleep(waits)
  {
    r, sent, waits, slept := NoToken, 0, [], 0;
    var retryAttempts := 0;
    while retryAttempts < maxRetries
      invariant 0 <= retryAttempts <= AttemptBudget(maxRetries)
      invariant sent == retryAttempts
      invariant forall i :: 0 <= i < sent ==> !ReplyAt(replies, i).Issued?
      invariant waits == BackoffWaits(backoffFactor, maxBackoffTime, retryAttempts)
      invariant slept == TotalSleep(waits)
      invariant !running ==> sent == 0 && waits == [] && slept == 0
    {
      if !running {
        return;
      }
      var reply := ReplyAt(replies, sent);
      sent := sent + 1;
      if reply.Issued? {
        r := GotToken(reply.token);
        return;
      }
      retryAttempts := retryAttempts + 1;
      var waitTime := WaitTime(backoffFactor, retryAttempts, maxBackoffTime);
      BackoffWaitsSnoc(backoffFactor, maxBackoffTime, retryAttempts - 1);
      TotalSleepSnoc(waits, waitTime);
      waits := waits + [waitTime];
      var steps := Glue.InterruptibleSleep(running, waitTime);
      slept := slept + steps;
    }
  }

  /**
   * The two loops on one script: the server is down once, then issues a token.
   * As written the loop dies with a TypeError; with the sleep called correctly
   * it waits two seconds and returns the token.
   */
  method ArityCounterexample() returns (asWritten: AuthOutcome, corrected: AuthOutcome, waits: seq<int>)
    ensures asWritten == ArityError
    ensures corrected == GotToken(Garbage("token")) && waits == [2]
  {
    var replies := [HttpError, Issued(Garbage("token"))];
    var sent: nat;
    asWritten, sent := ObtainJwtAsWritten(true, replies, 5, 2, 120);
    var slept: nat;
    corrected, sent, waits, slept := ObtainJwt(true, replies, 5, 2, 120);
    assert ReplyAt(replies, 0) == HttpError && ReplyAt(replies, 1).Issued?;
    assert sent == 2;
    assert Pow(2, 1) == 2;
  }

  /**
   * `is_token_expired(token, buffer_seconds)`: decode without checking the
   * signature; an undecodable token, a missing or null `exp`, or an `exp` that
   * cannot be subtracted from counts as expired; otherwise expired exactly
   * when `now > exp - buffer_seconds`.
   */
  function IsTokenExpired(token: Token, now: int, bufferSeconds: int): (expired: bool)
    ensures !expired <==>
      DecodeUnverified(token).Some? && "exp" in token.claims && token.claims["exp"].CInt?
      && now <= token.claims["exp"].i - bufferSeconds
  {
    match DecodeUnverified(token)
    case None => true
    case Some(payload) =>
      if "exp" !in payload || payload["exp"] == CNull then true
      else match payload["exp"]
        case CInt(exp) => now > exp - bufferSeconds
        case _ => true
  }

  /** `is_token_expired(token)` with the default one-second buffer. */
  function IsTokenExpiredDefault(token: Token, now: int): bool
  {
    IsTokenExpired(token, now, 1)
  }

  /** Expiry is monotone: later clocks and larger buffers keep a token expired. */
  lemma ExpiryMonotone(token: Token, now: int, later: int, buffer: int, larger: int)
    requires now <= later && buffer <= larger
    requires IsTokenExpired(token, now, buffer)
    ensures IsTokenExpired(token, later, larger)
  {
  }
}
