/**
 * client/client.py: the agent process. The module-global `running` flag is a
 * field; the SIGINT/SIGTERM handler is an external write to it, made when the
 * clock reaches the second `shutdownAt` at which the signal arrives. Time only
 * passes inside one-second sleep steps. The token endpoint and the websocket
 * server are scripts: `replies[i]` answers the i-th token request and
 * `sessions[j]` decides the j-th websocket open.
 */
module ClientAgent {
  import opened Wrappers
  import opened Jwt
  import opened Backoff
  import opened TokenReply

  /** What the j-th `websockets.connect` does. */
  datatype WsSession =
    | Refused                 // the open raises: an outer-level failure
    | Opened(openChecks: nat) // the socket reads OPEN at this many state checks, then not (or the check raises)

  datatype AgentExit =
    | MissingServerIp // `if not SERVER_IP: return`
    | MissingUuid     // `if not system_uuid: return`
    | NoToken         // `if not token: return`
    | ShutDown        // the outer `while running` ended
    | OutOfFuel       // the model's bound on outer iterations was reached

  function SessionAt(sessions: seq<WsSession>, j: nat): (s: WsSession)
    ensures j >= |sessions| ==> s == Refused
  {
    if j < |sessions| then sessions[j] else Refused
  }

  /** Whether the shutdown signal has arrived by second `t`. */
  predicate ShutdownBy(shutdownAt: Option<nat>, t: nat)
  {
    shutdownAt.Some? && shutdownAt.value <= t
  }

  /** Python's `not s` for an optional configuration string. */
  predicate Falsy(s: Option<string>)
  {
    s.None? || s.value == ""
  }

  /**
   * The reconnect-wait history across one outer pass: it either stays as it was
   * (the counter resets to 0) or gains the next wait of the capped backoff (the
   * counter grows by one); either way it still ends with the waits of the
   * current run of consecutive failures.
   */
  lemma BackoffHistoryStep(start: seq<int>, before: seq<int>, after: seq<int>, n: nat, next: nat, factor: nat, cap: int)
    requires start <= before && n <= |before| - |start|
    requires before[|before| - n..] == BackoffWaits(factor, cap, n)
    requires (next == 0 && after == before) || (next == n + 1 && after == before + [WaitTime(factor, next, cap)])
    ensures start <= after && |after| <= |before| + 1 && next <= |after| - |start|
    ensures after[|after| - next..] == BackoffWaits(factor, cap, next)
  {
    if next != 0 {
      BackoffWaitsSnoc(factor, cap, n);
      assert after[|after| - next..] == before[|before| - n..] + [WaitTime(factor, next, cap)];
    }
  }

  /** A reply that issued a token which `if not token` accepts. */
  predicate IssuedTruthy(r: Reply)
  {
    r.Issued? && Truthy(r.token)
  }

  /** How many of the token requests `lo..hi-1` were answered with an accepted token. */
  function TruthyReplies(replies: seq<Reply>, lo: nat, hi: nat): (n: nat)
    requires lo <= hi
    ensures n <= hi - lo
    decreases hi
  {
    if hi == lo then 0
    else TruthyReplies(replies, lo, hi - 1) + (if IssuedTruthy(ReplyAt(replies, hi - 1)) then 1 else 0)
  }

  /** Counting accepted tokens over two adjacent ranges adds up. */
  lemma {:induction false} TruthyRepliesSplit(replies: seq<Reply>, lo: nat, mid: nat, hi: nat)
    requires lo <= mid <= hi
    ensures TruthyReplies(replies, lo, hi) == TruthyReplies(replies, lo, mid) + TruthyReplies(replies, mid, hi)
    decreases hi
  {
    if hi > mid {
      TruthyRepliesSplit(replies, lo, mid, hi - 1);
    }
  }

  /**
   * One `obtain_jwt` call: when no reply before the last one issued a token,
   * the call accepted a token exactly when its last reply issued a truthy one.
   */
  lemma {:induction false} TruthyRepliesLastOnly(replies: seq<Reply>, lo: nat, hi: nat)
    requires lo <= hi
    requires forall i :: lo <= i < hi - 1 ==> !ReplyAt(replies, i).Issued?
    ensures TruthyReplies(replies, lo, hi) == (if lo < hi && IssuedTruthy(ReplyAt(replies, hi - 1)) then 1 else 0)
    decreases hi
  {
    if lo < hi - 1 {
      TruthyRepliesLastOnly(replies, lo, hi - 1);
      assert !ReplyAt(replies, hi - 2).Issued?;
    }
  }

  /** The token-loop failures among the requests `lo..hi-1` of one `obtain_jwt` call. */
  function AuthFailures(replies: seq<Reply>, lo: nat, hi: nat): (n: nat)
    requires lo <= hi
    ensures n <= hi - lo
    ensures n == hi - lo <==> hi == lo || !ReplyAt(replies, hi - 1).Issued?
  {
    if lo < hi && ReplyAt(replies, hi - 1).Issued? then hi - lo - 1 else hi - lo
  }

  /**
   * The `retry_attempts` of `agent()` after the websocket opens `lo..hi-1`:
   * the refused opens since the last successful one.
   */
  function TrailingRefused(sessions: seq<WsSession>, lo: nat, hi: nat): (n: nat)
    requires lo <= hi
    ensures n <= hi - lo
    ensures n > 0 ==> SessionAt(sessions, hi - 1).Refused?
    decreases hi
  {
    if hi == lo || SessionAt(sessions, hi - 1).Opened? then 0
    else TrailingRefused(sessions, lo, hi - 1) + 1
  }

  /** How many of the websocket opens `lo..hi-1` were refused. */
  function RefusedOpens(sessions: seq<WsSession>, lo: nat, hi: nat): (n: nat)
    requires lo <= hi
    ensures TrailingRefused(sessions, lo, hi) <= n <= hi - lo
    decreases hi
  {
    if hi == lo then 0
    else RefusedOpens(sessions, lo, hi - 1) + (if SessionAt(sessions, hi - 1).Refused? then 1 else 0)
  }

  /**
   * The seconds one websocket session sleeps while the agent keeps running:
   * 5 per OPEN check on an open socket, the reconnect wait after a refused one.
   */
  function SessionSleep(session: WsSession, wait: int): nat
  {
    match session
    case Opened(openChecks) => 5 * openChecks
    case Refused => WaitSleep(wait)
  }

  /**
   * What the outer loop of `agent()` has done since it started with `r0`
   * requests, `o0` opens and the reconnect waits `w0`: one websocket open per
   * accepted token, `retry_attempts` counts the refused opens since the last
   * successful one, one reconnect wait per refused open, and the latest waits
   * are the capped backoff sequence for `retry_attempts`.
   */
  ghost predicate LoopHistory(replies: seq<Reply>, sessions: seq<WsSession>, factor: nat, cap: int,
                              r0: nat, o0: nat, w0: seq<int>, reqs: nat, opens: nat, rw: seq<int>, retry: nat)
  {
    r0 <= reqs && o0 <= opens && w0 <= rw
    && TruthyReplies(replies, r0, reqs) == opens - o0
    && retry == TrailingRefused(sessions, o0, opens)
    && |rw| - |w0| == RefusedOpens(sessions, o0, opens)
    && rw[|rw| - retry..] == BackoffWaits(factor, cap, retry)
  }

  /** One outer pass, as `Agent.Pass` promises it, keeps `LoopHistory`. */
  lemma PassKeepsHistory(replies: seq<Reply>, sessions: seq<WsSession>, factor: nat, cap: int,
                         r0: nat, o0: nat, w0: seq<int>, reqs: nat, opens: nat, rw: seq<int>, retry: nat,
                         reqs': nat, opens': nat, rw': seq<int>, next: nat, gotToken: bool)
    requires LoopHistory(replies, sessions, factor, cap, r0, o0, w0, reqs, opens, rw, retry)
    requires reqs <= reqs' && TruthyReplies(replies, reqs, reqs') == (if gotToken then 1 else 0)
    requires opens' == opens + (if gotToken then 1 else 0)
    requires !gotToken ==> next == retry && rw' == rw
    requires gotToken && SessionAt(sessions, opens).Opened? ==> next == 0 && rw' == rw
    requires gotToken && SessionAt(sessions, opens).Refused? ==>
      next == retry + 1 && rw' == rw + [WaitTime(factor, next, cap)]
    ensures LoopHistory(replies, sessions, factor, cap, r0, o0, w0, reqs', opens', rw', next)
  {
    TruthyRepliesSplit(replies, r0, reqs, reqs');
    if gotToken {
      BackoffHistoryStep(w0, rw, rw', retry, next, factor, cap);
    }
  }

  class Agent {
    const shutdownAt: Option<nat>
    const replies: seq<Reply>
    const sessions: seq<WsSession>
    var running: bool
    var clock: nat
    var requests: nat            // token requests sent so far
    var opens: nat               // websocket opens attempted so far
    var authWaits: seq<int>      // `wait_time` of each token-loop backoff, in order
    var reconnectWaits: seq<int> // `wait_time` of each reconnect backoff, in order

    /** `running` is exactly "no signal yet": the handler clears it and nothing sets it again. */
    ghost predicate Valid()
      reads this
    {
      running == !ShutdownBy(shutdownAt, clock)
    }

    constructor (shutdownAt: Option<nat>, replies: seq<Reply>, sessions: seq<WsSession>)
      ensures Valid()
      ensures this.shutdownAt == shutdownAt && this.replies == replies && this.sessions == sessions
      ensures clock == 0 && requests == 0 && opens == 0 && authWaits == [] && reconnectWaits == []
    {
      this.shutdownAt := shutdownAt;
      this.replies := replies;
      this.sessions := sessions;
      running := !ShutdownBy(shutdownAt, 0);
      clock, requests, opens := 0, 0, 0;
      authWaits, reconnectWaits := [], [];
    }

    /**
     * `handle_shutdown` (client/client.py:20-29), registered for SIGINT and
     * SIGTERM: the signal handler clears the flag.
     */
    method HandleShutdown()
      modifies this`running
      ensures !running
    {
      running := false;
    }

    /** `await asyncio.sleep(1)`: one second passes, and the handler runs if the signal has come. */
    method Tick()
      requires Valid()
      modifies this`clock, this`running
      ensures Valid() && clock == old(clock) + 1
    {
      clock := clock + 1;
      if ShutdownBy(shutdownAt, clock) {
        HandleShutdown();
      }
    }

    /**
     * `interruptible_sleep(duration)`: at most `duration` one-second steps, none
     * once `running` is false at a check; a wait cut short ends at exactly the
     * second the signal arrived.
     */
    method InterruptibleSleep(duration: int)
      requires Valid()
      modifies this`clock, this`running
      ensures Valid()
      ensures old(clock) <= clock <= old(clock) + (if duration > 0 then duration else 0)
      ensures !old(running) ==> clock == old(clock)
      ensures clock < old(clock) + duration ==> !running
      ensures running ==> clock == old(clock) + (if duration > 0 then duration else 0)
      ensures old(running) && !running ==> clock == shutdownAt.value
    {
      var i := 0;
      while i < duration
        invariant Valid()
        invariant 0 <= i <= (if duration > 0 then duration else 0)
        invariant clock == old(clock) + i
        invariant !old(running) ==> i == 0
        invariant old(running) && !running ==> clock == shutdownAt.value
      {
        if !running {
          break;
        }
        Tick();
        i := i + 1;
      }
    }

    /**
     * The end of a failed `obtain_jwt` attempt: count the failure, then wait
     * `min(backoff_factor ** retry_attempts, max_backoff_time)`.
     */
    method AuthBackoff(retryAttempts: nat, backoffFactor: nat, maxBackoffTime: int) returns (next: nat)
      requires Valid()
      modifies this`clock, this`running, this`authWaits
      ensures Valid() && old(clock) <= clock
      ensures old(running) && !running ==> clock == shutdownAt.value
      ensures !old(running) ==> clock == old(clock)
      ensures next == retryAttempts + 1
      ensures authWaits == old(authWaits) + [WaitTime(backoffFactor, next, maxBackoffTime)]
      ensures running ==> clock == old(clock) + WaitSleep(WaitTime(backoffFactor, next, maxBackoffTime))
      ensures clock < old(clock) + WaitTime(backoffFactor, next, maxBackoffTime) ==> !running
    {
      next := retryAttempts + 1;
      var waitTime := WaitTime(backoffFactor, next, maxBackoffTime);
      authWaits := authWaits + [waitTime];
      InterruptibleSleep(waitTime);
    }

    /**
     * `obtain_jwt(system_uuid, password, max_retries, backoff_factor, max_backoff_time)`:
     * at most `max_retries` requests; a reply without a token counts as a failure and
     * is retried; after the k-th failure the loop waits `min(factor ** k, cap)`, also
     * after the last one; a shutdown seen at the top of an attempt returns None, so
     * every request is sent, and a token returned, only while the agent still runs.
     */
    method ObtainJwt(maxRetries: int, backoffFactor: nat, maxBackoffTime: int) returns (token: Option<Token>)
      requires Valid()
      modifies this`clock, this`running, this`requests, this`authWaits
      ensures Valid() && old(clock) <= clock
      ensures old(running) && !running ==> clock == shutdownAt.value
      ensures !old(running) ==> token == None && requests == old(requests) && authWaits == old(authWaits) && clock == old(clock)
      ensures old(requests) <= requests <= old(requests) + AttemptBudget(maxRetries)
      ensures token.Some? ==> old(requests) < requests && ReplyAt(replies, requests - 1) == Issued(token.value)
      ensures token.Some? ==> forall i :: old(requests) <= i < requests - 1 ==> !ReplyAt(replies, i).Issued?
      ensures token.None? ==> forall i :: old(requests) <= i < requests ==> !ReplyAt(replies, i).Issued?
      ensures token.None? ==> !running || requests == old(requests) + AttemptBudget(maxRetries)
      ensures token.Some? ==> authWaits == old(authWaits) + BackoffWaits(backoffFactor, maxBackoffTime, requests - old(requests) - 1)
      ensures token.None? ==> authWaits == old(authWaits) + BackoffWaits(backoffFactor, maxBackoffTime, requests - old(requests))
      ensures old(running) && maxRetries > 0 ==> old(requests) < requests
      ensures token.Some? ==> running
      ensures requests > old(requests) ==>
        !ShutdownBy(shutdownAt, old(clock) + BackoffSleep(backoffFactor, maxBackoffTime, requests - old(requests) - 1))
      ensures running ==> clock == old(clock) + BackoffSleep(backoffFactor, maxBackoffTime, |authWaits| - |old(authWaits)|)
    {
      var retryAttempts := 0;
      while retryAttempts < maxRetries
        invariant Valid() && old(clock) <= clock
        invariant old(running) && !running ==> clock == shutdownAt.value
        invariant 0 <= retryAttempts <= AttemptBudget(maxRetries)
        invariant requests == old(requests) + retryAttempts
        invariant forall i :: old(requests) <= i < requests ==> !ReplyAt(replies, i).Issued?
        invariant authWaits == old(authWaits) + BackoffWaits(backoffFactor, maxBackoffTime, retryAttempts)
        invariant !old(running) ==> retryAttempts == 0 && clock == old(clock)
        invariant retryAttempts == 0 ==> running == old(running)
        invariant running ==> clock == old(clock) + BackoffSleep(backoffFactor, maxBackoffTime, retryAttempts)
        invariant retryAttempts > 0 ==> !ShutdownBy(shutdownAt, old(clock) + BackoffSleep(backoffFactor, maxBackoffTime, retryAttempts - 1))
      {
        if !running {
          return None;
        }
        var reply := ReplyAt(replies, requests);
        requests := requests + 1;
        if reply.Issued? {
          return Some(reply.token);
        }
        BackoffWaitsSnoc(backoffFactor, maxBackoffTime, retryAttempts);
        retryAttempts := AuthBackoff(retryAttempts, backoffFactor, maxBackoffTime);
      }
      return None;
    }

    /**
     * The open-socket block: `while running`, leave when the socket is no longer
     * OPEN, else `interruptible_sleep(5)`. Errors raised here are caught inside
     * the block and never reach the reconnect counter.
     */
    method HoldSession(openChecks: nat)
      requires Valid()
      modifies this`clock, this`running
      ensures Valid()
      ensures old(clock) <= clock <= old(clock) + 5 * openChecks
      ensures running ==> clock == old(clock) + 5 * openChecks
      ensures !old(running) ==> clock == old(clock)
      ensures old(running) && !running ==> clock == shutdownAt.value
    {
      var checks := 0;
      while running
        invariant Valid()
        invariant checks <= openChecks
        invariant old(clock) <= clock <= old(clock) + 5 * checks
        invariant running ==> clock == old(clock) + 5 * checks
        invariant !old(running) ==> clock == old(clock)
        invariant old(running) && !running ==> clock == shutdownAt.value
        decreases openChecks - checks
      {
        if checks == openChecks {
          break;
        }
        checks := checks + 1;
        InterruptibleSleep(5);
      }
    }

    /**
     * The `except` branch of `agent()`'s outer loop: count the failure, then
     * wait `min(BACKOFF_FACTOR ** retry_attempts, MAX_BACKOFF_TIME)`.
     */
    method ReconnectBackoff(retryAttempts: nat, backoffFactor: nat, maxBackoffTime: int) returns (next: nat)
      requires Valid()
      modifies this`clock, this`running, this`reconnectWaits
      ensures Valid() && old(clock) <= clock
      ensures old(running) && !running ==> clock == shutdownAt.value
      ensures !old(running) ==> clock == old(clock)
      ensures next == retryAttempts + 1
      ensures reconnectWaits == old(reconnectWaits) + [WaitTime(backoffFactor, next, maxBackoffTime)]
      ensures running ==> clock == old(clock) + WaitSleep(WaitTime(backoffFactor, next, maxBackoffTime))
      ensures clock < old(clock) + WaitTime(backoffFactor, next, maxBackoffTime) ==> !running
    {
      next := retryAttempts + 1;
      var waitTime := WaitTime(backoffFactor, next, maxBackoffTime);
      reconnectWaits := reconnectWaits + [waitTime];
      InterruptibleSleep(waitTime);
    }

    /**
     * One pass of `agent()`'s outer `while running` loop: obtain a token with the
     * defaults (5, 2, 120) and give up when there is none; otherwise open the
     * websocket. An open resets `retry_attempts` to 0 and holds the session; a
     * refused open backs off. Returns whether a token was obtained and the new
     * `retry_attempts`.
     */
    method Pass(retryAttempts: nat, backoffFactor: nat, maxBackoffTime: int) returns (gotToken: bool, next: nat)
      requires Valid()
      modifies this`clock, this`running, this`requests, this`authWaits, this`opens, this`reconnectWaits
      ensures Valid() && old(clock) <= clock
      ensures old(running) && !running ==> clock == shutdownAt.value
      ensures old(requests) <= requests <= old(requests) + 5
      ensures old(running) ==> old(requests) < requests
      ensures gotToken <==> old(requests) < requests && IssuedTruthy(ReplyAt(replies, requests - 1))
      ensures TruthyReplies(replies, old(requests), requests) == (if gotToken then 1 else 0)
      ensures authWaits == old(authWaits) + BackoffWaits(2, 120, AuthFailures(replies, old(requests), requests))
      ensures opens == old(opens) + (if gotToken then 1 else 0)
      ensures !gotToken ==> next == retryAttempts && reconnectWaits == old(reconnectWaits)
      ensures gotToken && SessionAt(sessions, old(opens)).Opened? ==>
        next == 0 && reconnectWaits == old(reconnectWaits)
      ensures gotToken && SessionAt(sessions, old(opens)).Refused? ==>
        next == retryAttempts + 1 && reconnectWaits == old(reconnectWaits) + [WaitTime(backoffFactor, next, maxBackoffTime)]
      ensures running ==>
        clock == old(clock) + BackoffSleep(2, 120, |authWaits| - |old(authWaits)|)
          + (if gotToken then SessionSleep(SessionAt(sessions, old(opens)), WaitTime(backoffFactor, retryAttempts + 1, maxBackoffTime)) else 0)
    {
      var token := ObtainJwt(5, 2, 120);
      TruthyRepliesLastOnly(replies, old(requests), requests);
      if token.None? || !Truthy(token.value) {
        return false, retryAttempts;
      }
      var session := SessionAt(sessions, opens);
      opens := opens + 1;
      match session {
        case Refused =>
          next := ReconnectBackoff(retryAttempts, backoffFactor, maxBackoffTime);
        case Opened(openChecks) =>
          next := 0;
          HoldSession(openChecks);
      }
      gotToken := true;
    }

    /**
     * The `while running` loop of `agent()`, from `retry_attempts = 0`: at most
     * `fuel` passes; a pass without a token ends it with `NoToken`.
     */
    method AgentLoop(backoffFactor: nat, maxBackoffTime: int, fuel: nat) returns (exit: AgentExit, retryAttempts: nat)
      requires Valid()
      modifies this`clock, this`running, this`requests, this`authWaits, this`opens, this`reconnectWaits
      ensures Valid()
      ensures exit == NoToken || exit == ShutDown || exit == OutOfFuel
      ensures exit == ShutDown ==> !running
      ensures exit == OutOfFuel ==> running && opens == old(opens) + fuel
      ensures old(running) && !running ==> clock == shutdownAt.value
      ensures old(opens) <= opens <= old(opens) + fuel
      ensures old(requests) <= requests <= old(requests) + 5 * (opens - old(opens) + 1)
      ensures exit == NoToken ==> old(requests) < requests && !IssuedTruthy(ReplyAt(replies, requests - 1))
      ensures LoopHistory(replies, sessions, backoffFactor, maxBackoffTime,
        old(requests), old(opens), old(reconnectWaits), requests, opens, reconnectWaits, retryAttempts)
    {
      retryAttempts := 0;
      var cycles := 0;
      while running && cycles < fuel
        invariant Valid()
        invariant old(running) && !running ==> clock == shutdownAt.value
        invariant cycles <= fuel
        invariant opens == old(opens) + cycles
        invariant old(requests) <= requests <= old(requests) + 5 * (opens - old(opens))
        invariant LoopHistory(replies, sessions, backoffFactor, maxBackoffTime,
          old(requests), old(opens), old(reconnectWaits), requests, opens, reconnectWaits, retryAttempts)
      {
        cycles := cycles + 1;
        ghost var requestsBefore, opensBefore, before := requests, opens, reconnectWaits;
        var gotToken, next := Pass(retryAttempts, backoffFactor, maxBackoffTime);
        PassKeepsHistory(replies, sessions, backoffFactor, maxBackoffTime, old(requests), old(opens), old(reconnectWaits),
          requestsBefore, opensBefore, before, retryAttempts, requests, opens, reconnectWaits, next, gotToken);
        if !gotToken {
          return NoToken, retryAttempts;
        }
        retryAttempts := next;
      }
      exit := if running then OutOfFuel else ShutDown;
    }

    /**
     * `agent()`: returns at once when SERVER_IP or the system uuid is falsy;
     * otherwise, while running: obtain a token with the loop's defaults (5, 2, 120),
     * stop if there is none, open the websocket; an open resets `retry_attempts`
     * to 0, a refused open increments it and waits `min(BACKOFF_FACTOR ** n,
     * MAX_BACKOFF_TIME)`. `fuel` bounds the number of outer iterations, since the
     * source may loop forever. Returns the exit and the final `retry_attempts`.
     */
    method Run(serverIp: Option<string>, systemUuid: Option<string>, backoffFactor: nat, maxBackoffTime: int, fuel: nat)
      returns (exit: AgentExit, retryAttempts: nat)
      requires Valid()
      modifies this`clock, this`running, this`requests, this`authWaits, this`opens, this`reconnectWaits
      ensures Valid()
      ensures exit == MissingServerIp <==> Falsy(serverIp)
      ensures exit == MissingUuid <==> !Falsy(serverIp) && Falsy(systemUuid)
      ensures exit in {MissingServerIp, MissingUuid} ==>
        clock == old(clock) && requests == old(requests) && opens == old(opens) && authWaits == old(authWaits)
      ensures exit == ShutDown ==> !running
      ensures exit == OutOfFuel ==> running && opens == old(opens) + fuel
      ensures old(running) && !running ==> clock == shutdownAt.value
      ensures old(opens) <= opens <= old(opens) + fuel
      ensures old(requests) <= requests <= old(requests) + 5 * (opens - old(opens) + 1)
      ensures old(reconnectWaits) <= reconnectWaits
      ensures |reconnectWaits| - |old(reconnectWaits)| <= opens - old(opens)
      ensures retryAttempts <= |reconnectWaits| - |old(reconnectWaits)|
      ensures reconnectWaits[|reconnectWaits| - retryAttempts..] == BackoffWaits(backoffFactor, maxBackoffTime, retryAttempts)
      ensures exit == NoToken ==> old(requests) < requests && !IssuedTruthy(ReplyAt(replies, requests - 1))
      ensures TruthyReplies(replies, old(requests), requests) == opens - old(opens)
      ensures retryAttempts == TrailingRefused(sessions, old(opens), opens)
      ensures |reconnectWaits| - |old(reconnectWaits)| == RefusedOpens(sessions, old(opens), opens)
    {
      retryAttempts := 0;
      if Falsy(serverIp) {
        return MissingServerIp, retryAttempts;
      }
      if Falsy(systemUuid) {
        return MissingUuid, retryAttempts;
      }
      exit, retryAttempts := AgentLoop(backoffFactor, maxBackoffTime, fuel);
    }
  }
}
