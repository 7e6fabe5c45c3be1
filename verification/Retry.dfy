/** The retry loops, each written on its own in the repository, against one specification.

    The answers of the remote side come as a function from the attempt number, and so does
    what the context does: cancelled(i) says that the wait before attempt i ended in
    cancellation. Durations are in nanoseconds. */
module Retry {
  import opened Json

  const SECOND: nat := 1_000_000_000

  datatype End = Answered | Cancelled | Exhausted

  /** How a loop ended, after how many attempts, having waited how long. */
  datatype Run = Run(end: End, attempts: nat, waited: nat)

  /** The sum of the first n delays. */
  function Total(delay: nat -> nat, n: nat): nat
  {
    if n == 0 then 0 else Total(delay, n - 1) + delay(n - 1)
  }

  /** Attempts were made, none of them decisive, and no wait between them was cancelled. */
  ghost predicate Undecided(attempts: nat, waited: nat, decisive: nat -> bool, cancelled: nat -> bool, delay: nat -> nat)
  {
    && (forall i: nat | i < attempts :: !decisive(i))
    && (forall i: nat | 0 < i < attempts :: !cancelled(i))
    && waited == Total(delay, if attempts == 0 then 0 else attempts - 1)
  }

  /** The specification. An attempt is decisive when the loop must not be tried again after
      it; delay(i) is the wait between attempts i and i + 1; budget is the most attempts. */
  ghost predicate Follows(run: Run, decisive: nat -> bool, cancelled: nat -> bool, delay: nat -> nat, budget: nat)
  {
    && (forall i: nat | i < run.attempts - (if run.end.Answered? then 1 else 0) :: !decisive(i))
    && (forall i: nat | 0 < i < run.attempts :: !cancelled(i))
    && run.waited == Total(delay, if run.attempts == 0 then 0 else run.attempts - 1)
    && match run.end
       case Answered => 0 < run.attempts <= budget && decisive(run.attempts - 1)
       case Cancelled => 0 < run.attempts < budget && cancelled(run.attempts)
       case Exhausted => run.attempts == budget
  }

  /** The specification leaves nothing open. */
  lemma Determined(a: Run, b: Run, decisive: nat -> bool, cancelled: nat -> bool, delay: nat -> nat, budget: nat)
    requires Follows(a, decisive, cancelled, delay, budget) && Follows(b, decisive, cancelled, delay, budget)
    ensures a == b
  {
    // Were one shorter, the other would have gone past its last attempt or past its cancelled wait.
    assert a.attempts >= b.attempts || !a.end.Answered? || a.attempts == 0;
    assert b.attempts >= a.attempts || !b.end.Answered? || b.attempts == 0;
  }

  /** Without cancellation the first decisive answer among the budgeted ones is the last
      attempt, after exactly the delays in front of it. */
  lemma FirstDecisiveWins(run: Run, first: nat, decisive: nat -> bool, cancelled: nat -> bool, delay: nat -> nat, budget: nat)
    requires Follows(run, decisive, cancelled, delay, budget)
    requires forall i :: !cancelled(i)
    requires first < budget && decisive(first) && forall i: nat | i < first :: !decisive(i)
    ensures run == Run(Answered, first + 1, Total(delay, first))
  {
    Determined(run, Run(Answered, first + 1, Total(delay, first)), decisive, cancelled, delay, budget);
  }

  /** And when there is none, every budgeted attempt is made. */
  lemma NoneDecides(run: Run, decisive: nat -> bool, cancelled: nat -> bool, delay: nat -> nat, budget: nat)
    requires Follows(run, decisive, cancelled, delay, budget)
    requires forall i :: !cancelled(i)
    requires forall i: nat | i < budget :: !decisive(i)
    ensures run == Run(Exhausted, budget, Total(delay, if budget == 0 then 0 else budget - 1))
  {
    Determined(run, Run(Exhausted, budget, Total(delay, if budget == 0 then 0 else budget - 1)),
               decisive, cancelled, delay, budget);
  }

  function Listed(delays: seq<nat>): nat -> nat
  {
    (i: nat) => if i < |delays| then delays[i] else 0
  }

  // ----- httputil.RetryWithContext

  datatype Fault<+E> = Failed(error: E) | ContextDone | PollExhausted

  /** answers(i) is the error of attempt i, None for success. */
  method RetryWithContext<E>(delays: seq<nat>, answers: nat -> Option<E>, cancelled: nat -> bool)
    returns (err: Option<Fault<E>>, run: Run)
    ensures Follows(run, (i: nat) => answers(i).None?, cancelled, Listed(delays), |delays| + 1)
    ensures err.None? <==> run.end.Answered?
    ensures run.end.Cancelled? <==> err == Some(ContextDone)
    ensures run.end.Exhausted? ==> answers(|delays|).Some? && err == Some(Failed(answers(|delays|).value))
  {
    var last: Option<E> := None;
    var i: nat, waited: nat := 0, 0;
    while i <= |delays|
      invariant 0 <= i <= |delays| + 1
      invariant Undecided(i, waited, (i: nat) => answers(i).None?, cancelled, Listed(delays))
      invariant i > 0 ==> last == answers(i - 1) && last.Some?
    {
      if i > 0 {
        if cancelled(i) {
          return Some(ContextDone), Run(Cancelled, i, waited);
        }
        waited := waited + delays[i - 1];
      }
      var error := answers(i);
      if error.None? {
        return None, Run(Answered, i + 1, waited);
      }
      last := error;
      i := i + 1;
    }
    return Some(Failed(last.value)), Run(Exhausted, i, waited);
  }

  // ----- httputil.PollWithContext

  datatype PollAnswer<+E> = PollDone | PollMore | PollError(error: E)

  function Every(interval: nat): nat -> nat
  {
    (i: nat) => interval
  }

  ghost function PollDecides<E>(answers: nat -> PollAnswer<E>): nat -> bool
  {
    (i: nat) => !answers(i).PollMore?
  }

  method PollWithContext<E>(interval: nat, maxAttempts: int, answers: nat -> PollAnswer<E>, cancelled: nat -> bool)
    returns (err: Option<Fault<E>>, run: Run)
    ensures Follows(run, PollDecides(answers), cancelled, Every(interval), if maxAttempts < 0 then 0 else maxAttempts)
    ensures err.None? <==> run.end.Answered? && answers(run.attempts - 1).PollDone?
    ensures run.end.Answered? && answers(run.attempts - 1).PollError? ==> err == Some(Failed(answers(run.attempts - 1).error))
    ensures run.end.Cancelled? <==> err == Some(ContextDone)
    ensures run.end.Exhausted? <==> err == Some(PollExhausted)
  {
    var i: nat, waited: nat := 0, 0;
    while i < maxAttempts
      invariant 0 <= i && (i <= maxAttempts || i == 0)
      invariant Undecided(i, waited, PollDecides(answers), cancelled, Every(interval))
    {
      if i > 0 {
        if cancelled(i) {
          return Some(ContextDone), Run(Cancelled, i, waited);
        }
        waited := waited + interval;
      }
      match answers(i)
      case PollError(e) => return Some(Failed(e)), Run(Answered, i + 1, waited);
      case PollDone => return None, Run(Answered, i + 1, waited);
      case PollMore =>
      i := i + 1;
    }
    return Some(PollExhausted), Run(Exhausted, i, waited);
  }

  // ----- SandboxAPIClient.doPlacementAction

  /** What DoJSON returns: a status, below 200 when no response came, and whether it failed. */
  datatype Response<+B> = Response(status: int, failed: bool, body: B)

  datatype ActionError = NoToken | PlacementNotFound | BadBody | NoResponse | BadStatus | Interrupted

  predicate PlacementDecides<B>(r: Response<B>)
  {
    r.status == 404 || (if r.failed then r.status >= 200 else r.status == 200 || r.status == 202)
  }

  /** What the caller gets for the last response, decisive or not. */
  function PlacementError<B>(r: Response<B>): Option<ActionError>
  {
    if r.status == 404 then Some(PlacementNotFound)
    else if r.failed then Some(if r.status >= 200 then BadBody else NoResponse)
    else if r.status == 200 || r.status == 202 then None
    else Some(BadStatus)
  }

  method DoPlacementAction<B>(authorized: bool, delays: seq<nat>, answers: nat -> Response<B>, cancelled: nat -> bool)
    returns (body: Option<B>, status: int, err: Option<ActionError>, run: Run)
    ensures !authorized ==> err == Some(NoToken) && body.None? && status == 0 && run.attempts == 0 && run.waited == 0
    ensures authorized ==>
      Follows(run, (i: nat) => PlacementDecides(answers(i)), cancelled, Listed(delays), |delays| + 1)
    ensures authorized ==> status == answers(run.attempts - 1).status
    ensures authorized ==>
      err == if run.end.Cancelled? then Some(Interrupted) else PlacementError(answers(run.attempts - 1))
    ensures body == if err.None? then Some(answers(run.attempts - 1).body) else None
    // Success, and only success, is a 200 or a 202.
    ensures err.None? ==> run.end.Answered? && (status == 200 || status == 202)
  {
    if !authorized {
      return None, 0, Some(NoToken), Run(Exhausted, 0, 0);
    }
    var maxAttempts := |delays| + 1;
    var lastErr: Option<ActionError> := None;
    var lastStatus := 0;
    var attempt: nat, waited: nat := 0, 0;
    while attempt < maxAttempts
      invariant 0 <= attempt <= maxAttempts
      invariant Undecided(attempt, waited, (i: nat) => PlacementDecides(answers(i)), cancelled, Listed(delays))
      invariant attempt > 0 ==> lastStatus == answers(attempt - 1).status && lastErr == PlacementError(answers(attempt - 1)) && lastErr.Some?
    {
      if attempt > 0 {
        if cancelled(attempt) {
          return None, lastStatus, Some(Interrupted), Run(Cancelled, attempt, waited);
        }
        waited := waited + delays[attempt - 1];
      }
      var r := answers(attempt);
      lastStatus := r.status;
      if r.status == 404 {
        return None, r.status, Some(PlacementNotFound), Run(Answered, attempt + 1, waited);
      }
      if r.failed {
        if r.status >= 200 {
          return None, r.status, Some(BadBody), Run(Answered, attempt + 1, waited);
        }
        lastErr := Some(NoResponse);
      } else if r.status != 200 && r.status != 202 {
        lastErr := Some(BadStatus);
      } else {
        return Some(r.body), r.status, None, Run(Answered, attempt + 1, waited);
      }
      attempt := attempt + 1;
    }
    return None, lastStatus, lastErr, Run(Exhausted, attempt, waited);
  }

  // ----- SandboxAPIClient.login

  datatype LoginError = LoginBadBody | LoginNoResponse | LoginBadStatus | LoginNoToken | LoginInterrupted

  predicate LoginDecides(r: Response<string>)
  {
    if r.failed then r.status >= 200 else r.status == 200
  }

  function LoginFault(r: Response<string>): Option<LoginError>
  {
    if r.failed then Some(if r.status >= 200 then LoginBadBody else LoginNoResponse)
    else if r.status != 200 then Some(LoginBadStatus)
    else if r.body == "" then Some(LoginNoToken)
    else None
  }

  /** The body is the access_token of the response, empty when it has none. */
  method Login(delays: seq<nat>, answers: nat -> Response<string>, cancelled: nat -> bool)
    returns (token: string, ttl: nat, err: Option<LoginError>, run: Run)
    ensures Follows(run, (i: nat) => LoginDecides(answers(i)), cancelled, Listed(delays), |delays| + 1)
    ensures run.attempts > 0
    ensures err == if run.end.Cancelled? then Some(LoginInterrupted) else LoginFault(answers(run.attempts - 1))
    ensures token == if err.None? then answers(run.attempts - 1).body else ""
    ensures err.None? <==> token != ""
    ensures ttl == if err.None? then 3600 * SECOND else 0
  {
    var maxAttempts := |delays| + 1;
    var lastErr: Option<LoginError> := None;
    var attempt: nat, waited: nat := 0, 0;
    while attempt < maxAttempts
      invariant 0 <= attempt <= maxAttempts
      invariant Undecided(attempt, waited, (i: nat) => LoginDecides(answers(i)), cancelled, Listed(delays))
      invariant attempt > 0 ==> lastErr == LoginFault(answers(attempt - 1)) && lastErr.Some?
    {
      if attempt > 0 {
        if cancelled(attempt) {
          return "", 0, Some(LoginInterrupted), Run(Cancelled, attempt, waited);
        }
        waited := waited + delays[attempt - 1];
      }
      var r := answers(attempt);
      if r.failed {
        if r.status >= 200 {
          return "", 0, Some(LoginBadBody), Run(Answered, attempt + 1, waited);
        }
        lastErr := Some(LoginNoResponse);
      } else if r.status != 200 {
        lastErr := Some(LoginBadStatus);
      } else if r.body == "" {
        return "", 0, Some(LoginNoToken), Run(Answered, attempt + 1, waited);
      } else {
        return r.body, 3600 * SECOND, None, Run(Answered, attempt + 1, waited);
      }
      attempt := attempt + 1;
    }
    return "", 0, lastErr, Run(Exhausted, attempt, waited);
  }

  // ----- Runner.postResult

  /** One POST: no request could be built, nothing came back, or a status did. */
  datatype PostAnswer = NoRequest | NoReply | Replied(status: int)

  predicate Accepted(a: PostAnswer)
  {
    a.Replied? && 200 <= a.status < 300
  }

  predicate Rejected(a: PostAnswer)
  {
    a.Replied? && 400 <= a.status < 500
  }

  /** The wait before POST number attempt. */
  function PostDelay(baseDelay: int, attempt: nat): nat
  {
    if baseDelay <= 0 then 0 else MinNat(baseDelay * attempt, 60 * SECOND)
  }

  function MinNat(a: nat, b: nat): nat
  {
    if a > b then b else a
  }

  function Backoff(baseDelay: int): nat -> nat
  {
    (i: nat) => PostDelay(baseDelay, i + 1)
  }

  ghost function PostDecides(answers: nat -> PostAnswer): nat -> bool
  {
    (i: nat) => Accepted(answers(i)) || Rejected(answers(i))
  }

  ghost function WhileWaiting(baseDelay: int, cancelled: nat -> bool): nat -> bool
  {
    (i: nat) => baseDelay > 0 && cancelled(i)
  }

  /** The arithmetic in front of a wait. */
  method CappedDelay(baseDelay: nat, attempt: nat) returns (delay: nat)
    requires baseDelay > 0 && attempt > 0
    ensures delay == Backoff(baseDelay)(attempt - 1)
  {
    delay := baseDelay * attempt;
    if delay > 60 * SECOND {
      delay := 60 * SECOND;
    }
  }

  lemma AtAttempt(baseDelay: int, answers: nat -> PostAnswer, cancelled: nat -> bool, i: nat)
    ensures PostDecides(answers)(i) <==> Accepted(answers(i)) || Rejected(answers(i))
    ensures WhileWaiting(baseDelay, cancelled)(i) <==> baseDelay > 0 && cancelled(i)
    ensures i > 0 && baseDelay <= 0 ==> Backoff(baseDelay)(i - 1) == 0
  {
  }

  /** The source fixes maxRetries at 10. Without a base delay there is no wait, and so no
      look at the context. */
  method PostResult(maxRetries: nat, baseDelay: int, answers: nat -> PostAnswer, cancelled: nat -> bool)
    returns (err: Option<Fault<PostAnswer>>, run: Run)
    ensures Follows(run, PostDecides(answers), WhileWaiting(baseDelay, cancelled), Backoff(baseDelay), maxRetries + 1)
    ensures run.attempts > 0
    ensures err == if run.end.Cancelled? then Some(ContextDone)
                   else if Accepted(answers(run.attempts - 1)) then None
                   else Some(Failed(answers(run.attempts - 1)))
  {
    hide PostDecides, WhileWaiting, Backoff;
    var last: Option<PostAnswer> := None;
    var attempt: nat, waited: nat := 0, 0;
    while attempt <= maxRetries
      invariant 0 <= attempt <= maxRetries + 1
      invariant Undecided(attempt, waited, PostDecides(answers), WhileWaiting(baseDelay, cancelled), Backoff(baseDelay))
      invariant attempt > 0 ==> last == Some(answers(attempt - 1)) && !Accepted(answers(attempt - 1))
    {
      AtAttempt(baseDelay, answers, cancelled, attempt);
      if attempt > 0 && baseDelay > 0 {
        var delay := CappedDelay(baseDelay, attempt);
        if cancelled(attempt) {
          return Some(ContextDone), Run(Cancelled, attempt, waited);
        }
        waited := waited + delay;
      }
      var answer := answers(attempt);
      if Accepted(answer) {
        return None, Run(Answered, attempt + 1, waited);
      }
      last := Some(answer);
      if Rejected(answer) {
        return Some(Failed(answer)), Run(Answered, attempt + 1, waited);
      }
      attempt := attempt + 1;
    }
    return Some(Failed(last.value)), Run(Exhausted, attempt, waited);
  }

  /** The waits between POSTs never shrink and never exceed a minute. */
  lemma BackoffGrows(baseDelay: int, i: nat, j: nat)
    requires i <= j
    ensures Backoff(baseDelay)(i) <= Backoff(baseDelay)(j) <= 60 * SECOND
  {
    if baseDelay > 0 {
      assert baseDelay * (j + 1) == baseDelay * (i + 1) + baseDelay * (j - i);
    }
  }
}
