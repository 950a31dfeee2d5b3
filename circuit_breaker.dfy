/** The circuit breaker that guards every call into the backing store
    (`AdvancedCircuitBreaker`, Utils/timekeeper.py). The breaker is CLOSED,
    OPEN or HALF_OPEN; it counts failures and successes, refuses calls while
    OPEN inside the recovery window, and lets every call through once the
    window has passed.

    The deciding fields are collected in the value `Breaker`; the pure
    transition functions below say what one call does to them, and the class
    `AdvancedCircuitBreaker` updates its fields in place exactly as they say.
    Time is an integer number of seconds supplied by the caller, and the
    wrapped function is represented by the outcome it would have. */
module CircuitBreaker {
  import opened Wrappers

  datatype BreakerState = Closed | Open | HalfOpen

  /** What the wrapped function does when it is invoked. */
  datatype Outcome = Succeeds | TimesOut | Raises

  /** What `call` does for its caller: return the function's result, raise
      `CircuitBreakerOpenError` without invoking the function, raise the
      timeout error, or re-raise the function's own exception. */
  datatype CallResult = Returned | BlockedOpen | TimedOut | Reraised

  datatype Config = Config(failureThreshold: nat, recoveryTimeout: int, successThreshold: nat)

  /** The thresholds `UltimateTimeTracker` builds its breaker with. */
  const TrackerConfig := Config(5, 60, 3)

  datatype Breaker = Breaker(
    cfg: Config,
    state: BreakerState,
    failureCount: nat,
    successCount: nat,
    lastFailureTime: Option<int>,
    lastSuccessTime: Option<int>,
    totalRequests: nat,
    totalFailures: nat,
    totalSuccesses: nat)

  /** A freshly constructed breaker. */
  function Initial(cfg: Config): (b: Breaker)
    ensures b.state == Closed && b.failureCount == 0 && b.successCount == 0
  {
    Breaker(cfg, Closed, 0, 0, None, None, 0, 0, 0)
  }

  /** What every reachable breaker satisfies: an OPEN breaker has recorded a
      failure and holds at least `failureThreshold` failures, and a HALF_OPEN
      breaker has not yet earned back more than it lost. */
  ghost predicate Inv(b: Breaker) {
    && (b.state == Open ==> b.lastFailureTime.Some? && b.failureCount >= b.cfg.failureThreshold)
    && (b.state == HalfOpen ==> b.lastFailureTime.Some? && b.failureCount + b.successCount >= b.cfg.failureThreshold)
  }

  /** The recovery window test of `call`: OPEN and less than
      `recovery_timeout` seconds since the last failure. */
  predicate InWindow(b: Breaker, now: int) {
    b.state == Open && b.lastFailureTime.Some? && now - b.lastFailureTime.value < b.cfg.recoveryTimeout
  }

  /** `_record_success`. */
  function OnSuccess(b: Breaker, now: int): Breaker {
    var counted := b.(totalSuccesses := b.totalSuccesses + 1,
                      successCount := b.successCount + 1,
                      failureCount := if b.failureCount > 0 then b.failureCount - 1 else 0,
                      lastSuccessTime := Some(now));
    if counted.state == HalfOpen && counted.successCount >= counted.cfg.successThreshold then
      counted.(state := Closed, failureCount := 0)
    else
      counted
  }

  /** `_record_failure`. */
  function OnFailure(b: Breaker, now: int): Breaker {
    var counted := b.(totalFailures := b.totalFailures + 1,
                      failureCount := b.failureCount + 1,
                      lastFailureTime := Some(now));
    if counted.failureCount >= counted.cfg.failureThreshold then counted.(state := Open) else counted
  }

  /** The state check at the start of `call`: `None` when the call is refused,
      otherwise the breaker the wrapped function runs under. */
  function Admit(b: Breaker, now: int): Option<Breaker> {
    var counted := b.(totalRequests := b.totalRequests + 1);
    if counted.state == Open then
      if InWindow(counted, now) then None
      else Some(counted.(state := HalfOpen, successCount := 0))
    else Some(counted)
  }

  /** One whole `call`: the breaker afterwards and what the caller sees. */
  function Step(b: Breaker, now: int, outcome: Outcome): (Breaker, CallResult) {
    match Admit(b, now)
    case None => (b.(totalRequests := b.totalRequests + 1), BlockedOpen)
    case Some(running) =>
      match outcome
      case Succeeds => (OnSuccess(running, now), Returned)
      case TimesOut => (OnFailure(running, now), TimedOut)
      case Raises => (OnFailure(running, now), Reraised)
  }

  /** `reset`: CLOSED with every counter at zero; the failure time is kept. */
  function Cleared(b: Breaker): (r: Breaker)
    ensures r.state == Closed && r.failureCount == 0 && r.successCount == 0
    ensures r.totalRequests == 0 && r.totalFailures == 0 && r.totalSuccesses == 0
    ensures r.cfg == b.cfg
  {
    b.(state := Closed, failureCount := 0, successCount := 0,
       totalRequests := 0, totalFailures := 0, totalSuccesses := 0)
  }

  /** Every call and every reset keeps the invariant. */
  lemma CallKeepsInv(b: Breaker, now: int, outcome: Outcome)
    requires Inv(b)
    ensures Inv(Step(b, now, outcome).0)
    ensures Inv(Cleared(b))
  {
  }

  /** While OPEN inside the recovery window the breaker refuses the call
      whatever the wrapped function would do, and changes nothing but the
      request count. */
  lemma BlockedInsideWindow(b: Breaker, now: int, outcome: Outcome)
    requires b.state == Open && b.lastFailureTime.Some?
    requires now - b.lastFailureTime.value < b.cfg.recoveryTimeout
    ensures Step(b, now, outcome) == (b.(totalRequests := b.totalRequests + 1), BlockedOpen)
  {
  }

  /** Once the window has passed the call goes through in HALF_OPEN with the
      success count restarted. */
  lemma HalfOpenAfterWindow(b: Breaker, now: int)
    requires b.state == Open && b.lastFailureTime.Some?
    requires now - b.lastFailureTime.value >= b.cfg.recoveryTimeout
    ensures Admit(b, now).Some?
    ensures Admit(b, now).value.state == HalfOpen && Admit(b, now).value.successCount == 0
    ensures Admit(b, now).value.failureCount == b.failureCount
  {
  }

  /** A failure adds exactly one to `failure_count`, and leaves the breaker
      OPEN exactly when it was OPEN already or the count reached the
      threshold. */
  lemma FailureCounting(b: Breaker, now: int)
    ensures OnFailure(b, now).failureCount == b.failureCount + 1
    ensures OnFailure(b, now).state == Open <==> b.state == Open || b.failureCount + 1 >= b.cfg.failureThreshold
    ensures OnFailure(b, now).state != Open ==> OnFailure(b, now).state == b.state
  {
  }

  /** A success takes one off `failure_count` but never goes below zero, and
      closes a HALF_OPEN breaker (clearing the failures) exactly when it
      brings the success count to the threshold. */
  lemma SuccessCounting(b: Breaker, now: int)
    ensures OnSuccess(b, now).successCount == b.successCount + 1
    ensures var r := OnSuccess(b, now);
      if b.state == HalfOpen && b.successCount + 1 >= b.cfg.successThreshold then
        r.state == Closed && r.failureCount == 0
      else
        r.state == b.state && r.failureCount == (if b.failureCount == 0 then 0 else b.failureCount - 1)
  {
  }

  /** `n` consecutive failures of the wrapped function. */
  function Failures(b: Breaker, now: int, n: nat): Breaker
    decreases n
  {
    if n == 0 then b else Failures(Step(b, now, Raises).0, now, n - 1)
  }

  /** `n` consecutive successful calls. */
  function Successes(b: Breaker, now: int, n: nat): Breaker
    decreases n
  {
    if n == 0 then b else Successes(Step(b, now, Succeeds).0, now, n - 1)
  }

  /** From a CLOSED breaker with no failures, `failure_threshold` consecutive
      failing calls open it, and the failures before that do not. */
  lemma {:induction false} ThresholdFailuresOpen(b: Breaker, now: int, n: nat)
    requires b.state == Closed && b.failureCount == 0
    requires n <= b.cfg.failureThreshold
    ensures Failures(b, now, n).failureCount == n
    ensures Failures(b, now, n).state == (if n == b.cfg.failureThreshold && n > 0 then Open else Closed)
    ensures Failures(b, now, n).cfg == b.cfg
    decreases n
  {
    if n > 0 {
      ThresholdFailuresOpen(b, now, n - 1);
      FailuresStep(b, now, n - 1);
    }
  }

  /** Unfolding `Failures` from the other end: the last failure is applied
      to the breaker left by the first `n`. */
  lemma {:induction false} FailuresStep(b: Breaker, now: int, n: nat)
    ensures Failures(b, now, n + 1) == Step(Failures(b, now, n), now, Raises).0
    decreases n
  {
    if n > 0 {
      FailuresStep(Step(b, now, Raises).0, now, n - 1);
    }
  }

  /** `n` successes from a breaker with `f` failures leave max(0, f - n)
      failures while the breaker is not HALF_OPEN. */
  lemma {:induction false} SuccessesDrainFailures(b: Breaker, now: int, n: nat)
    requires b.state == Closed
    ensures Successes(b, now, n).state == Closed
    ensures Successes(b, now, n).failureCount == if b.failureCount >= n then b.failureCount - n else 0
    decreases n
  {
    if n > 0 {
      SuccessesDrainFailures(Step(b, now, Succeeds).0, now, n - 1);
    }
  }

  /** A HALF_OPEN breaker that has just been let through the window closes,
      with no failures, after `success_threshold` successful calls, and
      stays HALF_OPEN before that. */
  lemma {:induction false} HalfOpenRecovers(b: Breaker, now: int, n: nat)
    requires b.state == HalfOpen && b.successCount == 0
    requires 0 < n <= b.cfg.successThreshold
    ensures Successes(b, now, n).state == (if n == b.cfg.successThreshold then Closed else HalfOpen)
    ensures n == b.cfg.successThreshold ==> Successes(b, now, n).failureCount == 0
    ensures Successes(b, now, n).successCount == n
  {
    HalfOpenCounts(b, now, n);
  }

  lemma {:induction false} HalfOpenCounts(b: Breaker, now: int, n: nat)
    requires b.state == HalfOpen
    requires b.successCount + n <= b.cfg.successThreshold
    ensures Successes(b, now, n).successCount == b.successCount + n
    ensures Successes(b, now, n).cfg == b.cfg
    ensures Successes(b, now, n).state ==
      (if n > 0 && b.successCount + n == b.cfg.successThreshold then Closed else HalfOpen)
    ensures n > 0 && b.successCount + n == b.cfg.successThreshold ==> Successes(b, now, n).failureCount == 0
    decreases n
  {
    if n > 0 {
      var next := Step(b, now, Succeeds).0;
      if b.successCount + 1 == b.cfg.successThreshold {
        assert next.state == Closed && next.failureCount == 0;
        assert n == 1;
      } else {
        HalfOpenCounts(next, now, n - 1);
      }
    }
  }

  /** The first call let through after the window is a probe: if it fails
      the breaker is OPEN again, with the window restarted at that failure. */
  lemma ProbeFailureReopens(b: Breaker, now: int, later: int, outcome: Outcome)
    requires Inv(b) && b.state == Open
    requires now - b.lastFailureTime.value >= b.cfg.recoveryTimeout
    requires outcome != Succeeds
    ensures Step(b, now, outcome).0.state == Open
    ensures Step(b, now, outcome).0.lastFailureTime == Some(now)
    ensures later - now < b.cfg.recoveryTimeout ==> InWindow(Step(b, now, outcome).0, later)
  {
  }

  /** HALF_OPEN lets later calls through too: a failure after successes have
      lowered the failure count below the threshold leaves the breaker
      HALF_OPEN rather than re-opening it. */
  lemma HalfOpenFailureMayStayHalfOpen(b: Breaker, now: int)
    requires b.state == HalfOpen && b.failureCount + 1 < b.cfg.failureThreshold
    ensures Admit(b, now) == Some(b.(totalRequests := b.totalRequests + 1))
    ensures Step(b, now, Raises).0.state == HalfOpen
  {
  }

  class AdvancedCircuitBreaker {
    const cfg: Config
    var state: BreakerState
    var failureCount: nat
    var successCount: nat
    var lastFailureTime: Option<int>
    var lastSuccessTime: Option<int>
    var totalRequests: nat
    var totalFailures: nat
    var totalSuccesses: nat

    /** The deciding fields as a value. */
    function View(): Breaker
      reads this
    {
      Breaker(cfg, state, failureCount, successCount, lastFailureTime, lastSuccessTime,
              totalRequests, totalFailures, totalSuccesses)
    }

    ghost predicate Valid()
      reads this
    {
      Inv(View())
    }

    constructor (failureThreshold: nat, recoveryTimeout: int, successThreshold: nat)
      ensures Valid()
      ensures View() == Initial(Config(failureThreshold, recoveryTimeout, successThreshold))
    {
      cfg := Config(failureThreshold, recoveryTimeout, successThreshold);
      state := Closed;
      failureCount, successCount := 0, 0;
      lastFailureTime, lastSuccessTime := None, None;
      totalRequests, totalFailures, totalSuccesses := 0, 0, 0;
    }

    /** `call`: check the state, run the wrapped function, record the
      outcome. */
    method Call(now: int, outcome: Outcome) returns (r: CallResult)
      requires Valid()
      modifies this
      ensures Valid()
      ensures (View(), r) == Step(old(View()), now, outcome)
    {
      ghost var before := View();
      totalRequests := totalRequests + 1;
      if state == Open {
        if now - lastFailureTime.value < cfg.recoveryTimeout {
          return BlockedOpen;
        } else {
          state := HalfOpen;
          successCount := 0;
        }
      }
      assert Admit(before, now) == Some(View());
      match outcome {
        case Succeeds =>
          RecordSuccess(now);
          r := Returned;
        case TimesOut =>
          RecordFailure(now);
          r := TimedOut;
        case Raises =>
          RecordFailure(now);
          r := Reraised;
      }
      CallKeepsInv(before, now, outcome);
    }

    /** `_record_success`. */
    method RecordSuccess(now: int)
      modifies this
      ensures View() == OnSuccess(old(View()), now)
    {
      totalSuccesses := totalSuccesses + 1;
      successCount := successCount + 1;
      failureCount := if failureCount > 0 then failureCount - 1 else 0;
      lastSuccessTime := Some(now);
      if state == HalfOpen {
        if successCount >= cfg.successThreshold {
          state := Closed;
          failureCount := 0;
        }
      }
    }

    /** `_record_failure`. */
    method RecordFailure(now: int)
      modifies this
      ensures View() == OnFailure(old(View()), now)
    {
      totalFailures := totalFailures + 1;
      failureCount := failureCount + 1;
      lastFailureTime := Some(now);
      if failureCount >= cfg.failureThreshold {
        if state != Open {
          state := Open;
        }
      }
    }

    /** `reset`. */
    method Reset()
      requires Valid()
      modifies this
      ensures Valid()
      ensures View() == Cleared(old(View()))
    {
      state := Closed;
      failureCount, successCount := 0, 0;
      totalRequests, totalFailures, totalSuccesses := 0, 0, 0;
    }
  }
}
