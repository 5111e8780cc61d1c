/**
 Retry decorators around a model backend, nested in any way. The bare backend at the bottom is a
 script: what its n-th call emits and returns. Delays are in milliseconds.
 */
module Retry {
  import opened Common

  datatype LlmError = ServiceUnavailable | BadRequest | RateLimited | Transport | Decode

  /** One call of the bare backend: the deltas it streams and the result. */
  datatype Call = Call(deltas: seq<string>, result: Result<string, LlmError>)

  type Script = nat -> Call

  datatype Backend =
    | Bare
    | Retrying(inner: Backend, attempts: nat, backoff: nat)
    | Shared(inner: Backend)

  /** Result, number of bare calls, deltas the consumer saw, and the pauses taken. */
  datatype Outcome = Outcome(result: Result<string, LlmError>, calls: nat, seen: seq<string>, pauses: seq<nat>)

  const DURATION_MAX: nat := 0x1_0000_0000_0000_0000 * 1000 - 1

  predicate IsRetryable(e: LlmError) {
    e.ServiceUnavailable? || e.RateLimited? || e.Transport?
  }

  predicate IsRetrying(b: Backend) {
    match b
    case Bare => false
    case Retrying(_, _, _) => true
    case Shared(inner) => IsRetrying(inner)
  }

  /** Another attempt may help and would not repeat what the consumer already saw. */
  predicate MayRetry(o: Outcome) {
    o.result.Err? && IsRetryable(o.result.error) && o.seen == []
  }

  /** Call `b` when the bare backend was called `k` times before. */
  function Invoke(b: Backend, streaming: bool, script: Script, k: nat): Outcome
    decreases b, 0
  {
    match b
    case Bare => Outcome(script(k).result, 1, if streaming then script(k).deltas else [], [])
    case Shared(inner) => Invoke(inner, streaming, script, k)
    case Retrying(inner, attempts, backoff) =>
      if IsRetrying(inner) then Invoke(inner, streaming, script, k)
      else Attempts(inner, streaming, script, k, Max(attempts, 1), backoff)
  }

  /** At most `left` attempts, pausing `delay` and then twice as long each time. */
  function Attempts(inner: Backend, streaming: bool, script: Script, k: nat, left: nat, delay: nat): Outcome
    requires left > 0
    decreases inner, left
  {
    var o := Invoke(inner, streaming, script, k);
    if !MayRetry(o) || left == 1 then o
    else
      var more := Attempts(inner, streaming, script, k + o.calls, left - 1, Min(2 * delay, DURATION_MAX));
      Outcome(more.result, o.calls + more.calls, o.seen + more.seen, o.pauses + [delay] + more.pauses)
  }

  /** What earlier attempts spent, before outcome `o`. */
  function After(calls: nat, pauses: seq<nat>, o: Outcome): Outcome {
    o.(calls := calls + o.calls, pauses := pauses + o.pauses)
  }

  method Complete(b: Backend, streaming: bool, script: Script, k: nat) returns (o: Outcome)
    ensures o == Invoke(b, streaming, script, k)
    decreases b, 0
  {
    match b {
      case Bare => o := Outcome(script(k).result, 1, if streaming then script(k).deltas else [], []);
      case Shared(inner) => o := Complete(inner, streaming, script, k);
      case Retrying(inner, attempts, backoff) =>
        if IsRetrying(inner) {
          o := Complete(inner, streaming, script, k);
        } else {
          o := CompleteRetrying(inner, attempts, backoff, streaming, script, k);
        }
    }
  }

  /** A point of the retry loop: what was spent so far, and what is still allowed. */
  datatype Point = Point(calls: nat, pauses: seq<nat>, left: nat, delay: nat, lastErr: LlmError)

  /** From this point the loop will end in `whole`. */
  ghost predicate LeadsTo(p: Point, inner: Backend, streaming: bool, script: Script, k: nat, whole: Outcome) {
    whole == if p.left == 0 then Outcome(Err(p.lastErr), p.calls, [], p.pauses)
             else After(p.calls, p.pauses, Attempts(inner, streaming, script, k + p.calls, p.left, p.delay))
  }

  lemma {:induction false} OneAttempt(p: Point, inner: Backend, streaming: bool, script: Script, k: nat, whole: Outcome)
    requires p.left > 0 && LeadsTo(p, inner, streaming, script, k, whole)
    ensures var one := Invoke(inner, streaming, script, k + p.calls);
            if !MayRetry(one) then whole == After(p.calls, p.pauses, one)
            else
              var pauses := p.pauses + one.pauses + if p.left > 1 then [p.delay] else [];
              var delay := if p.left > 1 then Min(2 * p.delay, DURATION_MAX) else p.delay;
              LeadsTo(Point(p.calls + one.calls, pauses, p.left - 1, delay, one.result.error),
                      inner, streaming, script, k, whole)
  {
    var one := Invoke(inner, streaming, script, k + p.calls);
    if MayRetry(one) && p.left > 1 {
      var more := Attempts(inner, streaming, script, k + p.calls + one.calls, p.left - 1, Min(2 * p.delay, DURATION_MAX));
      assert p.pauses + (one.pauses + [p.delay] + more.pauses) == p.pauses + one.pauses + [p.delay] + more.pauses;
      assert one.seen + more.seen == more.seen;
    } else if MayRetry(one) {
      assert p.pauses + one.pauses + [] == p.pauses + one.pauses;
    }
  }

  /** The retry loop: a growing delay, the last error, and a flag for emitted output. */
  method CompleteRetrying(inner: Backend, attempts: nat, backoff: nat, streaming: bool, script: Script, k: nat)
    returns (o: Outcome)
    ensures o == Attempts(inner, streaming, script, k, Max(attempts, 1), backoff)
    decreases inner, 1
  {
    var p := Point(0, [], Max(attempts, 1), backoff, ServiceUnavailable);
    ghost var whole := Attempts(inner, streaming, script, k, Max(attempts, 1), backoff);
    var emitted := false;
    assert [] + whole.pauses == whole.pauses;
    while p.left > 0
      invariant !emitted && LeadsTo(p, inner, streaming, script, k, whole)
      decreases p.left
    {
      OneAttempt(p, inner, streaming, script, k, whole);
      var one := Complete(inner, streaming, script, k + p.calls);
      if one.seen != [] { emitted := true; }
      if one.result.Ok? || !IsRetryable(one.result.error) || emitted {
        return After(p.calls, p.pauses, one);
      }
      var pauses := p.pauses + one.pauses + if p.left > 1 then [p.delay] else [];
      var delay := if p.left > 1 then Min(2 * p.delay, DURATION_MAX) else p.delay;
      p := Point(p.calls + one.calls, pauses, p.left - 1, delay, one.result.error);
    }
    o := Outcome(Err(p.lastErr), p.calls, [], p.pauses);
  }

  // ------------------------------------------------------------ towers

  /** The decorator nearest to the bare backend. */
  function Innermost(b: Backend): (r: Option<Backend>)
    ensures r.Some? <==> IsRetrying(b)
    ensures r.Some? ==> r.value.Retrying? && !IsRetrying(r.value.inner)
  {
    match b
    case Bare => None
    case Shared(inner) => Innermost(inner)
    case Retrying(inner, _, _) => if Innermost(inner).Some? then Innermost(inner) else Some(b)
  }

  /** Only the innermost decorator retries: the rest of the tower is transparent. */
  lemma {:induction false} TowerIsItsInnermost(b: Backend, streaming: bool, script: Script, k: nat)
    ensures IsRetrying(b) ==> Invoke(b, streaming, script, k) == Invoke(Innermost(b).value, streaming, script, k)
    ensures !IsRetrying(b) ==> Invoke(b, streaming, script, k) == Invoke(Bare, streaming, script, k)
  {
    match b
    case Bare =>
    case Shared(inner) => TowerIsItsInnermost(inner, streaming, script, k);
    case Retrying(inner, _, _) => if IsRetrying(inner) { TowerIsItsInnermost(inner, streaming, script, k); }
  }

  function Doubled(delay: nat, n: nat): nat
    decreases n
  {
    if n == 0 then delay else Doubled(Min(2 * delay, DURATION_MAX), n - 1)
  }

  /** The errors that another attempt may get past: the service is unavailable, limits the rate, or was not reached. */
  predicate Passing(e: LlmError) {
    match e
    case ServiceUnavailable => true
    case RateLimited => true
    case Transport => true
    case BadRequest => false
    case Decode => false
  }

  /** An attempt that does not end the retrying: it failed in passing and nothing of it was shown. */
  predicate Spent(c: Call, streaming: bool) {
    c.result.Err? && Passing(c.result.error) && (streaming ==> c.deltas == [])
  }

  function Power(n: nat): nat {
    if n == 0 then 1 else 2 * Power(n - 1)
  }

  /** The pause before the `n`-th retry is the backoff doubled `n` times, up to the longest duration. */
  lemma {:induction false} DoubledIs(delay: nat, n: nat)
    ensures Doubled(delay, n) == if n == 0 then delay else Min(delay * Power(n), DURATION_MAX)
    decreases n
  {
    if n > 0 {
      DoubledIs(Min(2 * delay, DURATION_MAX), n - 1);
      PowerPositive(n - 1);
      assert delay * Power(n) == 2 * delay * Power(n - 1);
    }
  }

  lemma {:induction false} PowerPositive(n: nat)
    ensures Power(n) >= 1
  {
    if n > 0 { PowerPositive(n - 1); }
  }

  /**
   What a run of attempts did: every call before the last was a retryable failure that emitted
   nothing, the result and everything the consumer saw are the last call's, the attempts stop
   early only at an outcome that must not be retried, and the pauses double.
   */
  ghost predicate RanAttempts(o: Outcome, streaming: bool, script: Script, k: nat, left: nat, delay: nat) {
    && 1 <= o.calls <= left
    && (forall i :: k <= i < k + o.calls - 1 ==> Spent(script(i), streaming))
    && o.result == script(k + o.calls - 1).result
    && o.seen == (if streaming then script(k + o.calls - 1).deltas else [])
    && (Spent(script(k + o.calls - 1), streaming) ==> o.calls == left)
    && |o.pauses| == o.calls - 1
    && (forall j :: 0 <= j < |o.pauses| ==> o.pauses[j] == Doubled(delay, j))
  }

  lemma {:induction false} AttemptsRun(inner: Backend, streaming: bool, script: Script, k: nat, left: nat, delay: nat)
    requires left > 0 && !IsRetrying(inner)
    ensures RanAttempts(Attempts(inner, streaming, script, k, left, delay), streaming, script, k, left, delay)
    decreases left
  {
    TowerIsItsInnermost(inner, streaming, script, k);
    var one := Invoke(inner, streaming, script, k);
    if MayRetry(one) && left > 1 {
      var next := Min(2 * delay, DURATION_MAX);
      AttemptsRun(inner, streaming, script, k + 1, left - 1, next);
      var more := Attempts(inner, streaming, script, k + 1, left - 1, next);
      var o := Attempts(inner, streaming, script, k, left, delay);
      assert o.calls == more.calls + 1 && o.pauses == [delay] + more.pauses;
      forall j | 0 <= j < |o.pauses| ensures o.pauses[j] == Doubled(delay, j) {
        if j > 0 { assert o.pauses[j] == more.pauses[j - 1] == Doubled(next, j - 1); }
      }
    }
  }

  /** The attempts the tower's innermost decorator allows; one without any. */
  function Budget(b: Backend): nat {
    if IsRetrying(b) then Max(Innermost(b).value.attempts, 1) else 1
  }

  /**
   For any nesting: the bare backend is called at most as often as the innermost decorator
   allows, stopping at the first success or final error, and in streaming everything the
   consumer sees comes from the single call whose result is returned.
   */
  lemma {:induction false} TowersNeverMultiply(b: Backend, streaming: bool, script: Script, k: nat)
    ensures RanAttempts(Invoke(b, streaming, script, k), streaming, script, k, Budget(b),
                        if IsRetrying(b) then Innermost(b).value.backoff else 0)
  {
    TowerIsItsInnermost(b, streaming, script, k);
    if IsRetrying(b) {
      var r := Innermost(b).value;
      AttemptsRun(r.inner, streaming, script, k, Max(r.attempts, 1), r.backoff);
    }
  }

  /** The loop's own decorator around the runtime's shared backend. */
  function RetryingFor(llm: Backend, attempts: nat, backoff: nat): Backend {
    Retrying(Shared(llm), attempts, backoff)
  }

  /** An agent's retry limits govern a bare backend, and do nothing behind one that already retries. */
  lemma {:induction false} LimitsYieldToTheBackend(llm: Backend, attempts: nat, backoff: nat, streaming: bool, script: Script, k: nat)
    ensures Budget(RetryingFor(llm, attempts, backoff)) == if IsRetrying(llm) then Budget(llm) else Max(attempts, 1)
    ensures IsRetrying(llm) ==>
              Invoke(RetryingFor(llm, attempts, backoff), streaming, script, k) == Invoke(llm, streaming, script, k)
    ensures !IsRetrying(llm) ==>
              RanAttempts(Invoke(RetryingFor(llm, attempts, backoff), streaming, script, k), streaming, script, k,
                          Max(attempts, 1), backoff)
  {
    assert Innermost(Shared(llm)) == Innermost(llm);
    TowersNeverMultiply(RetryingFor(llm, attempts, backoff), streaming, script, k);
  }
}
