/** `evictPod`: POST an eviction, backing off and retrying while the API server
    answers 429, until it answers otherwise or the drain's context ends. Times
    are in any fixed unit, counted from the drain's start. */
module Backoff {
  import opened EvictAll
  import opened Pods
  import opened Wrappers

  datatype Outcome = Evicted | Refused(code: int) | Unanswered | TimedOut

  function Pow2(n: nat): (r: nat)
    ensures r >= 1
  {
    if n == 0 then 1 else 2 * Pow2(n - 1)
  }

  /** The wait after the i-th 429 (from 0), as the loop computes it: only the
      doubled value is capped, not the first wait. */
  function Wait(first: nat, max: nat, i: nat): nat
  {
    if i == 0 then first
    else
      var doubled := 2 * Wait(first, max, i - 1);
      if doubled > max then max else doubled
  }

  /** Time spent in the first n waits. */
  function Waited(first: nat, max: nat, n: nat): nat
  {
    if n == 0 then 0 else Waited(first, max, n - 1) + Wait(first, max, n - 1)
  }

  /** The closed form. The cap holds from the second wait on; it holds for the
      first as well exactly when the initial backoff is within it. */
  lemma {:induction false} WaitClosedForm(first: nat, max: nat, i: nat)
    ensures i > 0 ==> Wait(first, max, i) == Min(first * Pow2(i), max)
    ensures (forall k: nat :: Wait(first, max, k) == Min(first * Pow2(k), max)) <==> first <= max
  {
    WaitFrom(first, max, i);
    assert Pow2(0) == 1;
    if first <= max {
      forall k: nat ensures Wait(first, max, k) == Min(first * Pow2(k), max) {
        WaitFrom(first, max, k);
      }
    } else {
      assert Wait(first, max, 0) != Min(first * Pow2(0), max);
    }
  }

  lemma {:induction false} WaitFrom(first: nat, max: nat, i: nat)
    ensures i > 0 ==> Wait(first, max, i) == Min(first * Pow2(i), max)
    decreases i
  {
    if i > 1 {
      WaitFrom(first, max, i - 1);
      assert first * Pow2(i) == 2 * (first * Pow2(i - 1));
    } else if i == 1 {
      assert Pow2(1) == 2;
    }
  }

  lemma {:induction false} Pow2Monotone(a: nat, b: nat)
    requires a <= b
    ensures Pow2(a) <= Pow2(b)
    decreases b
  {
    if a < b {
      Pow2Monotone(a, b - 1);
    }
  }

  /** From the k-th wait on, with first * 2^k past the cap, every wait is the
      cap, so n attempts take at least (n - k) caps. */
  lemma {:induction false} WaitedAtLeast(first: nat, max: nat, k: nat, n: nat)
    requires first * Pow2(k) >= max && k <= n
    ensures Waited(first, max, n) >= (n - k) * max
    decreases n
  {
    if n > k {
      WaitedAtLeast(first, max, k, n - 1);
      WaitFrom(first, max, n - 1);
      Pow2Monotone(k, n - 1);
      Scale(first, Pow2(k), Pow2(n - 1));
      assert (n - k) * max == (n - 1 - k) * max + max;
    }
  }

  lemma Scale(x: nat, a: nat, b: nat)
    requires a <= b
    ensures x * a <= x * b
  {}

  /** Attempts that can start before the deadline, whatever the replies: with
      `k` doublings taking the first wait to the cap, at most
      k + timeout / max + 1. */
  lemma AttemptsBounded(first: nat, max: nat, k: nat, timeout: nat, attempts: nat)
    requires max > 0 && first * Pow2(k) >= max
    requires attempts > 0 && Waited(first, max, attempts - 1) < timeout
    ensures attempts <= k + timeout / max + 1
  {
    var n := attempts - 1;
    if n >= k {
      WaitedAtLeast(first, max, k, n);
      Quotient(n - k, max, timeout);
    }
  }

  lemma Quotient(q: nat, d: nat, t: nat)
    requires d > 0 && q * d <= t
    ensures q <= t / d
  {
    assert d * (t / d + 1) == d * (t / d) + d > t;
    if q > t / d {
      Scale(d, t / d + 1, q);
    }
  }

  /** The bound, for every k doublings that take the first wait to the cap. */
  ghost predicate FewAttempts(first: nat, max: nat, timeout: nat, attempts: nat)
    requires max > 0
  {
    forall k: nat :: first * Pow2(k) >= max && attempts > 0 ==> attempts <= k + timeout / max + 1
  }

  lemma AttemptsAreFew(first: nat, max: nat, timeout: nat, start: nat, attempts: nat)
    requires max > 0 && (attempts > 0 ==> start + Waited(first, max, attempts - 1) < timeout)
    ensures FewAttempts(first, max, timeout, attempts)
  {
    forall k: nat | first * Pow2(k) >= max && attempts > 0 ensures attempts <= k + timeout / max + 1 {
      AttemptsBounded(first, max, k, timeout, attempts);
    }
  }

  lemma NextWait(first: nat, max: nat, i: nat)
    ensures Wait(first, max, 0) == first && Waited(first, max, 0) == 0
    ensures Wait(first, max, i + 1) == Min(2 * Wait(first, max, i), max)
    ensures Waited(first, max, i + 1) == Waited(first, max, i) + Wait(first, max, i)
  {}

  /** How the loop ended, by the replies it saw; entered after the deadline, its
      only call is refused. */
  ghost predicate Ended(replies: nat -> Reply, attempts: nat, outcome: Outcome)
  {
    if attempts == 0 then outcome.Unanswered?
    else
      (forall i :: 0 <= i < attempts - 1 ==> replies(i) == Status(429)) &&
      match outcome
      case Evicted => replies(attempts - 1).Status? && Accepts(replies(attempts - 1).code)
      case Refused(code) => replies(attempts - 1) == Status(code) && !Accepts(code) && code != 429
      case TimedOut => replies(attempts - 1) == Status(429)
      case Unanswered => true
  }

  /** Time spent in the first n calls. */
  function Took(latency: nat -> nat, n: nat): nat
  {
    if n == 0 then 0 else Took(latency, n - 1) + latency(n - 1)
  }

  lemma TookOneMore(latency: nat -> nat, n: nat)
    ensures Took(latency, 0) == 0 && Took(latency, n + 1) == Took(latency, n) + latency(n)
  {}

  /** When the last reply comes, all waits and calls before it included. */
  function Answered(latency: nat -> nat, first: nat, max: nat, start: nat, attempts: nat): nat
    requires attempts > 0
  {
    start + Took(latency, attempts) + Waited(first, max, attempts - 1)
  }

  /** The loop ends as it does because of the last reply and the time it came at:
      a reply counts when it comes before the deadline, and a 429 ends the loop
      exactly when the wait after it would reach the deadline. */
  ghost predicate InTime(replies: nat -> Reply, latency: nat -> nat, first: nat, max: nat, timeout: nat, start: nat,
                         attempts: nat, outcome: Outcome)
  {
    attempts > 0 ==>
      var at := Answered(latency, first, max, start, attempts);
      match outcome
      case Unanswered => replies(attempts - 1).NoReply? || timeout <= at
      case TimedOut => at < timeout <= at + Wait(first, max, attempts - 1)
      case _ => at < timeout
  }

  /** The retry loop against any API server: `replies(i)` answers the i-th
      attempt after `latency(i)`. A call in flight when the deadline passes, or
      started later, gets no answer. */
  method EvictPod(replies: nat -> Reply, latency: nat -> nat, first: nat, max: nat, timeout: nat, start: nat)
    returns (outcome: Outcome, attempts: nat)
    requires 0 < first && 0 < max
    ensures Ended(replies, attempts, outcome)
    ensures attempts == 0 <==> start >= timeout
    ensures InTime(replies, latency, first, max, timeout, start, attempts, outcome)
    ensures attempts > 0 ==> start + Waited(first, max, attempts - 1) < timeout
    ensures FewAttempts(first, max, timeout, attempts)
  {
    hide FewAttempts, Wait, Waited, Took;
    NextWait(first, max, 0);
    TookOneMore(latency, 0);
    var backoff := first;
    var now := start;
    attempts := 0;
    while true
      invariant backoff == Wait(first, max, attempts)
      invariant now == start + Took(latency, attempts) + Waited(first, max, attempts)
      invariant attempts > 0 ==> now < timeout && start + Waited(first, max, attempts - 1) < timeout
      invariant forall i :: 0 <= i < attempts ==> replies(i) == Status(429)
      invariant attempts == 0 ==> now == start
      invariant Wait(first, max, attempts) > 0
      decreases timeout - now
    {
      if now >= timeout {
        outcome := Unanswered;
        break;
      }
      NextWait(first, max, attempts);
      TookOneMore(latency, attempts);
      var reply := replies(attempts);
      now := now + latency(attempts);
      attempts := attempts + 1;
      if reply.NoReply? || now >= timeout {
        outcome := Unanswered;
        break;
      }
      if Accepts(reply.code) {
        outcome := Evicted;
        break;
      }
      if reply.code != 429 {
        outcome := Refused(reply.code);
        break;
      }
      if now + backoff >= timeout {
        outcome := TimedOut;
        break;
      }
      now := now + backoff;
      backoff := backoff * 2;
      if backoff > max {
        backoff := max;
      }
    }
    AttemptsAreFew(first, max, timeout, start, attempts);
  }

  // ----------------------------------- the same loop, as a worker of evictAll

  /** Where the loop leaves the worker. */
  function LeftAt(ref: PodRef, outcome: Outcome): Worker
  {
    match outcome
    case Evicted => Sending(ref)
    case Refused(code) => Failing(ref, BadStatus(code))
    case Unanswered => Failing(ref, CallFailed)
    case TimedOut => Failing(ref, CtxEnded)
  }

  /** Blocked and tried again, n times. */
  function Retries(w: nat, n: nat): seq<Act>
  {
    if n == 0 then [] else [Work(w, EvictReply(Status(429))), Work(w, BackoffOver)] + Retries(w, n - 1)
  }

  /** The last attempt; the drain's deadline comes in when the loop runs out of
      time. */
  function LastActs(w: nat, last: Reply, outcome: Outcome): seq<Act>
  {
    match outcome
    case Unanswered => [Work(w, EvictReply(NoReply))]
    case TimedOut => [Work(w, EvictReply(Status(429))), Deadline, Work(w, BackoffCancelled)]
    case _ => [Work(w, EvictReply(last))]
  }

  /** The actions of worker `w` that match a run of the loop. */
  function LoopActs(w: nat, replies: nat -> Reply, attempts: nat, outcome: Outcome): seq<Act>
  {
    if attempts == 0 then [Work(w, EvictReply(NoReply))]
    else Retries(w, attempts - 1) + LastActs(w, replies(attempts - 1), outcome)
  }

  lemma {:induction false} RunOn(s: State, first: seq<Act>, rest: seq<Act>)
    requires RunFrom(s, first).Some?
    ensures RunFrom(s, first + rest) == RunFrom(RunFrom(s, first).value, rest)
    decreases |first|
  {
    if first == [] {
      assert first + rest == rest;
    } else {
      assert (first + rest)[1..] == first[1..] + rest;
      RunOn(Apply(s, first[0]), first[1..], rest);
    }
  }

  lemma Retry(s: State, w: nat, ref: PodRef) returns (t: State)
    requires w < |s.workers| && s.workers[w] == Calling(ref, false) && !s.ctxDone
    ensures RunFrom(s, [Work(w, EvictReply(Status(429))), Work(w, BackoffOver)]) == Some(t)
    ensures |t.workers| == |s.workers| && t.workers[w] == Calling(ref, false) && !t.ctxDone && t.expired == s.expired
  {
    var acts := [Work(w, EvictReply(Status(429))), Work(w, BackoffOver)];
    var u := Apply(s, acts[0]);
    t := Apply(u, acts[1]);
    assert acts[1..] == [acts[1]] && acts[1..][1..] == [];
    assert RunFrom(u, [acts[1]]) == Some(t);
  }

  lemma {:induction false} Retried(s: State, w: nat, ref: PodRef, n: nat) returns (t: State)
    requires w < |s.workers| && s.workers[w] == Calling(ref, false) && !s.ctxDone
    ensures RunFrom(s, Retries(w, n)) == Some(t)
    ensures |t.workers| == |s.workers| && t.workers[w] == Calling(ref, false) && !t.ctxDone && t.expired == s.expired
    decreases n
  {
    t := s;
    if n > 0 {
      var u := Retry(s, w, ref);
      t := Retried(u, w, ref, n - 1);
      RunOn(s, [Work(w, EvictReply(Status(429))), Work(w, BackoffOver)], Retries(w, n - 1));
    }
  }

  lemma LastAct(s: State, a: Act)
    requires Enabled(s, a)
    ensures RunFrom(s, [a]) == Some(Apply(s, a))
  {
    assert [a][1..] == [];
  }

  /** Whatever the loop does, a worker of evictAll can do, and ends where the
      loop's outcome says; without an attempt, in any state at all. */
  lemma WorkerRunsTheLoop(s: State, w: nat, ref: PodRef, replies: nat -> Reply, attempts: nat, outcome: Outcome)
    requires w < |s.workers| && s.workers[w].Calling? && s.workers[w].ref == ref
    requires attempts > 0 ==> !s.workers[w].doomed && !s.ctxDone && !s.expired
    requires Ended(replies, attempts, outcome)
    ensures var t := RunFrom(s, LoopActs(w, replies, attempts, outcome));
            t.Some? && w < |t.value.workers| && t.value.workers[w] == LeftAt(ref, outcome)
  {
    if attempts == 0 {
      LastAct(s, Work(w, EvictReply(NoReply)));
    } else {
      AttemptsRun(s, w, ref, replies, attempts, outcome);
    }
  }

  lemma AttemptsRun(s: State, w: nat, ref: PodRef, replies: nat -> Reply, attempts: nat, outcome: Outcome)
    requires w < |s.workers| && s.workers[w] == Calling(ref, false) && !s.ctxDone && !s.expired
    requires attempts > 0 && Ended(replies, attempts, outcome)
    ensures var t := RunFrom(s, LoopActs(w, replies, attempts, outcome));
            t.Some? && w < |t.value.workers| && t.value.workers[w] == LeftAt(ref, outcome)
  {
    hide RunFrom, LastActs, LeftAt;
    var t := Retried(s, w, ref, attempts - 1);
    RunOn(s, Retries(w, attempts - 1), LastActs(w, replies(attempts - 1), outcome));
    LastAttempt(t, w, ref, replies(attempts - 1), outcome);
  }

  lemma LastAttempt(s: State, w: nat, ref: PodRef, last: Reply, outcome: Outcome)
    requires w < |s.workers| && s.workers[w] == Calling(ref, false) && !s.ctxDone && !s.expired
    requires outcome.Evicted? ==> last.Status? && Accepts(last.code)
    requires outcome.Refused? ==> last == Status(outcome.code) && !Accepts(last.code) && last.code != 429
    ensures var t := RunFrom(s, LastActs(w, last, outcome));
            t.Some? && w < |t.value.workers| && t.value.workers[w] == LeftAt(ref, outcome)
  {
    if outcome.TimedOut? {
      TimesOut(s, w, ref);
    } else {
      LastAct(s, LastActs(w, last, outcome)[0]);
      hide RunFrom;
    }
  }

  lemma TimesOut(s: State, w: nat, ref: PodRef)
    requires w < |s.workers| && s.workers[w] == Calling(ref, false) && !s.ctxDone && !s.expired
    ensures var t := RunFrom(s, [Work(w, EvictReply(Status(429))), Deadline, Work(w, BackoffCancelled)]);
            t.Some? && w < |t.value.workers| && t.value.workers[w] == Failing(ref, CtxEnded)
  {
    var acts := [Work(w, EvictReply(Status(429))), Deadline, Work(w, BackoffCancelled)];
    var t := Apply(Apply(s, acts[0]), Deadline);
    assert acts[1..] == [Deadline, acts[2]] && acts[1..][1..] == [acts[2]];
    LastAct(t, acts[2]);
  }
}
