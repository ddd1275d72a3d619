/** Process-local ownership and bounded retries of foreground wake work, over any sequence of calls. */
module Foreground {
  import opened Types

  const MAX_U32: nat := 0xFFFF_FFFF

  /** The longest representable duration, in nanoseconds. */
  const MAX_DURATION: nat := U64_MAX * NANOS_PER_SECOND + 999_999_999

  /** Both parts are positive for every constructed policy. */
  datatype Policy = Policy(maximumAttempts: nat, baseDelay: nat)

  type Id = nat

  datatype Disposition = Completed | AlreadyProcessed | Rejected(code: nat) | RetryAfter(delay: nat) | QueuedForApplication

  datatype Outcome = CompletedOutcome | AlreadyProcessedOutcome | RejectedOutcome(code: nat) | RetryExhausted

  datatype Decision = Finished(outcome: Outcome) | Retry(delay: nat, queued: bool)

  datatype Call = Begin(id: Id) | RetryDue(id: Id) | Forget(id: Id) | Reset | Handle(id: Id, disposition: Disposition)

  datatype State = State(inFlight: set<Id>, attempts: map<Id, nat>)

  ghost predicate ValidPolicy(p: Policy) {
    1 <= p.maximumAttempts <= 255 && p.baseDelay > 0
  }

  // ---- The backoff ----

  function Pow2(exponent: nat): (power: nat)
    ensures power >= 1
  {
    if exponent == 0 then 1 else 2 * Pow2(exponent - 1)
  }

  /** `2_u32.saturating_pow`. */
  function SaturatingPow2(exponent: nat): nat {
    if Pow2(exponent) > MAX_U32 then MAX_U32 else Pow2(exponent)
  }

  function QueuedRetryDelay(p: Policy, attempt: nat): nat {
    var exponent := if attempt > 0 then attempt - 1 else 0;
    var delay := p.baseDelay * SaturatingPow2(exponent);
    if delay > MAX_DURATION then MAX_DURATION else delay
  }

  lemma {:induction false} Pow2Grows(a: nat, b: nat)
    requires a <= b
    ensures Pow2(a) <= Pow2(b)
    decreases b
  {
    if a < b {
      Pow2Grows(a, b - 1);
    }
  }

  lemma ThirtyTwoDoublings()
    ensures Pow2(31) <= MAX_U32 < Pow2(32)
  {
    assert Pow2(8) == 256;
    assert Pow2(16) == 65_536;
    assert Pow2(24) == 16_777_216;
    assert Pow2(31) == 2_147_483_648;
  }

  /** Each queued wait doubles the one before until thirty-two doublings or the longest duration; it never shrinks. */
  lemma BackoffDoubles(p: Policy, attempt: nat)
    requires ValidPolicy(p) && attempt >= 1
    ensures QueuedRetryDelay(p, 1) == if p.baseDelay > MAX_DURATION then MAX_DURATION else p.baseDelay
    ensures QueuedRetryDelay(p, attempt) <= QueuedRetryDelay(p, attempt + 1) <= MAX_DURATION
    ensures attempt < 32 && 2 * QueuedRetryDelay(p, attempt) <= MAX_DURATION ==>
              QueuedRetryDelay(p, attempt + 1) == 2 * QueuedRetryDelay(p, attempt)
    ensures attempt >= 33 ==>
              QueuedRetryDelay(p, attempt) == QueuedRetryDelay(p, attempt + 1)
              == if p.baseDelay * 4_294_967_295 > MAX_DURATION then MAX_DURATION else p.baseDelay * 4_294_967_295
  {
    MultiplierSteps(attempt);
    var m, n := SaturatingPow2(attempt - 1), SaturatingPow2(attempt);
    Products(p.baseDelay, m, n);
    assert SaturatingPow2(0) == 1;
  }

  lemma MultiplierSteps(attempt: nat)
    requires attempt >= 1
    ensures SaturatingPow2(attempt - 1) <= SaturatingPow2(attempt)
    ensures attempt < 32 ==> SaturatingPow2(attempt) == 2 * SaturatingPow2(attempt - 1)
    ensures attempt >= 33 ==> SaturatingPow2(attempt - 1) == SaturatingPow2(attempt) == 4_294_967_295
  {
    ThirtyTwoDoublings();
    Pow2Grows(attempt - 1, attempt);
    if attempt < 32 {
      Pow2Grows(attempt, 31);
    } else if attempt >= 33 {
      Pow2Grows(32, attempt - 1);
    }
  }

  lemma Products(base: nat, m: nat, n: nat)
    requires m <= n
    ensures base * m <= base * n
    ensures n == 2 * m ==> base * n == 2 * (base * m)
  {
  }

  // ---- One call ----

  function Attempts(s: State, id: Id): nat {
    if id in s.attempts then s.attempts[id] else 0
  }

  function Forgotten(s: State, id: Id): State {
    State(s.inFlight - {id}, s.attempts - {id})
  }

  /** A terminal disposition finishes; another one retries within the allowance. */
  function HandleDisposition(p: Policy, s: State, id: Id, d: Disposition): (State, Decision) {
    match d
    case Completed => (Forgotten(s, id), Finished(CompletedOutcome))
    case AlreadyProcessed => (Forgotten(s, id), Finished(AlreadyProcessedOutcome))
    case Rejected(code) => (Forgotten(s, id), Finished(RejectedOutcome(code)))
    case RetryAfter(delay) => Again(p, s, id, delay, false)
    case QueuedForApplication => Again(p, s, id, QueuedRetryDelay(p, Attempts(s, id) + 1), true)
  }

  /** One more retry, or the end of the allowance. */
  function Again(p: Policy, s: State, id: Id, delay: nat, queued: bool): (State, Decision) {
    if Attempts(s, id) >= p.maximumAttempts then (Forgotten(s, id), Finished(RetryExhausted))
    else (s.(attempts := s.attempts[id := Attempts(s, id) + 1]), Retry(delay, queued))
  }

  function Step(p: Policy, s: State, c: Call): (State, Option<Decision>) {
    match c
    case Begin(id) => (s.(inFlight := s.inFlight + {id}), None)
    case RetryDue(id) => (s.(inFlight := s.inFlight - {id}), None)
    case Forget(id) => (Forgotten(s, id), None)
    case Reset => (State({}, map[]), None)
    case Handle(id, d) =>
      var (next, decision) := HandleDisposition(p, s, id, d);
      (next, Some(decision))
  }

  // ---- Sequences of calls ----

  ghost function StateAfter(p: Policy, calls: seq<Call>): State
    decreases |calls|
  {
    if calls == [] then State({}, map[]) else Step(p, StateAfter(p, calls[..|calls| - 1]), calls[|calls| - 1]).0
  }

  /** The decision of the call at one position. */
  ghost function DecisionAt(p: Policy, calls: seq<Call>, k: nat): Option<Decision>
    requires k < |calls|
  {
    Step(p, StateAfter(p, calls[..k]), calls[k]).1
  }

  /** A call that clears what is remembered about an identifier. */
  ghost predicate Clears(p: Policy, calls: seq<Call>, k: nat, id: Id)
    requires k < |calls|
  {
    match calls[k]
    case Forget(other) => other == id
    case Reset => true
    case Handle(other, _) => other == id && DecisionAt(p, calls, k).value.Finished?
    case _ => false
  }

  ghost predicate Retries(p: Policy, calls: seq<Call>, k: nat, id: Id)
    requires k < |calls|
  {
    calls[k].Handle? && calls[k].id == id && DecisionAt(p, calls, k).value.Retry?
  }

  /** Retry decisions for an identifier since it was last cleared. */
  ghost function RetriesSince(p: Policy, calls: seq<Call>, id: Id): nat
    decreases |calls|
  {
    if calls == [] then 0
    else
      var k := |calls| - 1;
      if Clears(p, calls, k, id) then 0
      else RetriesSince(p, calls[..k], id) + (if Retries(p, calls, k, id) then 1 else 0)
  }

  /** The counter is exactly the number of retries since the last clearing, and stays within the allowance. */
  lemma {:induction false} CounterCountsRetries(p: Policy, calls: seq<Call>, id: Id)
    requires ValidPolicy(p)
    ensures Attempts(StateAfter(p, calls), id) == RetriesSince(p, calls, id) <= p.maximumAttempts
    decreases |calls|
  {
    if calls != [] {
      CounterCountsRetries(p, calls[..|calls| - 1], id);
    }
  }

  /**
   Over any sequence of calls: between two clearings of an identifier at most the allowed number of
   retry decisions occurs, the k-th one if queued waits the base delay doubled k - 1 times, the next
   non-terminal disposition exhausts the allowance and clears all state of the identifier, and no other
   identifier is affected.
   */
  lemma RetriesAreBounded(p: Policy, calls: seq<Call>, id: Id, d: Disposition, other: Id)
    requires ValidPolicy(p)
    ensures var k := RetriesSince(p, calls, id);
            var after := calls + [Handle(id, d)];
            var decision := DecisionAt(p, after, |calls|);
            && decision.Some? && k <= p.maximumAttempts
            && (d.RetryAfter? || d.QueuedForApplication? ==>
                  if k == p.maximumAttempts then
                    && decision.value == Finished(RetryExhausted)
                    && id !in StateAfter(p, after).inFlight && id !in StateAfter(p, after).attempts
                    && RetriesSince(p, after, id) == 0
                  else
                    && decision.value == Retry(if d.RetryAfter? then d.delay else QueuedRetryDelay(p, k + 1), d.QueuedForApplication?)
                    && RetriesSince(p, after, id) == k + 1
                    && (id in StateAfter(p, after).inFlight <==> id in StateAfter(p, calls).inFlight))
            && (d.Completed? ==> decision.value == Finished(CompletedOutcome))
            && (d.AlreadyProcessed? ==> decision.value == Finished(AlreadyProcessedOutcome))
            && (d.Rejected? ==> decision.value == Finished(RejectedOutcome(d.code)))
            && (decision.value.Finished? ==>
                  id !in StateAfter(p, after).inFlight && id !in StateAfter(p, after).attempts && RetriesSince(p, after, id) == 0)
            && (other != id ==>
                  && RetriesSince(p, after, other) == RetriesSince(p, calls, other)
                  && (other in StateAfter(p, after).inFlight <==> other in StateAfter(p, calls).inFlight))
  {
    var after := calls + [Handle(id, d)];
    assert after[..|after| - 1] == calls && after[..|calls|] == calls;
    CounterCountsRetries(p, calls, id);
    CounterCountsRetries(p, after, id);
  }

  // ---- The coordinator ----

  class ForegroundWakeCoordinator {
    var inFlight: set<Id>
    var retryAttempts: map<Id, nat>
    const policy: Policy

    ghost function Contents(): State
      reads this
    {
      State(inFlight, retryAttempts)
    }

    constructor (p: Policy)
      ensures Contents() == State({}, map[]) && policy == p
    {
      inFlight, retryAttempts, policy := {}, map[], p;
    }

    /** Claims process-local ownership; false for a duplicate task. */
    method Begin(id: Id) returns (claimed: bool)
      modifies this
      ensures Contents() == Step(policy, old(Contents()), Call.Begin(id)).0
      ensures inFlight == old(inFlight) + {id} && retryAttempts == old(retryAttempts)
      ensures claimed <==> id !in old(inFlight)
    {
      claimed := id !in inFlight;
      inFlight := inFlight + {id};
    }

    method RetryDue(id: Id) returns (owned: bool)
      modifies this
      ensures Contents() == Step(policy, old(Contents()), Call.RetryDue(id)).0
      ensures inFlight == old(inFlight) - {id} && retryAttempts == old(retryAttempts)
      ensures owned <==> id in old(inFlight)
    {
      owned := id in inFlight;
      inFlight := inFlight - {id};
    }

    method Forget(id: Id)
      modifies this
      ensures Contents() == Forgotten(old(Contents()), id)
      ensures inFlight == old(inFlight) - {id} && retryAttempts == old(retryAttempts) - {id}
    {
      inFlight := inFlight - {id};
      retryAttempts := retryAttempts - {id};
    }

    method Reset()
      modifies this
      ensures Contents() == State({}, map[])
    {
      inFlight := {};
      retryAttempts := map[];
    }

    method Finish(id: Id, outcome: Outcome) returns (decision: Decision)
      modifies this
      ensures Contents() == Forgotten(old(Contents()), id) && decision == Finished(outcome)
    {
      Forget(id);
      decision := Finished(outcome);
    }

    /** Counts one more retry unless the allowance is used up. */
    method NextAttempt(id: Id) returns (attempt: Option<nat>)
      modifies this`retryAttempts
      ensures attempt == if Attempts(old(Contents()), id) >= policy.maximumAttempts then None
                         else Some(Attempts(old(Contents()), id) + 1)
      ensures Forgotten(Contents(), id) == Forgotten(old(Contents()), id)
      ensures attempt.Some? ==> retryAttempts == old(retryAttempts)[id := attempt.value]
    {
      if id !in retryAttempts {
        retryAttempts := retryAttempts[id := 0];
      }
      if retryAttempts[id] >= policy.maximumAttempts {
        return None;
      }
      retryAttempts := retryAttempts[id := retryAttempts[id] + 1];
      return Some(retryAttempts[id]);
    }

    method HandleWake(id: Id, d: Disposition) returns (decision: Decision)
      modifies this
      ensures (Contents(), decision) == HandleDisposition(policy, old(Contents()), id, d)
    {
      match d {
        case Completed => decision := Finish(id, CompletedOutcome);
        case AlreadyProcessed => decision := Finish(id, AlreadyProcessedOutcome);
        case Rejected(code) => decision := Finish(id, RejectedOutcome(code));
        case RetryAfter(delay) =>
          var attempt := NextAttempt(id);
          if attempt.Some? {
            decision := Retry(delay, false);
          } else {
            decision := Finish(id, RetryExhausted);
          }
        case QueuedForApplication =>
          var attempt := NextAttempt(id);
          if attempt.Some? {
            decision := Retry(QueuedRetryDelay(policy, attempt.value), true);
          } else {
            decision := Finish(id, RetryExhausted);
          }
      }
    }
  }
}
