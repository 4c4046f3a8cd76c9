/** The stand-alone circuit breaker, and the proof that the health runtime refines it.

    Every call reads the clock once; two readings inside one call are the same instant. */
module CircuitBreaker {
  import opened HealthSpec

  datatype Circuit = Circuit(failures: nat, successes: nat, state: BreakerState, openedAt: nat)

  const FRESH := Circuit(0, 0, BreakerClosed, 0)

  function Current(p: Policy, b: Circuit, now: nat): Circuit {
    if b.state == BreakerOpen && b.openedAt + p.openInterval <= now then b.(state := BreakerHalfOpen) else b
  }

  function OnFailure(p: Policy, b: Circuit, now: nat): Circuit {
    var c := Current(p, b, now);
    match c.state
    case BreakerHalfOpen => c.(state := BreakerOpen, openedAt := now, successes := 0)
    case BreakerOpen => c
    case BreakerClosed =>
      if p.failureThreshold <= c.failures + 1
      then c.(state := BreakerOpen, openedAt := now, failures := 0)
      else c.(failures := c.failures + 1)
  }

  function OnSuccess(p: Policy, b: Circuit, now: nat): Circuit {
    var c := Current(p, b, now);
    if c.state != BreakerHalfOpen then c.(failures := 0)
    else if p.recoverySuccessThreshold <= c.successes + 1
    then c.(state := BreakerClosed, successes := 0, failures := 0)
    else c.(successes := c.successes + 1)
  }

  class Breaker {
    const policy: Policy
    var failures: nat
    var successes: nat
    var state: BreakerState
    var openedAt: nat

    function Value(): Circuit
      reads this
    {
      Circuit(failures, successes, state, openedAt)
    }

    constructor (policy: Policy)
      ensures this.policy == policy && Value() == FRESH
    {
      this.policy := policy;
      failures, successes, state, openedAt := 0, 0, BreakerClosed, 0;
    }

    method CurrentState(now: nat) returns (s: BreakerState)
      modifies this
      ensures Value() == Current(policy, old(Value()), now) && s == state
    {
      if state == BreakerOpen && now - openedAt >= policy.openInterval {
        state := BreakerHalfOpen;
      }
      return state;
    }

    method RecordFailure(now: nat)
      modifies this
      ensures Value() == OnFailure(policy, old(Value()), now)
    {
      var s := CurrentState(now);
      if s == BreakerHalfOpen {
        state := BreakerOpen;
        openedAt := now;
        successes := 0;
        return;
      } else if s == BreakerOpen {
        return;
      }
      failures := failures + 1;
      if failures >= policy.failureThreshold {
        state := BreakerOpen;
        openedAt := now;
        failures := 0;
      }
    }

    method RecordSuccess(now: nat)
      modifies this
      ensures Value() == OnSuccess(policy, old(Value()), now)
    {
      var s := CurrentState(now);
      if s == BreakerHalfOpen {
        successes := successes + 1;
        if successes >= policy.recoverySuccessThreshold {
          state := BreakerClosed;
          successes := 0;
          failures := 0;
        }
      } else {
        failures := 0;
      }
    }
  }
}

module BreakerSimulation {
  import opened HealthSpec
  import opened HealthInvariant
  import opened CircuitBreaker

  /** What happens to both machines at one instant: a probe result, or somebody asking for the state. */
  datatype Tick = Success(at: nat) | Failure(at: nat, error: string) | Ask(at: nat)

  function RuntimeCall(t: Tick): Call {
    match t
    case Success(at) => Record(ProbeSuccess(at))
    case Failure(at, error) => Record(ProbeFailure(at, error))
    case Ask(at) => Read(at)
  }

  function Rest(ticks: seq<Tick>): seq<Tick>
    requires ticks != []
  {
    ticks[..|ticks| - 1]
  }

  function Final(ticks: seq<Tick>): Tick
    requires ticks != []
  {
    ticks[|ticks| - 1]
  }

  function RunHealth(p: Policy, ticks: seq<Tick>): Upstream {
    if ticks == [] then INITIAL else Do(p, RunHealth(p, Rest(ticks)), RuntimeCall(Final(ticks)))
  }

  function RunBreaker(p: Policy, ticks: seq<Tick>): Circuit {
    if ticks == [] then FRESH
    else
      var b := RunBreaker(p, Rest(ticks));
      match Final(ticks)
      case Success(at) => OnSuccess(p, b, at)
      case Failure(at, _) => OnFailure(p, b, at)
      case Ask(at) => Current(p, b, at)
  }

  /** One clock drives both: it never moves back, and no two probe results share an instant. */
  ghost predicate Chronological(ticks: seq<Tick>) {
    forall i, j :: 0 <= i < j < |ticks| ==>
      ticks[i].at <= ticks[j].at && (!ticks[i].Ask? && !ticks[j].Ask? ==> ticks[i].at < ticks[j].at)
  }

  /** The relation between the two machines; now is not earlier than anything that happened. */
  ghost predicate Related(p: Policy, s: Upstream, b: Circuit, now: nat) {
    && Inv(p, s)
    && s.lastAppliedEventAt <= now
    && (!s.Opened() ==> b.state == BreakerClosed && b.failures == s.consecutiveFailures && b.successes == 0)
    && (s.Opened() ==>
          && b.state != BreakerClosed && b.failures == 0
          && s.openWindowUntil == b.openedAt + p.openInterval
          && s.halfOpenSuccesses == b.successes
          && (s.state == Open <==> b.state == BreakerOpen)
          && (s.state == HalfOpen ==> s.openWindowUntil <= now))
  }

  lemma AskKeepsRelated(p: Policy, s: Upstream, b: Circuit, now: nat, at: nat)
    requires Related(p, s, b, now) && now <= at
    ensures Related(p, Refresh(s, at), Current(p, b, at), at)
  {
    DoKeepsInv(p, s, Read(at));
  }

  lemma SuccessKeepsRelated(p: Policy, s: Upstream, b: Circuit, now: nat, at: nat)
    requires Related(p, s, b, now) && now <= at && (s.lastAppliedEventAt == 0 || s.lastAppliedEventAt < at)
    ensures Related(p, Step(p, s, ProbeSuccess(at)), OnSuccess(p, b, at), at)
  {
    DoKeepsInv(p, s, Record(ProbeSuccess(at)));
  }

  lemma FailureKeepsRelated(p: Policy, s: Upstream, b: Circuit, now: nat, at: nat, error: string)
    requires Related(p, s, b, now) && now <= at && (s.lastAppliedEventAt == 0 || s.lastAppliedEventAt < at)
    ensures Related(p, Step(p, s, ProbeFailure(at, error)), OnFailure(p, b, at), at)
  {
    DoKeepsInv(p, s, Record(ProbeFailure(at, error)));
  }

  lemma {:induction false} FloorIsAProbe(p: Policy, ticks: seq<Tick>)
    ensures var floor := RunHealth(p, ticks).lastAppliedEventAt;
            floor == 0 || exists t :: t in ticks && !t.Ask? && t.at == floor
  {
    if ticks != [] {
      FloorIsAProbe(p, Rest(ticks));
      FloorAfter(p, RunHealth(p, Rest(ticks)), RuntimeCall(Final(ticks)));
      var floor := RunHealth(p, ticks).lastAppliedEventAt;
      if floor != 0 {
        if t :| t in Rest(ticks) && !t.Ask? && t.at == floor {
          assert t in ticks;
        } else {
          assert Final(ticks) in ticks;
        }
      }
    }
  }

  lemma {:induction false} RunsStayRelated(p: Policy, ticks: seq<Tick>)
    requires Chronological(ticks)
    ensures Related(p, RunHealth(p, ticks), RunBreaker(p, ticks), if ticks == [] then 0 else Final(ticks).at)
  {
    if ticks != [] {
      var rest, t := Rest(ticks), Final(ticks);
      var s := RunHealth(p, rest);
      RunsStayRelated(p, rest);
      FloorIsAProbe(p, rest);
      if !t.Ask? && s.lastAppliedEventAt != 0 {
        var u :| u in rest && !u.Ask? && u.at == s.lastAppliedEventAt;
      }
      var b, now := RunBreaker(p, rest), if rest == [] then 0 else Final(rest).at;
      match t
      case Ask(at) => AskKeepsRelated(p, s, b, now, at);
      case Success(at) => SuccessKeepsRelated(p, s, b, now, at);
      case Failure(at, error) => FailureKeepsRelated(p, s, b, now, at, error);
    }
  }

  /** After every chronological run, the breaker state the runtime reports is the one the breaker reports. */
  lemma RuntimeRefinesBreaker(p: Policy, ticks: seq<Tick>, now: nat)
    requires Chronological(ticks) && (ticks != [] ==> Final(ticks).at <= now)
    ensures BreakerStateFor(Refresh(RunHealth(p, ticks), now).state) == Current(p, RunBreaker(p, ticks), now).state
  {
    RunsStayRelated(p, ticks);
    AskKeepsRelated(p, RunHealth(p, ticks), RunBreaker(p, ticks), if ticks == [] then 0 else Final(ticks).at, now);
  }

  /** A success at time 2, then k failures that come late. */
  function LateFailures(k: nat): seq<Tick> {
    if k == 0 then [Success(2)] else LateFailures(k - 1) + [Failure(1, "")]
  }

  lemma OneMoreFailure(p: Policy, ticks: seq<Tick>)
    ensures RunHealth(p, ticks + [Failure(1, "")]) == Step(p, RunHealth(p, ticks), ProbeFailure(1, ""))
    ensures RunBreaker(p, ticks + [Failure(1, "")]) == OnFailure(p, RunBreaker(p, ticks), 1)
  {
    var all := ticks + [Failure(1, "")];
    assert Rest(all) == ticks && Final(all) == Failure(1, "");
  }

  lemma FirstSuccess(p: Policy)
    ensures RunHealth(p, [Success(2)]) == Step(p, INITIAL, ProbeSuccess(2)) && RunBreaker(p, [Success(2)]) == FRESH
  {
    assert Rest([Success(2)]) == [] && Final([Success(2)]) == Success(2);
  }

  lemma LateFailureIsDropped(p: Policy)
    ensures var s := Step(p, INITIAL, ProbeSuccess(2)); s.state == Healthy && Step(p, s, ProbeFailure(1, "")) == s
  {
  }

  lemma LateFailureIsCounted(p: Policy, k: nat)
    requires k < p.failureThreshold
    ensures k + 1 < p.failureThreshold ==> OnFailure(p, FRESH.(failures := k), 1) == FRESH.(failures := k + 1)
    ensures k + 1 == p.failureThreshold ==> OnFailure(p, FRESH.(failures := k), 1).state == BreakerOpen
  {
  }

  lemma {:induction false} LateFailuresCount(p: Policy, k: nat)
    requires k < p.failureThreshold
    ensures RunHealth(p, LateFailures(k)) == Step(p, INITIAL, ProbeSuccess(2))
    ensures RunBreaker(p, LateFailures(k)) == FRESH.(failures := k)
  {
    if k == 0 {
      FirstSuccess(p);
    } else {
      LateFailuresCount(p, k - 1);
      OneMoreFailure(p, LateFailures(k - 1));
      LateFailureIsDropped(p);
      LateFailureIsCounted(p, k - 1);
    }
  }

  /** The order of time stamps matters, whatever the parameters: the runtime drops late failures, the breaker
      counts them and opens. */
  lemma LateFailuresSeparateThem(p: Policy)
    ensures var ticks := LateFailures(p.failureThreshold);
            BreakerStateFor(RunHealth(p, ticks).state) == BreakerClosed && RunBreaker(p, ticks).state == BreakerOpen
  {
    LateFailuresCount(p, p.failureThreshold - 1);
    OneMoreFailure(p, LateFailures(p.failureThreshold - 1));
    LateFailureIsDropped(p);
    LateFailureIsCounted(p, p.failureThreshold - 1);
  }
}
