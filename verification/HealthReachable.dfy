/** The exact set of states an upstream can reach: the invariant with its timing bounds, in both directions. */
module HealthReachable {
  import opened HealthSpec
  import opened HealthInvariant

  /** The part of a state that decides what happens next; the rest only reports. */
  datatype Core = Core(state: State, failures: nat, ejectedUntil: nat, window: nat, successes: nat, lastApplied: nat)

  function CoreOf(s: Upstream): Core {
    Core(s.state, s.consecutiveFailures, s.ejectedUntil, s.openWindowUntil, s.halfOpenSuccesses, s.lastAppliedEventAt)
  }

  /** Every failed recovery keeps the upstream ejected for a whole interval, and every recovery success
      needs a time stamp of its own. */
  ghost predicate Timely(p: Policy, s: Upstream) {
    && (s.Opened() && p.failureThreshold <= s.consecutiveFailures ==>
          (s.consecutiveFailures - p.failureThreshold + 1) * p.openInterval <= s.openWindowUntil)
    && (0 < s.halfOpenSuccesses ==> s.openWindowUntil + s.halfOpenSuccesses - 1 <= s.lastAppliedEventAt)
  }

  /** An ejection: the window it opens is an interval later than the one it follows. */
  lemma EjectionIsTimely(p: Policy, s: Upstream, e: Event)
    requires Inv(p, s) && Timely(p, s) && Accepts(s, e.at) && Step(p, s, e).state == Open
    ensures Timely(p, Step(p, s, e))
  {
    var i, k := p.openInterval, s.consecutiveFailures - p.failureThreshold + 1;
    assert (k + 1) * i == k * i + i;
  }

  lemma DoKeepsTimely(p: Policy, s: Upstream, c: Call)
    requires Inv(p, s) && Timely(p, s)
    ensures Timely(p, Do(p, s, c))
  {
    if c.Record? && Accepts(s, c.event.at) && Step(p, s, c.event).state == Open {
      EjectionIsTimely(p, s, c.event);
    }
  }

  lemma {:induction false} ReachableIsTimely(p: Policy, calls: seq<Call>)
    ensures Inv(p, Exec(p, INITIAL, calls)) && Timely(p, Exec(p, INITIAL, calls))
  {
    ExecKeepsInv(p, INITIAL, calls);
    if calls != [] {
      ReachableIsTimely(p, Front(calls));
      DoKeepsTimely(p, Exec(p, INITIAL, Front(calls)), Last(calls));
    }
  }

  lemma Extend(p: Policy, calls: seq<Call>, c: Call)
    ensures Exec(p, INITIAL, calls + [c]) == Do(p, Exec(p, INITIAL, calls), c)
  {
    assert Front(calls + [c]) == calls;
  }

  lemma {:induction false} ReachClosed(p: Policy, state: State, failures: nat) returns (calls: seq<Call>)
    requires state == Unknown || state == Healthy
    requires failures < p.failureThreshold
    ensures CoreOf(Exec(p, INITIAL, calls)) == Core(state, failures, 0, 0, 0, 0)
  {
    if failures == 0 {
      calls := [];
      if state == Healthy {
        Extend(p, calls, Record(RequestSuccess(0)));
        calls := calls + [Record(RequestSuccess(0))];
      }
    } else {
      var before := ReachClosed(p, state, failures - 1);
      Extend(p, before, Record(ProbeFailure(0, "")));
      calls := before + [Record(ProbeFailure(0, ""))];
    }
  }

  lemma {:induction false} ReachOpen(p: Policy, relapses: nat, at: nat) returns (calls: seq<Call>)
    requires relapses * p.openInterval <= at
    ensures CoreOf(Exec(p, INITIAL, calls))
         == Core(Open, p.failureThreshold + relapses, at + p.openInterval, at + p.openInterval, 0, at)
    decreases relapses
  {
    var before;
    if relapses == 0 {
      before := ReachClosed(p, Unknown, p.failureThreshold - 1);
    } else {
      assert relapses * p.openInterval == (relapses - 1) * p.openInterval + p.openInterval;
      before := ReachOpen(p, relapses - 1, at - p.openInterval);
    }
    Extend(p, before, Record(ProbeFailure(at, "")));
    calls := before + [Record(ProbeFailure(at, ""))];
  }

  lemma {:induction false} ReachHalfOpen(p: Policy, relapses: nat, at: nat, successes: nat) returns (calls: seq<Call>)
    requires relapses * p.openInterval <= at && successes < p.recoverySuccessThreshold
    ensures CoreOf(Exec(p, INITIAL, calls))
         == Core(HalfOpen, p.failureThreshold + relapses, 0, at + p.openInterval, successes,
                 if successes == 0 then at else at + p.openInterval + successes - 1)
    decreases successes
  {
    if successes == 0 {
      var before := ReachOpen(p, relapses, at);
      Extend(p, before, Read(at + p.openInterval));
      calls := before + [Read(at + p.openInterval)];
    } else {
      var before := ReachHalfOpen(p, relapses, at, successes - 1);
      var c := Record(ProbeSuccess(at + p.openInterval + successes - 1));
      Extend(p, before, c);
      calls := before + [c];
    }
  }

  /** A state that satisfies the invariant and the timing bounds is reached by some run. */
  lemma TimelyIsReachable(p: Policy, s: Upstream) returns (calls: seq<Call>)
    requires Inv(p, s) && Timely(p, s)
    ensures CoreOf(Exec(p, INITIAL, calls)) == CoreOf(s)
  {
    var i := p.openInterval;
    if s.Opened() {
      var relapses := s.consecutiveFailures - p.failureThreshold;
      assert (relapses + 1) * i == relapses * i + i;
      if s.state == Open {
        calls := ReachOpen(p, relapses, s.openWindowUntil - i);
      } else {
        calls := ReachHalfOpen(p, relapses, s.openWindowUntil - i, s.halfOpenSuccesses);
      }
    } else {
      calls := ReachClosed(p, s.state, s.consecutiveFailures);
    }
    // An event that only moves the acceptance floor brings the last time stamp to where it has to be.
    if Exec(p, INITIAL, calls).lastAppliedEventAt < s.lastAppliedEventAt {
      var c := Record(RequestFailure(s.lastAppliedEventAt, false, false, ""));
      Extend(p, calls, c);
      calls := calls + [c];
    }
  }

  lemma CoreDecides(p: Policy, s: Upstream, t: Upstream)
    requires CoreOf(s) == CoreOf(t) && Inv(p, s) && Timely(p, s)
    ensures Inv(p, t) && Timely(p, t)
  {
  }

  ghost predicate Reachable(p: Policy, s: Upstream) {
    exists calls :: CoreOf(Exec(p, INITIAL, calls)) == CoreOf(s)
  }

  /** The invariant is exact: it holds of the states some run reaches and of no others. */
  lemma ExactlyTheReachableStates(p: Policy, s: Upstream)
    ensures Reachable(p, s) <==> Inv(p, s) && Timely(p, s)
  {
    if Reachable(p, s) {
      var calls :| CoreOf(Exec(p, INITIAL, calls)) == CoreOf(s);
      ReachableIsTimely(p, calls);
      CoreDecides(p, Exec(p, INITIAL, calls), s);
    } else if Inv(p, s) && Timely(p, s) {
      var calls := TimelyIsReachable(p, s);
    }
  }
}
