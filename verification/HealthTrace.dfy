/** The counters and windows of the state machine against the trace of accepted events that produced them. */
module HealthTrace {
  import opened HealthSpec
  import opened HealthInvariant

  function Init(events: seq<Event>): seq<Event>
    requires events != []
  {
    events[..|events| - 1]
  }

  function Latest(events: seq<Event>): Event
    requires events != []
  {
    events[|events| - 1]
  }

  ghost predicate Increasing(events: seq<Event>) {
    forall i, j :: 0 <= i < j < |events| ==> events[i].at < events[j].at
  }

  /** Strictly increasing once the first real time stamp is reached. */
  ghost predicate IncreasingFromFirst(events: seq<Event>) {
    forall i, j :: 0 <= i < j < |events| ==> events[i].at == 0 || events[i].at < events[j].at
  }

  ghost predicate AtMostOneUnstamped(events: seq<Event>) {
    forall i, j :: 0 <= i < j < |events| ==> events[i].at != 0 || events[j].at != 0
  }

  /** Counting failures after the last success. */
  function TrailingFailures(events: seq<Event>): nat {
    if events == [] || Latest(events).Success() then 0
    else TrailingFailures(Init(events)) + if Latest(events).CountingFailure() then 1 else 0
  }

  function CountingFailures(events: seq<Event>): nat {
    if events == [] then 0
    else CountingFailures(Init(events)) + if Latest(events).CountingFailure() then 1 else 0
  }

  /** The times of the probe successes that are later than t. */
  function ProbeSuccessesAfter(events: seq<Event>, t: int): seq<nat> {
    if events == [] then []
    else ProbeSuccessesAfter(Init(events), t) +
         if Latest(events).ProbeSuccess? && t < Latest(events).at then [Latest(events).at] else []
  }

  ghost predicate NoProbeFailureAfter(events: seq<Event>, t: int) {
    forall e :: e in events && e.ProbeFailure? ==> e.at <= t
  }

  ghost predicate StrictlyIncreasing(times: seq<nat>) {
    forall i, j :: 0 <= i < j < |times| ==> times[i] < times[j]
  }

  function AsCalls(events: seq<Event>): seq<Call> {
    seq(|events|, i requires 0 <= i < |events| => Record(events[i]))
  }

  lemma {:induction false} AcceptedStayBelowTheFloor(p: Policy, calls: seq<Call>)
    ensures forall e :: e in Accepted(p, INITIAL, calls) ==> e.at <= Exec(p, INITIAL, calls).lastAppliedEventAt
  {
    if calls != [] {
      AcceptedStayBelowTheFloor(p, Front(calls));
      Unfold(p, calls);
      FloorAfter(p, Exec(p, INITIAL, Front(calls)), Last(calls));
    }
  }

  lemma {:induction false} AcceptedIncreaseFromFirst(p: Policy, calls: seq<Call>)
    ensures IncreasingFromFirst(Accepted(p, INITIAL, calls))
  {
    if calls != [] {
      AcceptedIncreaseFromFirst(p, Front(calls));
      AcceptedStayBelowTheFloor(p, Front(calls));
    }
  }

  /** In every run the accepted events are strictly increasing in time from the first real time stamp on, and
      altogether exactly when no two of them carry the zero time. */
  lemma AcceptedIncrease(p: Policy, calls: seq<Call>)
    ensures var accepted := Accepted(p, INITIAL, calls);
            IncreasingFromFirst(accepted) && (Increasing(accepted) <==> AtMostOneUnstamped(accepted))
  {
    AcceptedIncreaseFromFirst(p, calls);
    var accepted := Accepted(p, INITIAL, calls);
    if AtMostOneUnstamped(accepted) {
      forall i, j | 0 <= i < j < |accepted|
        ensures accepted[i].at < accepted[j].at
      {
      }
    }
  }

  lemma Unfold(p: Policy, calls: seq<Call>)
    requires calls != []
    ensures Exec(p, INITIAL, calls) == Do(p, Exec(p, INITIAL, Front(calls)), Last(calls))
    ensures Accepted(p, INITIAL, calls)
         == if Last(calls).Record? && Accepts(Exec(p, INITIAL, Front(calls)), Last(calls).event.at)
            then Accepted(p, INITIAL, Front(calls)) + [Last(calls).event]
            else Accepted(p, INITIAL, Front(calls))
  {
  }

  lemma AsCallsSnoc(p: Policy, events: seq<Event>, e: Event)
    ensures AsCalls(events + [e]) == AsCalls(events) + [Record(e)]
    ensures Exec(p, INITIAL, AsCalls(events + [e])) == Step(p, Exec(p, INITIAL, AsCalls(events)), e)
    ensures Accepted(p, INITIAL, AsCalls(events + [e]))
         == Accepted(p, INITIAL, AsCalls(events)) + (if Accepts(Exec(p, INITIAL, AsCalls(events)), e.at) then [e] else [])
  {
    assert AsCalls(events + [e]) == AsCalls(events) + [Record(e)];
    assert Front(AsCalls(events) + [Record(e)]) == AsCalls(events);
  }

  lemma SameStep(p: Policy, a: Upstream, b: Upstream, c: Call)
    requires Inv(p, a) && Inv(p, b) && SameUpToRefresh(a, b)
    ensures c.Read? ==> SameUpToRefresh(Do(p, a, c), b)
    ensures c.Record? ==> (Accepts(a, c.event.at) <==> Accepts(b, c.event.at))
    ensures c.Record? ==> SameUpToRefresh(Do(p, a, c), Do(p, b, c))
  {
  }

  /** A run is the run of its accepted events: whatever was rejected left no trace. */
  lemma {:induction false} RunOfAcceptedEvents(p: Policy, calls: seq<Call>)
    ensures var accepted := Accepted(p, INITIAL, calls);
            && SameUpToRefresh(Exec(p, INITIAL, calls), Exec(p, INITIAL, AsCalls(accepted)))
            && Accepted(p, INITIAL, AsCalls(accepted)) == accepted
  {
    if calls == [] {
      assert AsCalls([]) == [];
    } else {
      var before := Accepted(p, INITIAL, Front(calls));
      var s, t := Exec(p, INITIAL, Front(calls)), Exec(p, INITIAL, AsCalls(before));
      RunOfAcceptedEvents(p, Front(calls));
      ExecKeepsInv(p, INITIAL, Front(calls));
      ExecKeepsInv(p, INITIAL, AsCalls(before));
      SameStep(p, s, t, Last(calls));
      Unfold(p, calls);
      if Last(calls).Record? && Accepts(s, Last(calls).event.at) {
        AsCallsSnoc(p, before, Last(calls).event);
      } else {
        assert Accepted(p, INITIAL, calls) == before;
        assert SameUpToRefresh(Do(p, s, Last(calls)), t);
      }
    }
  }

  /** When an upstream is ejected, this is the time of the event that ejected it. */
  function EjectedAt(p: Policy, s: Upstream): int {
    s.openWindowUntil - p.openInterval
  }

  lemma {:induction false} NothingIsLaterThanTheFloor(events: seq<Event>, t: int)
    requires forall e :: e in events ==> e.at <= t
    ensures ProbeSuccessesAfter(events, t) == []
  {
    if events != [] {
      NothingIsLaterThanTheFloor(Init(events), t);
    }
  }

  /** The counters of s are the counts of the accepted events, and the evidence lies after the window. */
  ghost predicate CountersMatch(p: Policy, s: Upstream, accepted: seq<Event>) {
    && (forall e :: e in accepted ==> e.at <= s.lastAppliedEventAt)
    && (!s.Opened() ==> s.consecutiveFailures == TrailingFailures(accepted))
    && (s.Opened() ==>
          var evidence := ProbeSuccessesAfter(accepted, EjectedAt(p, s));
          && s.halfOpenSuccesses == |evidence|
          && (forall x :: x in evidence ==> s.openWindowUntil <= x)
          && NoProbeFailureAfter(accepted, EjectedAt(p, s)))
  }

  lemma CountsAfter(events: seq<Event>, e: Event, t: int)
    ensures TrailingFailures(events + [e])
         == if e.Success() then 0 else TrailingFailures(events) + if e.CountingFailure() then 1 else 0
    ensures ProbeSuccessesAfter(events + [e], t)
         == ProbeSuccessesAfter(events, t) + if e.ProbeSuccess? && t < e.at then [e.at] else []
  {
    assert Init(events + [e]) == events;
  }

  lemma EjectionKeepsCounters(p: Policy, s: Upstream, accepted: seq<Event>, e: Event)
    requires Inv(p, s) && CountersMatch(p, s, accepted) && Accepts(s, e.at) && Step(p, s, e).state == Open
    ensures CountersMatch(p, Step(p, s, e), accepted + [e])
  {
    assert EjectedAt(p, Step(p, s, e)) == e.at && s.lastAppliedEventAt <= e.at;
    NothingIsLaterThanTheFloor(accepted + [e], e.at);
  }

  lemma HalfOpenKeepsCounters(p: Policy, s: Upstream, accepted: seq<Event>, e: Event)
    requires Inv(p, s) && CountersMatch(p, s, accepted) && Accepts(s, e.at) && Step(p, s, e).state == HalfOpen
    ensures CountersMatch(p, Step(p, s, e), accepted + [e])
  {
    assert s.Opened() && EjectedAt(p, Step(p, s, e)) == EjectedAt(p, s) && !e.ProbeFailure?;
    CountsAfter(accepted, e, EjectedAt(p, s));
  }

  lemma ServiceKeepsCounters(p: Policy, s: Upstream, accepted: seq<Event>, e: Event)
    requires Inv(p, s) && CountersMatch(p, s, accepted) && Accepts(s, e.at) && !Step(p, s, e).Opened()
    ensures CountersMatch(p, Step(p, s, e), accepted + [e])
  {
    CountsAfter(accepted, e, 0);
  }

  lemma StepKeepsCounters(p: Policy, s: Upstream, accepted: seq<Event>, e: Event)
    requires Inv(p, s) && CountersMatch(p, s, accepted) && Accepts(s, e.at)
    ensures CountersMatch(p, Step(p, s, e), accepted + [e])
  {
    var t := Step(p, s, e);
    if t.state == Open {
      EjectionKeepsCounters(p, s, accepted, e);
    } else if t.state == HalfOpen {
      HalfOpenKeepsCounters(p, s, accepted, e);
    } else {
      ServiceKeepsCounters(p, s, accepted, e);
    }
  }

  lemma ReadKeepsCounters(p: Policy, s: Upstream, accepted: seq<Event>, now: nat)
    requires Inv(p, s) && CountersMatch(p, s, accepted)
    ensures CountersMatch(p, Refresh(s, now), accepted)
  {
  }

  /** The incremental counters are the counts of the trace. */
  lemma {:induction false} CountersMatchTheTrace(p: Policy, calls: seq<Call>)
    ensures CountersMatch(p, Exec(p, INITIAL, calls), Accepted(p, INITIAL, calls))
  {
    if calls != [] {
      var s := Exec(p, INITIAL, Front(calls));
      CountersMatchTheTrace(p, Front(calls));
      ExecKeepsInv(p, INITIAL, Front(calls));
      Unfold(p, calls);
      if Last(calls).Record? && Accepts(s, Last(calls).event.at) {
        StepKeepsCounters(p, s, Accepted(p, INITIAL, Front(calls)), Last(calls).event);
      } else if Last(calls).Read? {
        ReadKeepsCounters(p, s, Accepted(p, INITIAL, Front(calls)), Last(calls).now);
      }
    }
  }

  // Spacing of ejections

  /** recovered says whether the upstream was in service when it was ejected; if not, a recovery attempt failed. */
  datatype Opening = Opening(at: nat, recovered: bool)

  function Openings(p: Policy, calls: seq<Call>): seq<Opening> {
    if calls == [] then []
    else
      var before := Exec(p, INITIAL, Front(calls));
      var c := Last(calls);
      Openings(p, Front(calls)) +
      if c.Record? && Accepts(before, c.event.at) && Step(p, before, c.event).state == Open
      then [Opening(c.event.at, !before.Opened())]
      else []
  }

  function LeastGap(p: Policy, o: Opening): nat {
    if o.recovered then p.openInterval + p.recoverySuccessThreshold - 1 + p.failureThreshold else p.openInterval
  }

  function LeastFailures(p: Policy, os: seq<Opening>): nat {
    if os == [] then 0
    else LeastFailures(p, os[..|os| - 1]) + if os[|os| - 1].recovered then p.failureThreshold else 1
  }

  ghost predicate Spaced(p: Policy, os: seq<Opening>) {
    && (os != [] ==> os[0].recovered)
    && forall i :: 1 <= i < |os| ==> os[i - 1].at + LeastGap(p, os[i]) <= os[i].at
  }

  /** What the latest ejection says about s, given the number of counting failures accepted so far. */
  ghost predicate SpacingHolds(p: Policy, s: Upstream, os: seq<Opening>, failures: nat) {
    && Spaced(p, os)
    && (os == [] ==> !s.Opened() && s.consecutiveFailures <= failures)
    && (os != [] && s.Opened() ==>
          && s.openWindowUntil == os[|os| - 1].at + p.openInterval
          && (0 < s.halfOpenSuccesses ==> s.openWindowUntil + s.halfOpenSuccesses - 1 <= s.lastAppliedEventAt)
          && LeastFailures(p, os) <= failures)
    && (os != [] && !s.Opened() ==>
          && os[|os| - 1].at + p.openInterval + p.recoverySuccessThreshold - 1 + s.consecutiveFailures
             <= s.lastAppliedEventAt
          && LeastFailures(p, os) + s.consecutiveFailures <= failures)
  }

  lemma EjectionKeepsSpacing(p: Policy, s: Upstream, os: seq<Opening>, failures: nat, e: Event)
    requires Inv(p, s) && SpacingHolds(p, s, os, failures) && Accepts(s, e.at) && Step(p, s, e).state == Open
    ensures SpacingHolds(p, Step(p, s, e), os + [Opening(e.at, !s.Opened())], failures + 1)
    ensures e.CountingFailure()
  {
    var o := Opening(e.at, !s.Opened());
    assert (os + [o])[..|os + [o]| - 1] == os;
    assert os != [] ==> os[|os| - 1].at + LeastGap(p, o) <= e.at;
  }

  lemma ServiceKeepsSpacing(p: Policy, s: Upstream, os: seq<Opening>, failures: nat, e: Event)
    requires Inv(p, s) && SpacingHolds(p, s, os, failures) && Accepts(s, e.at) && Step(p, s, e).state != Open
    ensures SpacingHolds(p, Step(p, s, e), os, failures + if e.CountingFailure() then 1 else 0)
  {
    var t := Step(p, s, e);
    assert s.Opened() && !t.Opened() ==> e.ProbeSuccess? && s.openWindowUntil + p.recoverySuccessThreshold - 1 <= e.at;
  }

  lemma StepKeepsSpacing(p: Policy, s: Upstream, os: seq<Opening>, failures: nat, e: Event)
    requires Inv(p, s) && SpacingHolds(p, s, os, failures) && Accepts(s, e.at)
    ensures var t := Step(p, s, e);
            SpacingHolds(p, t, if t.state == Open then os + [Opening(e.at, !s.Opened())] else os,
                         failures + if e.CountingFailure() then 1 else 0)
  {
    if Step(p, s, e).state == Open {
      EjectionKeepsSpacing(p, s, os, failures, e);
    } else {
      ServiceKeepsSpacing(p, s, os, failures, e);
    }
  }

  lemma ReadKeepsSpacing(p: Policy, s: Upstream, os: seq<Opening>, failures: nat, now: nat)
    requires Inv(p, s) && SpacingHolds(p, s, os, failures)
    ensures SpacingHolds(p, Refresh(s, now), os, failures)
  {
  }

  lemma UnfoldOpenings(p: Policy, calls: seq<Call>)
    requires calls != []
    ensures var s, c, os := Exec(p, INITIAL, Front(calls)), Last(calls), Openings(p, Front(calls));
            Openings(p, calls)
            == if c.Record? && Accepts(s, c.event.at) && Step(p, s, c.event).state == Open
               then os + [Opening(c.event.at, !s.Opened())]
               else os
  {
  }

  lemma OneMoreEvent(events: seq<Event>, e: Event)
    ensures CountingFailures(events + [e]) == CountingFailures(events) + if e.CountingFailure() then 1 else 0
  {
    assert Init(events + [e]) == events;
  }

  lemma CallKeepsSpacing(p: Policy, s: Upstream, os: seq<Opening>, events: seq<Event>, c: Call)
    requires Inv(p, s) && SpacingHolds(p, s, os, CountingFailures(events))
    ensures var accepted := c.Record? && Accepts(s, c.event.at);
            SpacingHolds(p, Do(p, s, c),
                         if accepted && Step(p, s, c.event).state == Open then os + [Opening(c.event.at, !s.Opened())] else os,
                         CountingFailures(if accepted then events + [c.event] else events))
  {
    match c
    case Record(e) =>
      if Accepts(s, e.at) {
        OneMoreEvent(events, e);
        StepKeepsSpacing(p, s, os, CountingFailures(events), e);
      }
    case Read(now) =>
      ReadKeepsSpacing(p, s, os, CountingFailures(events), now);
  }

  /** Ejections of one upstream keep their distance and cost a minimum number of accepted counting failures. */
  lemma {:induction false} EjectionsAreSpaced(p: Policy, calls: seq<Call>)
    ensures SpacingHolds(p, Exec(p, INITIAL, calls), Openings(p, calls),
                         CountingFailures(Accepted(p, INITIAL, calls)))
  {
    if calls != [] {
      EjectionsAreSpaced(p, Front(calls));
      ExecKeepsInv(p, INITIAL, Front(calls));
      Unfold(p, calls);
      UnfoldOpenings(p, calls);
      CallKeepsSpacing(p, Exec(p, INITIAL, Front(calls)), Openings(p, Front(calls)),
                       Accepted(p, INITIAL, Front(calls)), Last(calls));
    }
  }

  lemma {:induction false} SpacedSpan(p: Policy, os: seq<Opening>)
    requires Spaced(p, os) && os != []
    ensures os[0].at + (|os| - 1) * p.openInterval <= os[|os| - 1].at
    ensures p.failureThreshold + |os| - 1 <= LeastFailures(p, os)
  {
    var front := os[..|os| - 1];
    if front != [] {
      SpacedSpan(p, front);
      assert (|os| - 1) * p.openInterval == (|front| - 1) * p.openInterval + p.openInterval;
    } else {
      assert LeastFailures(p, front) == 0;
    }
  }

  /** k ejections span at least k - 1 intervals and need at least failureThreshold + k - 1 counting failures. */
  lemma EjectionsTakeTimeAndFailures(p: Policy, calls: seq<Call>)
    requires Openings(p, calls) != []
    ensures var os := Openings(p, calls);
            && os[0].at + (|os| - 1) * p.openInterval <= os[|os| - 1].at
            && p.failureThreshold + |os| - 1 <= CountingFailures(Accepted(p, INITIAL, calls))
  {
    EjectionsAreSpaced(p, calls);
    SpacedSpan(p, Openings(p, calls));
  }

  // Recovery

  lemma {:induction false} EvidenceIsOrdered(events: seq<Event>, t: nat)
    requires IncreasingFromFirst(events)
    ensures StrictlyIncreasing(ProbeSuccessesAfter(events, t))
    ensures events != [] ==> forall x :: x in ProbeSuccessesAfter(events, t) ==> 0 < x && x <= Latest(events).at
  {
    if events != [] {
      var before := ProbeSuccessesAfter(Init(events), t);
      EvidenceIsOrdered(Init(events), t);
      assert Init(events) != [] ==> Latest(Init(events)).at == 0 || Latest(Init(events)).at < Latest(events).at;
      assert forall x :: x in before ==> x < Latest(events).at;
      assert forall i :: 0 <= i < |before| ==> before[i] in before;
    }
  }

  /** Between an ejection and the next time it serves, an upstream is put back by one call. */
  lemma {:induction false} RestoringCall(p: Policy, before: seq<Call>, after: seq<Call>) returns (i: nat)
    requires Exec(p, INITIAL, before).Opened() && !Exec(p, INITIAL, before + after).Opened()
    ensures i < |after|
    ensures Exec(p, INITIAL, before + after[..i]).Opened()
    ensures !Exec(p, INITIAL, before + after[..i] + [after[i]]).Opened()
  {
    assert after == [] ==> before + after == before;
    if Exec(p, INITIAL, before + Front(after)).Opened() {
      i := |after| - 1;
      assert before + after == before + after[..i] + [after[i]];
    } else {
      i := RestoringCall(p, before, Front(after));
      assert Front(after)[..i] == after[..i];
    }
  }

  lemma RestoringStep(p: Policy, s: Upstream, accepted: seq<Event>, c: Call) returns (e: Event)
    requires Inv(p, s) && CountersMatch(p, s, accepted)
    requires s.Opened() && !Do(p, s, c).Opened()
    ensures c == Record(e) && e.ProbeSuccess? && Accepts(s, e.at) && Do(p, s, c).state == Healthy
    ensures var evidence := ProbeSuccessesAfter(accepted + [e], EjectedAt(p, s));
            && |evidence| == p.recoverySuccessThreshold
            && (forall x :: x in evidence ==> s.openWindowUntil <= x)
    ensures NoProbeFailureAfter(accepted + [e], EjectedAt(p, s))
  {
    assert c.Record? && c.event.ProbeSuccess? && Accepts(s, c.event.at);
    e := c.event;
    assert Init(accepted + [e]) == accepted && Latest(accepted + [e]) == e;
    assert p.recoverySuccessThreshold == s.halfOpenSuccesses + 1;
  }

  lemma AfterOneMore(p: Policy, calls: seq<Call>, e: Event)
    requires Accepts(Exec(p, INITIAL, calls), e.at)
    ensures Exec(p, INITIAL, calls + [Record(e)]) == Step(p, Exec(p, INITIAL, calls), e)
    ensures Accepted(p, INITIAL, calls + [Record(e)]) == Accepted(p, INITIAL, calls) + [e]
    ensures Step(p, Exec(p, INITIAL, calls), e).state != Open ==> Openings(p, calls + [Record(e)]) == Openings(p, calls)
  {
    assert Front(calls + [Record(e)]) == calls && Last(calls + [Record(e)]) == Record(e);
    Unfold(p, calls + [Record(e)]);
    UnfoldOpenings(p, calls + [Record(e)]);
  }

  lemma EjectionTimeIsNatural(p: Policy, s: Upstream)
    requires Inv(p, s) && s.Opened()
    ensures 0 <= EjectedAt(p, s)
  {
  }

  lemma RecoveryAt(p: Policy, calls: seq<Call>, c: Call) returns (ejectedAt: nat)
    requires Exec(p, INITIAL, calls).Opened() && !Do(p, Exec(p, INITIAL, calls), c).Opened()
    ensures c.Record? && c.event.ProbeSuccess?
    ensures Recovered(p, calls + [c], ejectedAt)
  {
    var s, accepted := Exec(p, INITIAL, calls), Accepted(p, INITIAL, calls);
    ExecKeepsInv(p, INITIAL, calls);
    CountersMatchTheTrace(p, calls);
    LatestOpening(p, calls);
    EjectionTimeIsNatural(p, s);
    ejectedAt := EjectedAt(p, s);
    var e := RestoringStep(p, s, accepted, c);
    AfterOneMore(p, calls, e);
    AcceptedIncreaseFromFirst(p, calls + [c]);
    EvidenceIsOrdered(accepted + [e], ejectedAt);
  }

  lemma LatestOpening(p: Policy, calls: seq<Call>)
    requires Exec(p, INITIAL, calls).Opened()
    ensures var os := Openings(p, calls);
            os != [] && os[|os| - 1].at == EjectedAt(p, Exec(p, INITIAL, calls))
  {
    EjectionsAreSpaced(p, calls);
  }

  /** The run ends in service, and since the latest ejection it accepted recoverySuccessThreshold probe
      successes with different time stamps, none inside the ejection window, and no probe failure. */
  ghost predicate Recovered(p: Policy, calls: seq<Call>, ejectedAt: nat) {
    var os := Openings(p, calls);
    var evidence := ProbeSuccessesAfter(Accepted(p, INITIAL, calls), ejectedAt);
    && Exec(p, INITIAL, calls).state == Healthy
    && os != [] && os[|os| - 1].at == ejectedAt
    && |evidence| == p.recoverySuccessThreshold
    && StrictlyIncreasing(evidence)
    && (forall x :: x in evidence ==> ejectedAt + p.openInterval <= x)
    && NoProbeFailureAfter(Accepted(p, INITIAL, calls), ejectedAt)
  }

  /** An ejected upstream serves again only after the probe evidence above, and the call that puts it back
      is the last of those probes, never a request. */
  lemma RecoveryNeedsProbeEvidence(p: Policy, before: seq<Call>, after: seq<Call>) returns (i: nat, ejectedAt: nat)
    requires Exec(p, INITIAL, before).Opened() && !Exec(p, INITIAL, before + after).Opened()
    ensures i < |after| && after[i].Record? && after[i].event.ProbeSuccess?
    ensures Exec(p, INITIAL, before + after[..i]).Opened()
    ensures Recovered(p, before + after[..i] + [after[i]], ejectedAt)
  {
    i := RestoringCall(p, before, after);
    var calls := before + after[..i];
    assert Front(calls + [after[i]]) == calls;
    ejectedAt := RecoveryAt(p, calls, after[i]);
  }
}
