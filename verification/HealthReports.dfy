/** What an upstream reports after a run, as facts about the events it accepted. */
module HealthReports {
  import opened Config
  import opened HealthSpec
  import opened HealthInvariant
  import opened HealthTrace

  // Who serves

  predicate HasSuccess(events: seq<Event>) {
    exists e :: e in events && e.Success()
  }

  /** An upstream that is not ejected serves exactly when some success was accepted. */
  lemma {:induction false} ServesIffSucceeded(p: Policy, calls: seq<Call>)
    ensures var s := Exec(p, INITIAL, calls);
            !s.Opened() ==> (s.state == Healthy <==> HasSuccess(Accepted(p, INITIAL, calls)))
  {
    if calls != [] {
      var s, accepted := Exec(p, INITIAL, Front(calls)), Accepted(p, INITIAL, Front(calls));
      ServesIffSucceeded(p, Front(calls));
      ExecKeepsInv(p, INITIAL, Front(calls));
      Unfold(p, calls);
      if Last(calls).Record? && Accepts(s, Last(calls).event.at) {
        var e := Last(calls).event;
        assert HasSuccess(accepted + [e]) <==> HasSuccess(accepted) || e.Success();
        SuccessIsNeeded(p, s, e);
      }
    }
  }

  /** What one accepted event does to an upstream's service. */
  lemma SuccessIsNeeded(p: Policy, s: Upstream, e: Event)
    requires Inv(p, s) && Accepts(s, e.at)
    ensures var t := Step(p, s, e);
            !t.Opened() ==>
              && (e.Success() ==> t.state == Healthy)
              && (!e.Success() ==> !s.Opened() && t.state == s.state)
  {
  }

  /** Eligibility as a fact about a run: not ejected, and some success was accepted. */
  lemma EligibleIff(p: Policy, calls: seq<Call>, now: nat)
    ensures var s := Exec(p, INITIAL, calls);
            Eligible(s, now) <==> !s.Opened() && HasSuccess(Accepted(p, INITIAL, calls))
  {
    ServesIffSucceeded(p, calls);
  }

  // Which events are accepted

  lemma {:induction false} FloorIsTheLatest(p: Policy, calls: seq<Call>)
    ensures var accepted := Accepted(p, INITIAL, calls);
            Exec(p, INITIAL, calls).lastAppliedEventAt == if accepted == [] then 0 else Latest(accepted).at
  {
    if calls != [] {
      FloorIsTheLatest(p, Front(calls));
      Unfold(p, calls);
      FloorAfter(p, Exec(p, INITIAL, Front(calls)), Last(calls));
    }
  }

  /** An event is accepted exactly when it is later than every event accepted before that carried a real time,
      and, while the upstream is ejected, not earlier than the latest ejection plus the interval. */
  lemma AcceptedIff(p: Policy, calls: seq<Call>, at: nat)
    ensures var s, accepted, os := Exec(p, INITIAL, calls), Accepted(p, INITIAL, calls), Openings(p, calls);
            Accepts(s, at) <==>
              && (forall f :: f in accepted ==> f.at == 0 || f.at < at)
              && (s.Opened() ==> os != [] && os[|os| - 1].at + p.openInterval <= at)
  {
    var s, accepted := Exec(p, INITIAL, calls), Accepted(p, INITIAL, calls);
    ExecKeepsInv(p, INITIAL, calls);
    FloorIsTheLatest(p, calls);
    AcceptedStayBelowTheFloor(p, calls);
    if accepted != [] {
      assert Latest(accepted) in accepted;
    }
    if s.Opened() {
      LatestOpening(p, calls);
    }
  }

  // How many failures an ejected upstream reports

  /** The failed recoveries since the upstream last served. */
  function Relapses(os: seq<Opening>): nat {
    if os == [] || os[|os| - 1].recovered then 0 else Relapses(os[..|os| - 1]) + 1
  }

  lemma {:induction false} FailuresWhileEjected(p: Policy, calls: seq<Call>)
    ensures var s := Exec(p, INITIAL, calls);
            s.Opened() ==> s.consecutiveFailures == p.failureThreshold + Relapses(Openings(p, calls))
  {
    if calls != [] {
      var s := Exec(p, INITIAL, Front(calls));
      FailuresWhileEjected(p, Front(calls));
      ExecKeepsInv(p, INITIAL, Front(calls));
      Unfold(p, calls);
      UnfoldOpenings(p, calls);
      match Last(calls)
      case Read(_) =>
      case Record(e) =>
        if Accepts(s, e.at) {
          OneMoreOpening(Openings(p, Front(calls)), Opening(e.at, !s.Opened()));
          FailuresAfter(p, s, e);
        }
    }
  }

  lemma OneMoreOpening(os: seq<Opening>, o: Opening)
    ensures Relapses(os + [o]) == if o.recovered then 0 else Relapses(os) + 1
  {
    assert (os + [o])[..|os|] == os;
  }

  lemma FailuresAfter(p: Policy, s: Upstream, e: Event)
    requires Inv(p, s) && Accepts(s, e.at)
    ensures var t := Step(p, s, e);
            && (t.state == Open ==>
                  t.consecutiveFailures == if s.Opened() then s.consecutiveFailures + 1 else p.failureThreshold)
            && (t.state == HalfOpen ==> s.Opened() && t.consecutiveFailures == s.consecutiveFailures)
  {
  }

  // The last probe, the last request, the last error and the origin of the state

  function LastProbe(events: seq<Event>): Option<Event> {
    if events == [] then None
    else if Latest(events).ProbeSuccess? || Latest(events).ProbeFailure? then Some(Latest(events))
    else LastProbe(Init(events))
  }

  function LastRequest(events: seq<Event>): Option<Event> {
    if events == [] then None
    else if Latest(events).RequestSuccess? || Latest(events).RequestFailure? then Some(Latest(events))
    else LastRequest(Init(events))
  }

  function TimeOf(e: Option<Event>): nat {
    if e.Some? then e.value.at else 0
  }

  /** The state the accepted events alone lead to. */
  function After(p: Policy, events: seq<Event>): Upstream {
    Exec(p, INITIAL, AsCalls(events))
  }

  /** The error of the latest accepted event that reports one; a success clears it, except that a request has no
      say about an ejected upstream's success. */
  function LastErrorOf(p: Policy, events: seq<Event>): string {
    if events == [] then ""
    else
      match Latest(events)
      case ProbeSuccess(_) => ""
      case ProbeFailure(_, error) => error
      case RequestFailure(_, _, _, error) => error
      case RequestSuccess(_) => if After(p, Init(events)).Opened() then LastErrorOf(p, Init(events)) else ""
  }

  function OriginOf(e: Event): Source {
    if e.ProbeSuccess? || e.ProbeFailure? then FromProbe else FromRequest
  }

  /** The kind of the latest accepted event that ejected the upstream or put it into service. */
  function SourceOf(p: Policy, events: seq<Event>): Source {
    if events == [] then Startup
    else
      var before, after := After(p, Init(events)), After(p, events);
      if after.state == Open || (after.state == Healthy && before.state != Healthy) then OriginOf(Latest(events))
      else SourceOf(p, Init(events))
  }

  ghost predicate ReportsMatch(p: Policy, s: Upstream, accepted: seq<Event>) {
    && s.lastProbeAt == TimeOf(LastProbe(accepted))
    && (s.lastProbeOK <==> LastProbe(accepted).Some? && LastProbe(accepted).value.ProbeSuccess?)
    && s.lastRequestEventAt == TimeOf(LastRequest(accepted))
    && s.lastError == LastErrorOf(p, accepted)
    && s.source == SourceOf(p, accepted)
  }

  lemma StepReports(p: Policy, s: Upstream, u: Upstream, e: Event)
    requires Inv(p, s) && Inv(p, u) && SameUpToRefresh(s, u) && Accepts(s, e.at)
    ensures Step(p, s, e) == Step(p, u, e)
    ensures var t := Step(p, s, e);
            && (if e.ProbeSuccess? || e.ProbeFailure? then t.lastProbeAt == e.at && t.lastProbeOK == e.ProbeSuccess?
                else t.lastProbeAt == s.lastProbeAt && t.lastProbeOK == s.lastProbeOK)
            && t.lastRequestEventAt == (if e.RequestSuccess? || e.RequestFailure? then e.at else s.lastRequestEventAt)
            && t.lastError == (match e
                               case ProbeSuccess(_) => ""
                               case ProbeFailure(_, error) => error
                               case RequestFailure(_, _, _, error) => error
                               case RequestSuccess(_) => if u.Opened() then s.lastError else "")
            && t.source == (if t.state == Open || (t.state == Healthy && u.state != Healthy) then OriginOf(e) else s.source)
  {
  }

  lemma OneMoreReport(p: Policy, s: Upstream, events: seq<Event>, e: Event)
    requires Inv(p, s) && ReportsMatch(p, s, events) && Accepts(s, e.at)
    requires SameUpToRefresh(s, After(p, events))
    ensures ReportsMatch(p, Step(p, s, e), events + [e])
  {
    ExecKeepsInv(p, INITIAL, AsCalls(events));
    StepReports(p, s, After(p, events), e);
    AsCallsSnoc(p, events, e);
    assert Init(events + [e]) == events && Latest(events + [e]) == e;
  }

  /** In every run the reported probe, request, error and origin are those of the accepted events. */
  lemma {:induction false} ReportsMatchTheTrace(p: Policy, calls: seq<Call>)
    ensures ReportsMatch(p, Exec(p, INITIAL, calls), Accepted(p, INITIAL, calls))
  {
    if calls != [] {
      var s, accepted := Exec(p, INITIAL, Front(calls)), Accepted(p, INITIAL, Front(calls));
      ReportsMatchTheTrace(p, Front(calls));
      ExecKeepsInv(p, INITIAL, Front(calls));
      RunOfAcceptedEvents(p, Front(calls));
      Unfold(p, calls);
      if Last(calls).Record? && Accepts(s, Last(calls).event.at) {
        OneMoreReport(p, s, accepted, Last(calls).event);
      }
    }
  }
}

/** What a snapshot of the runtime tells about every upstream, after any calls on a new runtime. */
module SnapshotReports {
  import opened Config
  import opened HealthSpec
  import opened HealthInvariant
  import opened HealthTrace
  import opened HealthReports
  import opened HealthRuntime

  ghost predicate TellsTheTrace(p: Policy, name: string, mine: seq<Call>, now: nat, status: UpstreamStatus) {
    var accepted, os := Accepted(p, INITIAL, mine), Openings(p, mine);
    var ejected := status.state == Open || status.state == HalfOpen;
    && status.name == name
    && (status.eligible <==> !ejected && HasSuccess(accepted))
    && (status.state == Healthy <==> status.eligible)
    && status.consecutiveFailures == (if ejected then p.failureThreshold + Relapses(os) else TrailingFailures(accepted))
    && (status.state == Open ==> os != [] && status.ejectedUntil == os[|os| - 1].at + p.openInterval && now < status.ejectedUntil)
    && (status.state != Open ==> status.ejectedUntil == 0)
    && (status.breakerState == BreakerOpen <==> status.state == Open)
    && (status.breakerState == BreakerHalfOpen <==> status.state == HalfOpen)
    && status.lastProbeAt == TimeOf(LastProbe(accepted))
    && (status.lastProbeOK <==> LastProbe(accepted).Some? && LastProbe(accepted).value.ProbeSuccess?)
    && status.lastError == LastErrorOf(p, accepted)
    && status.source == SourceOf(p, accepted)
  }

  lemma ReadTellsTheTrace(p: Policy, name: string, provider: string, calls: seq<Call>, now: nat)
    ensures TellsTheTrace(p, name, calls, now, StatusOf(name, provider, Refresh(Exec(p, INITIAL, calls), now)))
  {
    var s := Exec(p, INITIAL, calls);
    ExecKeepsInv(p, INITIAL, calls);
    ServesIffSucceeded(p, calls);
    CountersMatchTheTrace(p, calls);
    FailuresWhileEjected(p, calls);
    ReportsMatchTheTrace(p, calls);
    if s.Opened() {
      LatestOpening(p, calls);
    }
  }

  /** Every status of a snapshot tells the facts about the events its upstream accepted. */
  lemma SnapshotTellsTheTrace(p: Policy, v: View, calls: seq<RuntimeCall>, after: View, order: seq<string>, now: Clock,
                              statuses: seq<UpstreamStatus>, i: nat)
    requires forall n :: n in v ==> v[n] == INITIAL
    requires SnapshotOf(RunRuntime(p, v, calls), after, order, now, statuses) && i < |order|
    ensures TellsTheTrace(p, order[i], Project(calls, order[i]), now(i), statuses[i])
  {
    UpstreamsAreIndependent(p, v, calls, order[i]);
    assert order[i] in RunRuntime(p, v, calls);
    ReadTellsTheTrace(p, order[i], statuses[i].provider, Project(calls, order[i]), now(i));
  }
}
