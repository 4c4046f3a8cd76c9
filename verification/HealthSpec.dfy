/** The health state of one upstream, and what each call on the runtime does to it.

    Times are natural numbers and 0 is the zero time, which the runtime reads as "not set".
    An event carries its own time stamp; a read consults a clock that is independent of it. */
module HealthSpec {
  type Positive = n: int | 0 < n witness 1

  datatype State = Unknown | Healthy | Open | HalfOpen

  datatype BreakerState = BreakerClosed | BreakerOpen | BreakerHalfOpen

  datatype Source = Startup | FromProbe | FromRequest

  datatype Policy = Policy(failureThreshold: Positive, recoverySuccessThreshold: Positive, openInterval: Positive)

  datatype Upstream = Upstream(
    state: State,
    consecutiveFailures: nat,
    ejectedUntil: nat,
    openWindowUntil: nat,
    lastProbeAt: nat,
    lastProbeOK: bool,
    lastError: string,
    source: Source,
    halfOpenSuccesses: nat,
    lastRequestEventAt: nat,
    lastAppliedEventAt: nat)
  {
    predicate Opened() {
      state == Open || state == HalfOpen
    }
  }

  const INITIAL := Upstream(Unknown, 0, 0, 0, 0, false, "", Startup, 0, 0, 0)

  datatype Event =
    | ProbeSuccess(at: nat)
    | ProbeFailure(at: nat, error: string)
    | RequestSuccess(at: nat)
    | RequestFailure(at: nat, retryable: bool, outputCommitted: bool, error: string)
  {
    predicate Success() {
      ProbeSuccess? || RequestSuccess?
    }

    /** The failures that count against an upstream's health. */
    predicate CountingFailure() {
      ProbeFailure? || (RequestFailure? && retryable && !outputCommitted)
    }
  }

  /** One call on the runtime, as one upstream sees it. */
  datatype Call = Record(event: Event) | Read(now: nat)

  function BreakerStateFor(state: State): BreakerState {
    match state
    case Open => BreakerOpen
    case HalfOpen => BreakerHalfOpen
    case _ => BreakerClosed
  }

  /** What a read does: an expired ejection becomes half-open. */
  function Refresh(s: Upstream, now: nat): Upstream {
    if s.state != Open || s.ejectedUntil == 0 || now < s.ejectedUntil then s
    else s.(state := HalfOpen, ejectedUntil := 0, halfOpenSuccesses := 0)
  }

  predicate Eligible(s: Upstream, now: nat) {
    Refresh(s, now).state == Healthy
  }

  function OpenBoundary(s: Upstream): nat {
    if s.openWindowUntil == 0 then s.ejectedUntil else s.openWindowUntil
  }

  /** An event is accepted when it is newer than the last accepted one and not inside the ejection window. */
  predicate Accepts(s: Upstream, at: nat) {
    && (s.lastAppliedEventAt == 0 || s.lastAppliedEventAt < at)
    && (s.Opened() ==> OpenBoundary(s) <= at)
  }

  /** The state in which an accepted event finds the upstream. */
  function Admit(s: Upstream, at: nat): Upstream {
    var t := if s.state == Open && OpenBoundary(s) != 0
             then s.(state := HalfOpen, ejectedUntil := 0, halfOpenSuccesses := 0)
             else s;
    t.(lastAppliedEventAt := at)
  }

  function Restore(s: Upstream, source: Source): Upstream {
    var t := s.(consecutiveFailures := 0, halfOpenSuccesses := 0, ejectedUntil := 0, openWindowUntil := 0);
    if s.state == Healthy then t else t.(state := Healthy, source := source)
  }

  function Trip(p: Policy, s: Upstream, at: nat, source: Source): Upstream {
    s.(state := Open, source := source, halfOpenSuccesses := 0,
       ejectedUntil := at + p.openInterval, openWindowUntil := at + p.openInterval)
  }

  function CountFailure(p: Policy, s: Upstream, at: nat, source: Source): Upstream {
    var t := s.(consecutiveFailures := s.consecutiveFailures + 1);
    if p.failureThreshold <= t.consecutiveFailures then Trip(p, t, at, source) else t
  }

  function Apply(p: Policy, s: Upstream, e: Event): Upstream {
    match e
    case ProbeSuccess(at) =>
      var t := s.(lastProbeAt := at, lastProbeOK := true, lastError := "");
      (match t.state
       case HalfOpen =>
         var u := t.(halfOpenSuccesses := t.halfOpenSuccesses + 1);
         if p.recoverySuccessThreshold <= u.halfOpenSuccesses then Restore(u, FromProbe) else u
       case Open => t
       case _ => Restore(t, FromProbe))
    case ProbeFailure(at, error) =>
      var t := s.(lastProbeAt := at, lastProbeOK := false, lastError := error);
      (match t.state
       case Open => t
       case HalfOpen => Trip(p, t.(consecutiveFailures := t.consecutiveFailures + 1), at, FromProbe)
       case _ => CountFailure(p, t, at, FromProbe))
    case RequestSuccess(at) =>
      var t := s.(lastRequestEventAt := at);
      if t.Opened() then t else Restore(t.(lastError := ""), FromRequest)
    case RequestFailure(at, retryable, outputCommitted, error) =>
      var t := s.(lastRequestEventAt := at, lastError := error);
      if !retryable || outputCommitted || t.Opened() then t else CountFailure(p, t, at, FromRequest)
  }

  function Step(p: Policy, s: Upstream, e: Event): Upstream {
    if Accepts(s, e.at) then Apply(p, Admit(s, e.at), e) else s
  }

  function Do(p: Policy, s: Upstream, c: Call): Upstream {
    match c
    case Record(e) => Step(p, s, e)
    case Read(now) => Refresh(s, now)
  }

  function Last(calls: seq<Call>): Call
    requires calls != []
  {
    calls[|calls| - 1]
  }

  function Front(calls: seq<Call>): seq<Call>
    requires calls != []
  {
    calls[..|calls| - 1]
  }

  function Exec(p: Policy, s: Upstream, calls: seq<Call>): Upstream {
    if calls == [] then s else Do(p, Exec(p, s, Front(calls)), Last(calls))
  }

  /** The events of a run that were accepted, in order. */
  function Accepted(p: Policy, s: Upstream, calls: seq<Call>): seq<Event> {
    if calls == [] then []
    else
      var last := Last(calls);
      Accepted(p, s, Front(calls)) +
      (if last.Record? && Accepts(Exec(p, s, Front(calls)), last.event.at) then [last.event] else [])
  }
}
