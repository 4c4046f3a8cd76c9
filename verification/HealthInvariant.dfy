/** What every call keeps, and the two consequences that make the runtime safe to feed from
    unordered sources: redelivery has no effect, and reads never change an outcome. */
module HealthInvariant {
  import opened HealthSpec

  ghost predicate Inv(p: Policy, s: Upstream) {
    && (p.failureThreshold <= s.consecutiveFailures <==> s.Opened())
    && (s.state == Open ==>
          && s.ejectedUntil == s.openWindowUntil == s.lastAppliedEventAt + p.openInterval
          && s.halfOpenSuccesses == 0)
    && (s.state == HalfOpen ==>
          && s.ejectedUntil == 0
          && p.openInterval <= s.openWindowUntil
          && s.halfOpenSuccesses < p.recoverySuccessThreshold
          && (s.openWindowUntil <= s.lastAppliedEventAt
              || (s.lastAppliedEventAt + p.openInterval == s.openWindowUntil && s.halfOpenSuccesses == 0)))
    && (!s.Opened() ==> s.ejectedUntil == s.openWindowUntil == s.halfOpenSuccesses == 0)
  }

  /** The invariant as an accepted event finds it: never open, and a half-open window has ended. */
  lemma ApplyKeepsInv(p: Policy, s: Upstream, e: Event)
    requires Inv(p, s) && s.state != Open && s.lastAppliedEventAt == e.at
    requires s.state == HalfOpen ==> s.openWindowUntil <= e.at
    ensures Inv(p, Apply(p, s, e))
    ensures Apply(p, s, e).lastAppliedEventAt == e.at
  {
    match e
    case ProbeSuccess(at) =>
    case ProbeFailure(at, error) =>
    case RequestSuccess(at) =>
    case RequestFailure(at, retryable, outputCommitted, error) =>
  }

  lemma FloorAfter(p: Policy, s: Upstream, c: Call)
    ensures Do(p, s, c).lastAppliedEventAt
         == if c.Record? && Accepts(s, c.event.at) then c.event.at else s.lastAppliedEventAt
  {
  }

  lemma DoKeepsInv(p: Policy, s: Upstream, c: Call)
    requires Inv(p, s)
    ensures Inv(p, Do(p, s, c))
  {
    if c.Record? && Accepts(s, c.event.at) {
      ApplyKeepsInv(p, Admit(s, c.event.at), c.event);
    }
  }

  lemma {:induction false} ExecKeepsInv(p: Policy, s: Upstream, calls: seq<Call>)
    requires Inv(p, s)
    ensures Inv(p, Exec(p, s, calls))
  {
    if calls != [] {
      ExecKeepsInv(p, s, Front(calls));
      DoKeepsInv(p, Exec(p, s, Front(calls)), Last(calls));
    }
  }

  /** No accepted event ever meets an open upstream. */
  lemma AdmittedIsNeverOpen(p: Policy, s: Upstream, at: nat)
    requires Inv(p, s) && Accepts(s, at)
    ensures Admit(s, at).state != Open
  {
  }

  lemma {:induction false} ExecConcat(p: Policy, s: Upstream, a: seq<Call>, b: seq<Call>)
    ensures Exec(p, s, a + b) == Exec(p, Exec(p, s, a), b)
  {
    if b == [] {
      assert a + b == a;
    } else {
      assert Front(a + b) == a + Front(b);
      ExecConcat(p, s, a, Front(b));
    }
  }

  // Redelivery

  /** The acceptance floor never moves down. */
  lemma RejectionPersists(p: Policy, s: Upstream, c: Call, at: nat)
    requires Inv(p, s) && !Accepts(s, at)
    ensures !Accepts(Do(p, s, c), at)
  {
  }

  lemma {:induction false} RejectionPersistsOverRun(p: Policy, s: Upstream, calls: seq<Call>, at: nat)
    requires Inv(p, s) && !Accepts(s, at)
    ensures !Accepts(Exec(p, s, calls), at)
  {
    if calls != [] {
      RejectionPersistsOverRun(p, s, Front(calls), at);
      ExecKeepsInv(p, s, Front(calls));
      RejectionPersists(p, Exec(p, s, Front(calls)), Last(calls), at);
    }
  }

  /** Delivering again any event already delivered in a run, whether it was accepted then or not,
      changes nothing. The zero time is the only exception, and only as long as no event with a
      real time stamp was accepted and the upstream was not ejected. */
  lemma {:induction false} RedeliveryHasNoEffect(p: Policy, calls: seq<Call>, i: nat)
    requires i < |calls| && calls[i].Record?
    ensures var s := Exec(p, INITIAL, calls);
            var e := calls[i].event;
            && (!Accepts(s, e.at) <==> e.at != 0 || s.lastAppliedEventAt != 0 || s.Opened())
            && (e.at != 0 ==> Exec(p, INITIAL, calls + [calls[i]]) == s)
  {
    var e := calls[i].event;
    var before := Exec(p, INITIAL, calls[..i]);
    var after := Exec(p, INITIAL, calls[..i + 1]);
    assert Front(calls[..i + 1]) == calls[..i];
    ExecKeepsInv(p, INITIAL, calls[..i]);
    ExecKeepsInv(p, INITIAL, calls[..i + 1]);
    ExecKeepsInv(p, INITIAL, calls);
    if e.at != 0 {
      assert !Accepts(after, e.at);
      assert calls == calls[..i + 1] + calls[i + 1..];
      ExecConcat(p, INITIAL, calls[..i + 1], calls[i + 1..]);
      RejectionPersistsOverRun(p, after, calls[i + 1..], e.at);
    }
    assert Front(calls + [calls[i]]) == calls;
  }

  /** The exception is real: a failure stamped with the zero time is counted twice. */
  lemma ZeroTimeIsCountedTwice(p: Policy)
    requires 2 < p.failureThreshold
    ensures var e := ProbeFailure(0, "");
            Exec(p, INITIAL, [Record(e), Record(e)]).consecutiveFailures == 2
  {
    var c := Record(ProbeFailure(0, ""));
    assert Front([c]) == [] && Exec(p, INITIAL, [c]) == Do(p, INITIAL, c);
    assert Front([c, c]) == [c];
  }

  // Reads

  /** a is b, except that a read may already have moved an open upstream to half-open. */
  ghost predicate SameUpToRefresh(a: Upstream, b: Upstream) {
    || a == b
    || (b.state == Open && a == b.(state := HalfOpen, ejectedUntil := 0, halfOpenSuccesses := 0))
  }

  function DropReads(calls: seq<Call>): seq<Call> {
    if calls == [] then []
    else DropReads(Front(calls)) + (if Last(calls).Record? then [Last(calls)] else [])
  }

  lemma {:induction false} ReadsDoNotMatter(p: Policy, s: Upstream, calls: seq<Call>)
    requires Inv(p, s)
    ensures SameUpToRefresh(Exec(p, s, calls), Exec(p, s, DropReads(calls)))
    ensures Accepted(p, s, calls) == Accepted(p, s, DropReads(calls))
  {
    if calls != [] {
      ReadsDoNotMatter(p, s, Front(calls));
      ExecKeepsInv(p, s, Front(calls));
      ExecKeepsInv(p, s, DropReads(Front(calls)));
      if Last(calls).Record? {
        assert Front(DropReads(calls)) == DropReads(Front(calls));
      } else {
        assert DropReads(calls) == DropReads(Front(calls));
      }
    }
  }

  /** For any interleaving of reads under arbitrary clocks, every eligibility answer is the one the
      recorded events alone give, whatever the two clocks show. */
  lemma ReadsNeverInfluenceEligibility(p: Policy, calls: seq<Call>, now: nat, otherNow: nat)
    ensures Eligible(Exec(p, INITIAL, calls), now) <==> Eligible(Exec(p, INITIAL, DropReads(calls)), otherNow)
  {
    ReadsDoNotMatter(p, INITIAL, calls);
  }
}
