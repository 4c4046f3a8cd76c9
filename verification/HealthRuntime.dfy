/** The runtime that owns the health state of every upstream. Each method is one atomic step: it holds the
    runtime's lock for its whole body. */
module HealthRuntime {
  import opened HealthSpec
  import opened HealthInvariant

  /** The runtime as a value: the state of every upstream it knows. */
  type View = map<string, Upstream>

  /** A clock that is read several times in one call: the k-th reading. Nothing relates the readings. */
  type Clock = nat -> nat

  function RecordIn(p: Policy, v: View, name: string, e: Event): View {
    if name in v then v[name := Step(p, v[name], e)] else v
  }

  predicate EligibleIn(v: View, name: string) {
    name in v && v[name].state == Healthy
  }

  function ReadIn(v: View, name: string, now: nat): View {
    if name in v then v[name := Refresh(v[name], now)] else v
  }

  datatype UpstreamStatus = UpstreamStatus(
    name: string,
    provider: string,
    state: State,
    eligible: bool,
    consecutiveFailures: nat,
    ejectedUntil: nat,
    lastProbeAt: nat,
    lastProbeOK: bool,
    lastError: string,
    breakerState: BreakerState,
    source: Source)

  datatype RuntimeSnapshot = RuntimeSnapshot(
    started: bool,
    initialProbeComplete: bool,
    hasEligibleUpstream: bool,
    upstreams: seq<UpstreamStatus>)

  function StatusOf(name: string, provider: string, s: Upstream): UpstreamStatus {
    UpstreamStatus(name, provider, s.state, s.state == Healthy, s.consecutiveFailures,
                   if s.state == Open then s.ejectedUntil else 0,
                   s.lastProbeAt, s.lastProbeOK, s.lastError, BreakerStateFor(s.state), s.source)
  }

  /** A snapshot reads every upstream, each at a reading of the clock of its own, and reports what it finds
      in configuration order. */
  ghost predicate SnapshotOf(before: View, after: View, order: seq<string>, now: Clock, statuses: seq<UpstreamStatus>) {
    && before.Keys == after.Keys == (set n | n in order)
    && |statuses| == |order|
    && forall i :: 0 <= i < |order| ==>
         && after[order[i]] == Refresh(before[order[i]], now(i))
         && statuses[i] == StatusOf(order[i], statuses[i].provider, after[order[i]])
  }

  datatype RuntimeUpstream = RuntimeUpstream(name: string, provider: string)

  const DEFAULT_OPEN_INTERVAL: Positive := 30_000_000_000

  /** Thresholds and the interval fall back to their defaults unless they are positive. */
  function PolicyFor(failureThreshold: int, recoverySuccessThreshold: int, openInterval: int): Policy {
    Policy(if failureThreshold <= 0 then 1 else failureThreshold,
           if recoverySuccessThreshold <= 0 then 1 else recoverySuccessThreshold,
           if openInterval <= 0 then DEFAULT_OPEN_INTERVAL else openInterval)
  }

  /** The names the runtime will know, in order of first appearance. */
  function KnownNames(ups: seq<RuntimeUpstream>): seq<string> {
    if ups == [] then []
    else
      var front := KnownNames(ups[..|ups| - 1]);
      var name := ups[|ups| - 1].name;
      if name == "" || name in front then front else front + [name]
  }

  lemma {:induction false} KnownNamesAreDistinct(ups: seq<RuntimeUpstream>)
    ensures forall i, j :: 0 <= i < j < |KnownNames(ups)| ==> KnownNames(ups)[i] != KnownNames(ups)[j]
    ensures forall name :: name in KnownNames(ups) <==> name != "" && exists u :: u in ups && u.name == name
  {
    if ups != [] {
      var front, last := ups[..|ups| - 1], ups[|ups| - 1];
      KnownNamesAreDistinct(front);
      assert forall u :: u in ups <==> u in front || u == last;
    }
  }

  /** The entry that counts: the first of its name. */
  predicate IsFirstOfName(ups: seq<RuntimeUpstream>, i: nat)
    requires i < |ups|
  {
    ups[i].name != "" && forall j :: 0 <= j < i ==> ups[j].name != ups[i].name
  }

  /** The names stand at these positions, which are increasing and those of first entries. */
  ghost predicate StandAt(names: seq<string>, ups: seq<RuntimeUpstream>, at: seq<nat>) {
    && |at| == |names|
    && (forall i :: 0 <= i < |at| ==> at[i] < |ups| && IsFirstOfName(ups, at[i]) && names[i] == ups[at[i]].name)
    && (forall i, j :: 0 <= i < j < |at| ==> at[i] < at[j])
  }

  lemma OneMoreEntry(names: seq<string>, front: seq<RuntimeUpstream>, at: seq<nat>, up: RuntimeUpstream)
    requires StandAt(names, front, at)
    ensures StandAt(names, front + [up], at)
    ensures up.name != "" && (forall j :: 0 <= j < |front| ==> front[j].name != up.name) ==>
              StandAt(names + [up.name], front + [up], at + [|front|])
  {
    var all := front + [up];
    forall i | 0 <= i < |at|
      ensures all[at[i]] == front[at[i]] && IsFirstOfName(all, at[i])
    {
      assert IsFirstOfName(front, at[i]);
    }
  }

  /** The known names keep the order of the configuration: each stands at the position of its first entry. */
  lemma {:induction false} KnownNamesKeepOrder(ups: seq<RuntimeUpstream>) returns (at: seq<nat>)
    ensures StandAt(KnownNames(ups), ups, at)
  {
    if ups == [] {
      at := [];
    } else {
      var front, up := ups[..|ups| - 1], ups[|ups| - 1];
      at := KnownNamesKeepOrder(front);
      OneMoreEntry(KnownNames(front), front, at, up);
      KnownNamesAreDistinct(front);
      assert front + [up] == ups;
      if up.name != "" && up.name !in KnownNames(front) {
        assert forall j :: 0 <= j < |front| ==> front[j] in front;
        at := at + [|front|];
      }
    }
  }

  class UpstreamState {
    const name: string
    const provider: string
    var state: State
    var consecutiveFailures: nat
    var ejectedUntil: nat
    var openWindowUntil: nat
    var lastProbeAt: nat
    var lastProbeOK: bool
    var lastError: string
    var source: Source
    var halfOpenSuccesses: nat
    var lastRequestEventAt: nat
    var lastAppliedEventAt: nat

    function Value(): Upstream
      reads this
    {
      Upstream(state, consecutiveFailures, ejectedUntil, openWindowUntil, lastProbeAt, lastProbeOK, lastError,
               source, halfOpenSuccesses, lastRequestEventAt, lastAppliedEventAt)
    }

    constructor (name: string, provider: string)
      ensures this.name == name && this.provider == provider && Value() == INITIAL
    {
      this.name, this.provider := name, provider;
      state, source := Unknown, Startup;
      consecutiveFailures, halfOpenSuccesses := 0, 0;
      ejectedUntil, openWindowUntil, lastProbeAt, lastRequestEventAt, lastAppliedEventAt := 0, 0, 0, 0, 0;
      lastProbeOK, lastError := false, "";
    }
  }

  class Runtime {
    const policy: Policy
    var started: bool
    var initialProbeComplete: bool
    var order: seq<string>
    var upstreams: map<string, UpstreamState>

    ghost predicate Wired()
      reads this
    {
      && (forall i, j :: 0 <= i < j < |order| ==> order[i] != order[j])
      && (forall name :: name in upstreams <==> name in order)
      && (forall name :: name in upstreams ==> upstreams[name].name == name)
    }

    ghost predicate Valid()
      reads this, upstreams.Values
    {
      && Wired()
      && forall name :: name in upstreams ==> Inv(policy, upstreams[name].Value())
    }

    ghost function Contents(): View
      reads this, upstreams.Values
    {
      map name | name in upstreams :: upstreams[name].Value()
    }

    constructor (ups: seq<RuntimeUpstream>, failureThreshold: int, recoverySuccessThreshold: int, openInterval: int)
      ensures Valid() && fresh(upstreams.Values)
      ensures policy == PolicyFor(failureThreshold, recoverySuccessThreshold, openInterval)
      ensures policy.failureThreshold == (if 0 < failureThreshold then failureThreshold else 1)
      ensures policy.recoverySuccessThreshold == (if 0 < recoverySuccessThreshold then recoverySuccessThreshold else 1)
      ensures policy.openInterval == (if 0 < openInterval then openInterval else 30 * 1_000_000_000)
      ensures !started && !initialProbeComplete
      ensures order == KnownNames(ups)
      ensures Contents() == map name | name in KnownNames(ups) :: INITIAL
      ensures forall i :: 0 <= i < |ups| && IsFirstOfName(ups, i) ==>
                ups[i].name in upstreams && upstreams[ups[i].name].provider == ups[i].provider
    {
      var f, r, interval := failureThreshold, recoverySuccessThreshold, openInterval;
      if f <= 0 {
        f := 1;
      }
      if r <= 0 {
        r := 1;
      }
      if interval <= 0 {
        interval := DEFAULT_OPEN_INTERVAL;
      }
      policy := Policy(f, r, interval);
      started, initialProbeComplete := false, false;
      order, upstreams := [], map[];
      new;
      AddUpstreams(ups);
      KnownNamesAreDistinct(ups);
    }

    method AddUpstreams(ups: seq<RuntimeUpstream>)
      requires order == [] && upstreams == map[]
      modifies `order, `upstreams
      ensures order == KnownNames(ups) && fresh(upstreams.Values)
      ensures forall name :: name in upstreams <==> name in order
      ensures forall name :: name in upstreams ==>
                               upstreams[name].name == name && upstreams[name].Value() == INITIAL
      ensures forall i :: 0 <= i < |ups| && IsFirstOfName(ups, i) ==>
                ups[i].name in upstreams && upstreams[ups[i].name].provider == ups[i].provider
    {
      for i := 0 to |ups|
        invariant order == KnownNames(ups[..i])
        invariant forall name :: name in upstreams <==> name in order
        invariant forall name :: name in upstreams ==>
                                   fresh(upstreams[name]) && upstreams[name].name == name && upstreams[name].Value() == INITIAL
        invariant forall name :: name in upstreams ==> exists j :: 0 <= j < i && ups[j].name == name
        invariant forall j :: 0 <= j < i && IsFirstOfName(ups, j) ==>
                    ups[j].name in upstreams && upstreams[ups[j].name].provider == ups[j].provider
      {
        assert ups[..i + 1][..i] == ups[..i];
        AddUpstream(ups[i]);
      }
      assert ups[..|ups|] == ups;
    }

    /** A nameless upstream and a second one of the same name are skipped. */
    method AddUpstream(up: RuntimeUpstream)
      modifies `order, `upstreams
      ensures up.name == "" || up.name in old(upstreams) ==> order == old(order) && upstreams == old(upstreams)
      ensures up.name != "" && up.name !in old(upstreams) ==>
                && order == old(order) + [up.name]
                && up.name in upstreams && fresh(upstreams[up.name])
                && upstreams == old(upstreams)[up.name := upstreams[up.name]]
                && upstreams[up.name].name == up.name && upstreams[up.name].provider == up.provider
                && upstreams[up.name].Value() == INITIAL
    {
      if up.name == "" {
        return;
      }
      if up.name in upstreams {
        return;
      }
      order := order + [up.name];
      var state := new UpstreamState(up.name, up.provider);
      upstreams := upstreams[up.name := state];
    }

    method RefreshState(state: UpstreamState, now: nat)
      modifies state
      ensures state.Value() == Refresh(old(state.Value()), now)
    {
      if state.state != Open {
        return;
      }
      if state.ejectedUntil == 0 {
        return;
      }
      if now < state.ejectedUntil {
        return;
      }
      state.state := HalfOpen;
      state.ejectedUntil := 0;
      state.halfOpenSuccesses := 0;
    }

    method RefreshForEvent(state: UpstreamState, at: nat) returns (ok: bool)
      modifies state
      ensures ok <==> (old(state.Value()).Opened() ==> OpenBoundary(old(state.Value())) <= at)
      ensures !ok ==> state.Value() == old(state.Value())
      ensures ok ==> state.Value().(lastAppliedEventAt := at) == Admit(old(state.Value()), at)
    {
      var openBoundary := state.openWindowUntil;
      if openBoundary == 0 {
        openBoundary := state.ejectedUntil;
      }
      if state.state == Open {
        if openBoundary != 0 && at < openBoundary {
          return false;
        }
        if openBoundary != 0 {
          state.state := HalfOpen;
          state.ejectedUntil := 0;
          state.halfOpenSuccesses := 0;
        }
      } else if state.state == HalfOpen {
        if openBoundary != 0 && at < openBoundary {
          return false;
        }
      }
      return true;
    }

    method AcceptEvent(state: UpstreamState, at: nat) returns (ok: bool)
      modifies state
      ensures ok <==> Accepts(old(state.Value()), at)
      ensures state.Value() == if ok then Admit(old(state.Value()), at) else old(state.Value())
    {
      if state.lastAppliedEventAt != 0 && at <= state.lastAppliedEventAt {
        return false;
      }
      var fits := RefreshForEvent(state, at);
      if !fits {
        return false;
      }
      state.lastAppliedEventAt := at;
      return true;
    }

    lemma ValidAfterOne(before: View, name: string, c: Call)
      requires Wired() && upstreams.Keys == before.Keys && name in upstreams
      requires forall n :: n in upstreams ==> Inv(policy, before[n])
      requires forall n :: n in upstreams && n != name ==> upstreams[n].Value() == before[n]
      requires upstreams[name].Value() == Do(policy, before[name], c)
      ensures Valid()
    {
      DoKeepsInv(policy, before[name], c);
    }

    /** Giving one upstream the state a call leads to keeps the runtime valid and changes nothing else. */
    lemma OneUpstreamChanged(before: View, name: string, c: Call)
      requires Wired() && upstreams.Keys == before.Keys && name in upstreams
      requires forall n :: n in upstreams ==> Inv(policy, before[n])
      requires forall n :: n in upstreams && n != name ==> upstreams[n].Value() == before[n]
      requires upstreams[name].Value() == Do(policy, before[name], c)
      ensures Valid()
      ensures Contents() == before[name := Do(policy, before[name], c)]
    {
      ValidAfterOne(before, name, c);
      assert Contents().Keys == before.Keys;
    }

    /** The upstreams were all read, each at a reading of the clock of its own. */
    ghost predicate AllRead(before: View, now: Clock)
      reads this, upstreams.Values
    {
      && upstreams.Keys == before.Keys
      && forall i :: 0 <= i < |order| ==>
           order[i] in upstreams && upstreams[order[i]].Value() == Refresh(before[order[i]], now(i))
    }

    lemma ValidAfterReads(before: View, now: Clock)
      requires Wired() && AllRead(before, now)
      requires forall n :: n in upstreams ==> Inv(policy, before[n])
      ensures Valid()
    {
      forall i | 0 <= i < |order|
        ensures Inv(policy, upstreams[order[i]].Value())
      {
        DoKeepsInv(policy, before[order[i]], Read(now(i)));
      }
    }

    lemma ReportsAfterReads(before: View, now: Clock, statuses: seq<UpstreamStatus>)
      requires Wired() && AllRead(before, now) && |statuses| == |order|
      requires forall i :: 0 <= i < |order| ==>
                 statuses[i] == StatusOf(order[i], upstreams[order[i]].provider, Refresh(before[order[i]], now(i)))
      ensures SnapshotOf(before, Contents(), order, now, statuses)
      ensures forall i :: 0 <= i < |order| ==> statuses[i].provider == upstreams[order[i]].provider
    {
    }

    method RefreshUpstream(name: string, now: nat)
      requires Valid() && name in upstreams
      modifies upstreams.Values
      ensures Valid()
      ensures Contents() == ReadIn(old(Contents()), name, now)
    {
      RefreshState(upstreams[name], now);
      OneUpstreamChanged(old(Contents()), name, Read(now));
    }

    method IsEligible(name: string, now: nat) returns (eligible: bool)
      requires Valid()
      modifies upstreams.Values
      ensures Valid()
      ensures eligible <==> EligibleIn(old(Contents()), name)
      ensures Contents() == ReadIn(old(Contents()), name, now)
    {
      if name !in upstreams {
        return false;
      }
      RefreshUpstream(name, now);
      assert Contents()[name] == Refresh(old(Contents())[name], now);
      eligible := upstreams[name].state == Healthy;
    }

    /** The upstreams in configuration order. */
    function States(): (states: seq<UpstreamState>)
      requires Wired()
      reads this
      ensures |states| == |order|
      ensures forall i :: 0 <= i < |order| ==> states[i] in upstreams.Values && upstreams[order[i]] == states[i]
      ensures forall i, j :: 0 <= i < j < |order| ==> states[i] != states[j]
    {
      var names, known := order, upstreams;
      var states := seq(|names|, i requires 0 <= i < |names| && names[i] in known => known[names[i]]);
      assert forall i :: 0 <= i < |states| ==> states[i].name == order[i];
      states
    }

    /** Every upstream is read at a reading of the clock of its own, and reported in configuration order. */
    method Snapshot(now: Clock) returns (snap: RuntimeSnapshot)
      requires Valid()
      modifies upstreams.Values
      ensures Valid()
      ensures snap.started == started && snap.initialProbeComplete == initialProbeComplete
      ensures SnapshotOf(old(Contents()), Contents(), order, now, snap.upstreams)
      ensures forall i :: 0 <= i < |order| ==> snap.upstreams[i].provider == upstreams[order[i]].provider
      ensures snap.hasEligibleUpstream <==> exists i :: 0 <= i < |order| && snap.upstreams[i].eligible
    {
      ghost var before := Contents();
      var statuses, hasEligible := ReadUpstreams(now);
      snap := RuntimeSnapshot(started, initialProbeComplete, hasEligible, statuses);
      ValidAfterReads(before, now);
      ReportsAfterReads(before, now, statuses);
    }

    method ReadUpstreams(now: Clock) returns (statuses: seq<UpstreamStatus>, hasEligible: bool)
      requires Wired()
      modifies upstreams.Values
      ensures AllRead(old(Contents()), now)
      ensures |statuses| == |order|
      ensures forall i :: 0 <= i < |order| ==>
                statuses[i] == StatusOf(order[i], upstreams[order[i]].provider, Refresh(old(Contents())[order[i]], now(i)))
      ensures hasEligible <==> exists i :: 0 <= i < |statuses| && statuses[i].eligible
    {
      var states := States();
      ghost var values := seq(|states|, i requires 0 <= i < |states| reads states => states[i].Value());
      statuses, hasEligible := ReadStatuses(states, values, now);
    }

    /** The statuses of pairwise different upstreams with the given values, each read at a reading of the clock
        of its own. */
    method ReadStatuses(states: seq<UpstreamState>, ghost values: seq<Upstream>, now: Clock)
      returns (statuses: seq<UpstreamStatus>, hasEligible: bool)
      requires forall i, j :: 0 <= i < j < |states| ==> states[i] != states[j]
      requires |values| == |states| && forall i :: 0 <= i < |states| ==> states[i].Value() == values[i]
      modifies states
      ensures |statuses| == |states|
      ensures forall i :: 0 <= i < |states| ==> states[i].Value() == Refresh(values[i], now(i))
      ensures forall i :: 0 <= i < |states| ==>
                statuses[i] == StatusOf(states[i].name, states[i].provider, Refresh(values[i], now(i)))
      ensures hasEligible <==> exists i :: 0 <= i < |statuses| && statuses[i].eligible
    {
      statuses, hasEligible := [], false;
      for i := 0 to |states|
        invariant |statuses| == i
        invariant forall j :: 0 <= j < |states| ==>
                    states[j].Value() == if j < i then Refresh(values[j], now(j)) else values[j]
        invariant forall j :: 0 <= j < i ==>
                    statuses[j] == StatusOf(states[j].name, states[j].provider, Refresh(values[j], now(j)))
        invariant hasEligible <==> exists j :: 0 <= j < i && statuses[j].eligible
      {
        var status := ReadStatus(states[i], now(i));
        if status.eligible {
          hasEligible := true;
        }
        statuses := statuses + [status];
      }
    }

    method ReadStatus(state: UpstreamState, now: nat) returns (status: UpstreamStatus)
      modifies state
      ensures state.Value() == Refresh(old(state.Value()), now)
      ensures status == StatusOf(state.name, state.provider, state.Value())
    {
      RefreshState(state, now);
      var eligible := state.state == Healthy;
      var ejectedUntil := state.ejectedUntil;
      if state.state != Open {
        ejectedUntil := 0;
      }
      status := UpstreamStatus(state.name, state.provider, state.state, eligible, state.consecutiveFailures,
                               ejectedUntil, state.lastProbeAt, state.lastProbeOK, state.lastError,
                               BreakerStateFor(state.state), state.source);
    }

    method MarkStarted()
      modifies `started
      ensures started
    {
      started := true;
    }

    method MarkInitialProbeComplete()
      modifies `initialProbeComplete
      ensures initialProbeComplete
    {
      initialProbeComplete := true;
    }

    /** What an accepted event does. */
    method ApplyProbeSucceeded(state: UpstreamState, at: nat)
      modifies state
      ensures state.Value() == Apply(policy, old(state.Value()), ProbeSuccess(at))
    {
      state.lastProbeAt := at;
      state.lastProbeOK := true;
      state.lastError := "";
      assert state.Value() == old(state.Value()).(lastProbeAt := at, lastProbeOK := true, lastError := "");
      if state.state == HalfOpen {
        state.halfOpenSuccesses := state.halfOpenSuccesses + 1;
        if state.halfOpenSuccesses >= policy.recoverySuccessThreshold {
          state.state := Healthy;
          state.consecutiveFailures := 0;
          state.halfOpenSuccesses := 0;
          state.ejectedUntil := 0;
          state.openWindowUntil := 0;
          state.source := FromProbe;
        }
      } else if state.state != Open {
        state.consecutiveFailures := 0;
        state.halfOpenSuccesses := 0;
        state.ejectedUntil := 0;
        state.openWindowUntil := 0;
        if state.state != Healthy {
          state.state := Healthy;
          state.source := FromProbe;
        }
      }
    }

    method ProbeSucceeded(state: UpstreamState, at: nat)
      modifies state
      ensures state.Value() == Step(policy, old(state.Value()), ProbeSuccess(at))
    {
      var ok := AcceptEvent(state, at);
      if ok {
        ApplyProbeSucceeded(state, at);
      }
    }

    method RecordProbeSuccess(name: string, at: nat)
      requires Valid()
      modifies upstreams.Values
      ensures Valid()
      ensures Contents() == RecordIn(policy, old(Contents()), name, ProbeSuccess(at))
    {
      if name !in upstreams {
        return;
      }
      ProbeSucceeded(upstreams[name], at);
      OneUpstreamChanged(old(Contents()), name, Record(ProbeSuccess(at)));
    }

    /** What an accepted event does. */
    method ApplyProbeFailed(state: UpstreamState, at: nat, error: string)
      modifies state
      ensures state.Value() == Apply(policy, old(state.Value()), ProbeFailure(at, error))
    {
      state.lastProbeAt := at;
      state.lastProbeOK := false;
      state.lastError := error;
      assert state.Value() == old(state.Value()).(lastProbeAt := at, lastProbeOK := false, lastError := error);
      if state.state == HalfOpen {
        state.consecutiveFailures := state.consecutiveFailures + 1;
        state.state := Open;
        state.source := FromProbe;
        state.halfOpenSuccesses := 0;
        state.ejectedUntil := at + policy.openInterval;
        state.openWindowUntil := state.ejectedUntil;
      } else if state.state != Open {
        state.consecutiveFailures := state.consecutiveFailures + 1;
        if state.consecutiveFailures >= policy.failureThreshold {
          state.state := Open;
          state.source := FromProbe;
          state.halfOpenSuccesses := 0;
          state.ejectedUntil := at + policy.openInterval;
          state.openWindowUntil := state.ejectedUntil;
        }
      }
    }

    method ProbeFailed(state: UpstreamState, at: nat, error: string)
      modifies state
      ensures state.Value() == Step(policy, old(state.Value()), ProbeFailure(at, error))
    {
      var ok := AcceptEvent(state, at);
      if ok {
        ApplyProbeFailed(state, at, error);
      }
    }

    method RecordProbeFailure(name: string, at: nat, error: string)
      requires Valid()
      modifies upstreams.Values
      ensures Valid()
      ensures Contents() == RecordIn(policy, old(Contents()), name, ProbeFailure(at, error))
    {
      if name !in upstreams {
        return;
      }
      ProbeFailed(upstreams[name], at, error);
      OneUpstreamChanged(old(Contents()), name, Record(ProbeFailure(at, error)));
    }

    /** What an accepted event does. */
    method ApplyRequestSucceeded(state: UpstreamState, at: nat)
      modifies state
      ensures state.Value() == Apply(policy, old(state.Value()), RequestSuccess(at))
    {
      state.lastRequestEventAt := at;
      if state.state != Open && state.state != HalfOpen {
        state.consecutiveFailures := 0;
        state.halfOpenSuccesses := 0;
        state.ejectedUntil := 0;
        state.openWindowUntil := 0;
        state.lastError := "";
        if state.state != Healthy {
          state.state := Healthy;
          state.source := FromRequest;
        }
      }
    }

    method RequestSucceeded(state: UpstreamState, at: nat)
      modifies state
      ensures state.Value() == Step(policy, old(state.Value()), RequestSuccess(at))
    {
      var ok := AcceptEvent(state, at);
      if ok {
        ApplyRequestSucceeded(state, at);
      }
    }

    method RecordRequestSuccess(name: string, at: nat)
      requires Valid()
      modifies upstreams.Values
      ensures Valid()
      ensures Contents() == RecordIn(policy, old(Contents()), name, RequestSuccess(at))
    {
      if name !in upstreams {
        return;
      }
      RequestSucceeded(upstreams[name], at);
      OneUpstreamChanged(old(Contents()), name, Record(RequestSuccess(at)));
    }

    /** What an accepted event does. */
    method ApplyRequestFailed(state: UpstreamState, at: nat, retryable: bool, outputCommitted: bool, error: string)
      modifies state
      ensures state.Value() == Apply(policy, old(state.Value()), RequestFailure(at, retryable, outputCommitted, error))
    {
      state.lastRequestEventAt := at;
      state.lastError := error;
      assert state.Value() == old(state.Value()).(lastRequestEventAt := at, lastError := error);
      if retryable && !outputCommitted {
        if state.state != Open && state.state != HalfOpen {
          state.consecutiveFailures := state.consecutiveFailures + 1;
          if state.consecutiveFailures >= policy.failureThreshold {
            state.state := Open;
            state.source := FromRequest;
            state.halfOpenSuccesses := 0;
            state.ejectedUntil := at + policy.openInterval;
            state.openWindowUntil := state.ejectedUntil;
          }
        }
      }
    }

    method RequestFailed(state: UpstreamState, at: nat, retryable: bool, outputCommitted: bool, error: string)
      modifies state
      ensures state.Value() == Step(policy, old(state.Value()), RequestFailure(at, retryable, outputCommitted, error))
    {
      var ok := AcceptEvent(state, at);
      if ok {
        ApplyRequestFailed(state, at, retryable, outputCommitted, error);
      }
    }

    method RecordRequestFailure(name: string, at: nat, retryable: bool, outputCommitted: bool, error: string)
      requires Valid()
      modifies upstreams.Values
      ensures Valid()
      ensures Contents() == RecordIn(policy, old(Contents()), name, RequestFailure(at, retryable, outputCommitted, error))
    {
      if name !in upstreams {
        return;
      }
      RequestFailed(upstreams[name], at, retryable, outputCommitted, error);
      OneUpstreamChanged(old(Contents()), name, Record(RequestFailure(at, retryable, outputCommitted, error)));
    }
  }

  // Runs of the whole runtime

  datatype RuntimeCall =
    | RecordFor(name: string, event: Event)
    | ReadOne(name: string, now: nat)
    | ReadAll(nowFor: string -> nat)

  function DoRuntime(p: Policy, v: View, c: RuntimeCall): View {
    match c
    case RecordFor(name, e) => RecordIn(p, v, name, e)
    case ReadOne(name, now) => ReadIn(v, name, now)
    case ReadAll(nowFor) => map name | name in v :: Refresh(v[name], nowFor(name))
  }

  function RunRuntime(p: Policy, v: View, calls: seq<RuntimeCall>): View {
    if calls == [] then v else DoRuntime(p, RunRuntime(p, v, calls[..|calls| - 1]), calls[|calls| - 1])
  }

  /** The calls of a run that concern one upstream. */
  function Project(calls: seq<RuntimeCall>, name: string): seq<Call> {
    if calls == [] then []
    else
      Project(calls[..|calls| - 1], name) +
      match calls[|calls| - 1]
      case RecordFor(n, e) => if n == name then [Record(e)] else []
      case ReadOne(n, now) => if n == name then [Read(now)] else []
      case ReadAll(nowFor) => [Read(nowFor(name))]
  }

  /** Upstreams do not influence each other: in any run of the runtime, each one goes through exactly the run
      of its own calls. Every result about one upstream is therefore a result about the whole runtime. */
  lemma {:induction false} UpstreamsAreIndependent(p: Policy, v: View, calls: seq<RuntimeCall>, name: string)
    ensures RunRuntime(p, v, calls).Keys == v.Keys
    ensures name in v ==> RunRuntime(p, v, calls)[name] == Exec(p, v[name], Project(calls, name))
  {
    if calls != [] {
      var front := calls[..|calls| - 1];
      UpstreamsAreIndependent(p, v, front, name);
      var mine := Project(front, name);
      var all := Project(calls, name);
      if all != mine {
        assert Front(all) == mine;
      }
    }
  }
}
