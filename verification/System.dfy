/** The whole system as a machine: sequential requests, each planned and then attempted upstream by upstream,
    with probe results and reads coming in between any two steps. One upstream, the target, always fails. */
module System {
  import opened Config
  import opened Json
  import opened Events
  import opened HealthSpec
  import opened HealthInvariant
  import opened HealthRuntime
  import opened Router
  import opened Orchestrator
  import opened Failover

  datatype World = World(policy: Policy, cfg: Config, adapters: Adapters, registry: map<string, ProviderConfig>, target: string)

  /** pending is what the current request may still try; attempts counts those on the target; clock is the
      latest time stamp used on the target. */
  datatype Sys = Sys(view: View, pending: seq<string>, attempts: nat, clock: nat)

  datatype Action =
    | PlanRequest(publicModel: string, now: Clock)
    | AttemptNext(kind: EndpointKind, reply: Reply)
    | Observe(call: RuntimeCall)

  function Max(a: nat, b: nat): nat {
    if a < b then b else a
  }

  function PlannedAttempts(r: PlanResult): seq<string> {
    if r.Planned? then r.attempts else []
  }

  predicate Enabled(w: World, s: Sys, a: Action) {
    match a
    case PlanRequest(_, _) => s.pending == []
    case AttemptNext(_, _) => s.pending != []
    case Observe(_) => true
  }

  function Next(w: World, s: Sys, a: Action): Sys
    requires Enabled(w, s, a)
  {
    match a
    case PlanRequest(publicModel, now) =>
      s.(view := ViewAfterPlan(w.cfg, s.view, publicModel, now),
         pending := PlannedAttempts(PlanFor(w.cfg, Some(s.view), publicModel)))
    case AttemptNext(kind, reply) =>
      var name := s.pending[0];
      var r := Attempt(w.adapters, w.registry, kind, name, reply.http);
      Sys(Feedback(w.policy, s.view, name, r, reply),
          if Terminal(r) then [] else s.pending[1..],
          if name == w.target then s.attempts + 1 else s.attempts,
          if name == w.target then Max(s.clock, reply.at) else s.clock)
    case Observe(call) =>
      s.(view := DoRuntime(w.policy, s.view, call),
         clock := if call.RecordFor? && call.name == w.target then Max(s.clock, call.event.at) else s.clock)
  }

  /** The target fails retryably before output whenever it is attempted, at a time later than any used on it
      before; what is recorded on it besides are probes, and no probe success is accepted. */
  ghost predicate TargetKeepsFailing(w: World, s: Sys, a: Action)
    requires Enabled(w, s, a)
  {
    match a
    case PlanRequest(_, _) => true
    case AttemptNext(kind, reply) =>
      s.pending[0] == w.target ==>
        && Attempt(w.adapters, w.registry, kind, w.target, reply.http) == ExecutionFailed(true, false)
        && s.clock < reply.at
    case Observe(call) =>
      call.RecordFor? && call.name == w.target ==>
        && (call.event.ProbeSuccess? || call.event.ProbeFailure?)
        && (call.event.ProbeSuccess? && w.target in s.view ==> !Accepts(s.view[w.target], call.event.at))
  }

  ghost predicate IsStep(w: World, s: Sys, a: Action, t: Sys) {
    Enabled(w, s, a) && TargetKeepsFailing(w, s, a) && t == Next(w, s, a)
  }

  ghost predicate IsRun(w: World, states: seq<Sys>, actions: seq<Action>) {
    && |states| == |actions| + 1
    && forall i :: 0 <= i < |actions| ==> IsStep(w, states[i], actions[i], states[i + 1])
  }

  /** How often the target is listed. */
  function Listed(names: seq<string>, target: string): nat {
    multiset(names)[target]
  }

  ghost predicate ListedAtMost(w: World, m: nat) {
    forall g :: g in w.cfg.routeGroups ==> Listed(g.Candidates(), w.target) <= m
  }

  /** While the target serves, its failure count covers its attempts; once it does not, the attempts made and
      those still pending are bounded. */
  ghost predicate Bounded(w: World, s: Sys, m: nat) {
    && Listed(s.pending, w.target) <= m
    && (m == 0 ==> s.attempts == 0)
    && (w.target !in s.view ==> s.attempts == 0 && Listed(s.pending, w.target) == 0)
    && (w.target in s.view ==>
          var t := s.view[w.target];
          && Inv(w.policy, t) && t.lastAppliedEventAt <= s.clock
          && (t.state == Healthy ==> s.attempts <= t.consecutiveFailures)
          && (t.state != Healthy ==> s.attempts + Listed(s.pending, w.target) <= w.policy.failureThreshold - 1 + m))
  }

  /** A plan lists the target as often as its group does, and not at all while it does not serve. */
  lemma PlanListsTheTarget(w: World, v: View, publicModel: string, m: nat)
    requires ListedAtMost(w, m)
    ensures var plan := PlannedAttempts(PlanFor(w.cfg, Some(v), publicModel));
            Listed(plan, w.target) <= m && (!EligibleIn(v, w.target) ==> Listed(plan, w.target) == 0)
  {
    var model := MatchModel(publicModel, w.cfg.models);
    if model.Some? {
      var group := FindRouteGroup(model.value.routeGroup, w.cfg.routeGroups);
      if group.Some? {
        KeepServableCounts(w.cfg, Some(v), group.value.Candidates(), w.target);
      }
    }
  }

  lemma PlanOnlyReads(w: World, v: View, publicModel: string, now: Clock)
    ensures OnlyRead(v, ViewAfterPlan(w.cfg, v, publicModel, now))
  {
    var model := MatchModel(publicModel, w.cfg.models);
    if model.Some? {
      var group := FindRouteGroup(model.value.routeGroup, w.cfg.routeGroups);
      if group.Some? {
        PlanningOnlyReads(w.cfg, v, group.value.Candidates(), now);
      }
    }
  }

  lemma PlanKeepsBounded(w: World, s: Sys, a: Action, m: nat)
    requires Bounded(w, s, m) && ListedAtMost(w, m) && a.PlanRequest? && Enabled(w, s, a)
    ensures Bounded(w, Next(w, s, a), m)
  {
    PlanListsTheTarget(w, s.view, a.publicModel, m);
    PlanOnlyReads(w, s.view, a.publicModel, a.now);
    ReadsKeepBounded(w, s, Next(w, s, a), m);
  }

  /** Reads and a new plan keep the bound; a target that does not serve is not planned. */
  lemma ReadsKeepBounded(w: World, s: Sys, t: Sys, m: nat)
    requires Bounded(w, s, m) && s.pending == []
    requires t.attempts == s.attempts && t.clock == s.clock && OnlyRead(s.view, t.view)
    requires Listed(t.pending, w.target) <= m
    requires !EligibleIn(s.view, w.target) ==> Listed(t.pending, w.target) == 0
    ensures Bounded(w, t, m)
  {
  }

  /** An attempt on another upstream leaves the target as it was. */
  lemma OtherAttemptKeepsBounded(w: World, s: Sys, a: Action, m: nat)
    requires Bounded(w, s, m) && a.AttemptNext? && Enabled(w, s, a) && s.pending[0] != w.target
    ensures Bounded(w, Next(w, s, a), m)
  {
    var name := s.pending[0];
    var r := Attempt(w.adapters, w.registry, a.kind, name, a.reply.http);
    FeedbackIsLocal(w.policy, s.view, s.view, name, r, a.reply);
    assert s.pending == [name] + s.pending[1..];
  }

  lemma TargetAttemptKeepsBounded(w: World, s: Sys, a: Action, m: nat)
    requires Bounded(w, s, m) && a.AttemptNext? && Enabled(w, s, a) && TargetKeepsFailing(w, s, a)
    requires s.pending[0] == w.target
    ensures Bounded(w, Next(w, s, a), m)
  {
    var e := RequestFailure(a.reply.at, true, false, a.reply.summary);
    assert s.pending == [w.target] + s.pending[1..];
    assert Next(w, s, a).view == RecordIn(w.policy, s.view, w.target, e);
    if w.target in s.view {
      DoKeepsInv(w.policy, s.view[w.target], Record(e));
    }
  }

  lemma AttemptKeepsBounded(w: World, s: Sys, a: Action, m: nat)
    requires Bounded(w, s, m) && a.AttemptNext? && Enabled(w, s, a) && TargetKeepsFailing(w, s, a)
    ensures Bounded(w, Next(w, s, a), m)
  {
    if s.pending[0] == w.target {
      TargetAttemptKeepsBounded(w, s, a, m);
    } else {
      OtherAttemptKeepsBounded(w, s, a, m);
    }
  }

  /** What a call on the runtime does to one upstream. */
  lemma CallOnUpstream(p: Policy, v: View, call: RuntimeCall, name: string)
    ensures DoRuntime(p, v, call).Keys == v.Keys
    ensures name in v ==>
              DoRuntime(p, v, call)[name]
              == match call
                 case RecordFor(n, e) => if n == name then Step(p, v[name], e) else v[name]
                 case ReadOne(n, now) => if n == name then Refresh(v[name], now) else v[name]
                 case ReadAll(nowFor) => Refresh(v[name], nowFor(name))
  {
  }

  lemma ObserveKeepsBounded(w: World, s: Sys, a: Action, m: nat)
    requires Bounded(w, s, m) && a.Observe? && TargetKeepsFailing(w, s, a)
    ensures Bounded(w, Next(w, s, a), m)
  {
    CallOnUpstream(w.policy, s.view, a.call, w.target);
    if w.target in s.view {
      match a.call
      case RecordFor(name, e) => DoKeepsInv(w.policy, s.view[w.target], Record(e));
      case ReadOne(name, now) => DoKeepsInv(w.policy, s.view[w.target], Read(now));
      case ReadAll(nowFor) => DoKeepsInv(w.policy, s.view[w.target], Read(nowFor(w.target)));
    }
  }

  lemma {:induction false} RunKeepsBounded(w: World, states: seq<Sys>, actions: seq<Action>, m: nat, i: nat)
    requires IsRun(w, states, actions) && Bounded(w, states[0], m) && ListedAtMost(w, m) && i <= |actions|
    ensures Bounded(w, states[i], m)
  {
    if i != 0 {
      RunKeepsBounded(w, states, actions, m, i - 1);
      var before, a := states[i - 1], actions[i - 1];
      assert IsStep(w, before, a, states[i]);
      match a
      case PlanRequest(_, _) => PlanKeepsBounded(w, before, a, m);
      case AttemptNext(_, _) => AttemptKeepsBounded(w, before, a, m);
      case Observe(_) => ObserveKeepsBounded(w, before, a, m);
    }
  }

  /** Before anything happened: no request is under way, and the target is in a state it can be in. */
  ghost predicate Starts(w: World, s: Sys) {
    && s.pending == [] && s.attempts == 0
    && (w.target in s.view ==>
          Inv(w.policy, s.view[w.target]) && s.view[w.target].lastAppliedEventAt <= s.clock)
  }

  /** The most attempts on a dead upstream, when groups list it at most m times each. */
  function AttemptLimit(p: Policy, m: nat): nat {
    if m == 0 then 0 else p.failureThreshold - 1 + m
  }

  /** Over any number of requests, an upstream that always fails retryably before output and gets no accepted
      probe success is attempted at most failureThreshold - 1 + m times, where m is how often one group lists
      it: failureThreshold times when groups list it once. */
  lemma EjectionBound(w: World, states: seq<Sys>, actions: seq<Action>, m: nat)
    requires IsRun(w, states, actions) && Starts(w, states[0]) && ListedAtMost(w, m)
    ensures states[|actions|].attempts <= AttemptLimit(w.policy, m)
  {
    RunKeepsBounded(w, states, actions, m, |actions|);
  }

  // The bound is attained

  function Copies(name: string, k: nat): seq<string> {
    seq(k, _ => name)
  }

  /** One group lists the target once, another one m times; there is nobody else. */
  ghost predicate ServesOnlyTheTarget(w: World, m: nat)
    requires 0 < m
  {
    && w.cfg == Config([ModelConfig("one", "one"), ModelConfig("many", "many")], [ProviderConfig(w.target, "openai")],
                       [RouteGroupConfig("one", w.target, []), RouteGroupConfig("many", w.target, Copies(w.target, m - 1))])
    && w.registry == Registry(w.cfg.providers)
    && exists codec: Codec :: w.adapters == StreamAdapters(codec)
  }

  lemma TargetIsKnown(w: World, m: nat)
    requires 0 < m && ServesOnlyTheTarget(w, m)
    ensures w.target in ProviderNames(w.cfg)
  {
    assert ProviderConfig(w.target, "openai") in w.cfg.providers;
  }

  lemma CopiesGrow(name: string, k: nat)
    ensures Copies(name, k + 1) == Copies(name, k) + [name]
  {
  }

  lemma OneMoreServing(cfg: Config, v: View, front: seq<string>, name: string, now: Clock)
    requires name in ProviderNames(cfg) && EligibleIn(v, name) && ReadCandidates(cfg, v, front, now) == v
    ensures KeepServable(cfg, Some(v), front + [name]) == KeepServable(cfg, Some(v), front) + [name]
    ensures ReadCandidates(cfg, v, front + [name], now) == v
  {
    var all := front + [name];
    assert all[..|all| - 1] == front && all[|all| - 1] == name;
    assert ReadIn(v, name, now(|front|)) == v;
  }

  lemma {:induction false} ServingCopies(cfg: Config, v: View, name: string, k: nat, now: Clock)
    requires name in ProviderNames(cfg) && EligibleIn(v, name)
    ensures KeepServable(cfg, Some(v), Copies(name, k)) == Copies(name, k)
    ensures ReadCandidates(cfg, v, Copies(name, k), now) == v
  {
    if k == 0 {
      assert Copies(name, 0) == [];
    } else {
      ServingCopies(cfg, v, name, k - 1, now);
      OneMoreServing(cfg, v, Copies(name, k - 1), name, now);
      CopiesGrow(name, k - 1);
    }
  }

  /** The groups of the two models. */
  lemma GroupsOfTheTarget(w: World, m: nat)
    requires 0 < m && ServesOnlyTheTarget(w, m)
    ensures MatchModel("one", w.cfg.models) == Some(ModelConfig("one", "one"))
    ensures MatchModel("many", w.cfg.models) == Some(ModelConfig("many", "many"))
    ensures FindRouteGroup("one", w.cfg.routeGroups) == Some(w.cfg.routeGroups[0])
    ensures FindRouteGroup("many", w.cfg.routeGroups) == Some(w.cfg.routeGroups[1])
    ensures w.cfg.routeGroups[0].Candidates() == Copies(w.target, 1)
    ensures w.cfg.routeGroups[1].Candidates() == Copies(w.target, m)
  {
    assert |"one"| != |"many"|;
    assert w.cfg.models[1..] == [ModelConfig("many", "many")];
    assert w.cfg.routeGroups[1..] == [w.cfg.routeGroups[1]];
  }

  lemma TargetIsListed(w: World, m: nat)
    requires 0 < m && ServesOnlyTheTarget(w, m)
    ensures ListedAtMost(w, m)
  {
    GroupsOfTheTarget(w, m);
    CopiesAreListed(w.target, 1);
    CopiesAreListed(w.target, m);
  }

  lemma {:induction false} CopiesAreListed(name: string, k: nat)
    ensures Listed(Copies(name, k), name) == k
  {
    if k != 0 {
      CopiesAreListed(name, k - 1);
      CopiesGrow(name, k - 1);
    }
  }

  /** A target that was attempted k times and still serves. */
  ghost predicate FailedTimes(w: World, s: Sys, k: nat) {
    && s.pending == [] && s.attempts == k && s.clock == k && s.view.Keys == {w.target}
    && var t := s.view[w.target];
       && t.lastAppliedEventAt == k && t.openWindowUntil == 0 && t.ejectedUntil == 0
       && t.state == Healthy && t.consecutiveFailures == k
  }

  lemma TransportFailureIsRetryable(w: World, m: nat)
    requires 0 < m && ServesOnlyTheTarget(w, m)
    ensures Attempt(w.adapters, w.registry, ChatCompletions, w.target, TransportFailed) == ExecutionFailed(true, false)
  {
    var last := ProviderConfig(w.target, "openai");
    var codec: Codec :| w.adapters == StreamAdapters(codec);
    assert w.adapters.openai(ChatCompletions, TransportFailed) == AdapterFailed(Classified(true));
    assert w.cfg.providers == [last];
    assert Registry([last]) == Registry([])[w.target := last];
  }

  /** A request for a public model is planned on as many copies of the target as the model's group lists. */
  lemma PlannedOnTheTarget(w: World, m: nat, s: Sys, plan: Action)
    requires 0 < m && ServesOnlyTheTarget(w, m) && FailedTimes(w, s, s.attempts)
    requires plan.PlanRequest? && plan.publicModel in {"one", "many"}
    ensures IsStep(w, s, plan, s.(pending := Copies(w.target, if plan.publicModel == "one" then 1 else m)))
  {
    TargetIsKnown(w, m);
    GroupsOfTheTarget(w, m);
    ServingCopies(w.cfg, s.view, w.target, 1, plan.now);
    ServingCopies(w.cfg, s.view, w.target, m, plan.now);
  }

  function FailNow(s: Sys): Action {
    AttemptNext(ChatCompletions, Reply(TransportFailed, s.clock + 1, ""))
  }

  /** An attempt on the target fails ... */
  lemma FailsOnTheTarget(w: World, m: nat, s: Sys, k: nat)
    requires 0 < m && ServesOnlyTheTarget(w, m) && s.pending == Copies(w.target, k + 1)
    ensures IsStep(w, s, FailNow(s), Next(w, s, FailNow(s)))
    ensures Next(w, s, FailNow(s)).pending == Copies(w.target, k)
    ensures Next(w, s, FailNow(s)).attempts == s.attempts + 1
  {
    TransportFailureIsRetryable(w, m);
  }

  /** ... and counts, as long as the threshold is not reached. */
  lemma FailureCounts(w: World, m: nat, s: Sys)
    requires 0 < m && ServesOnlyTheTarget(w, m) && s.pending == Copies(w.target, 1)
    requires FailedTimes(w, s.(pending := []), s.attempts) && s.attempts + 1 < w.policy.failureThreshold
    ensures FailedTimes(w, Next(w, s, FailNow(s)), s.attempts + 1)
  {
    FailsOnTheTarget(w, m, s, 0);
    TransportFailureIsRetryable(w, m);
    var e := RequestFailure(s.attempts + 1, true, false, "");
    assert Next(w, s, FailNow(s)).view == s.view[w.target := Step(w.policy, s.view[w.target], e)];
  }

  lemma ExtendRun(w: World, states: seq<Sys>, actions: seq<Action>, a: Action, t: Sys)
    requires IsRun(w, states, actions) && IsStep(w, states[|actions|], a, t)
    ensures IsRun(w, states + [t], actions + [a])
    ensures (states + [t])[0] == states[0] && (states + [t])[|actions + [a]|] == t
  {
    var ss, aa := states + [t], actions + [a];
    forall i | 0 <= i < |aa|
      ensures IsStep(w, ss[i], aa[i], ss[i + 1])
    {
      if i < |actions| {
        assert ss[i] == states[i] && aa[i] == actions[i] && ss[i + 1] == states[i + 1];
      }
    }
  }

  /** A run of k requests for the group that lists the target once; the target still serves. */
  lemma {:induction false} RunOfSingles(w: World, m: nat, k: nat) returns (states: seq<Sys>, actions: seq<Action>)
    requires 0 < m && ServesOnlyTheTarget(w, m) && k < w.policy.failureThreshold
    ensures IsRun(w, states, actions) && Starts(w, states[0]) && FailedTimes(w, states[|actions|], k)
  {
    if k == 0 {
      states, actions := [Sys(map[w.target := INITIAL.(state := Healthy)], [], 0, 0)], [];
    } else {
      states, actions := RunOfSingles(w, m, k - 1);
      var plan := PlanRequest("one", _ => 0);
      var planned := states[|actions|].(pending := Copies(w.target, 1));
      PlannedOnTheTarget(w, m, states[|actions|], plan);
      ExtendRun(w, states, actions, plan, planned);
      states, actions := states + [planned], actions + [plan];
      FailsOnTheTarget(w, m, planned, 0);
      FailureCounts(w, m, planned);
      ExtendRun(w, states, actions, FailNow(planned), Next(w, planned, FailNow(planned)));
      states, actions := states + [Next(w, planned, FailNow(planned))], actions + [FailNow(planned)];
    }
  }

  /** What is planned on the target is attempted on it. */
  lemma {:induction false} RunOfThePlan(w: World, m: nat, k: nat, before: seq<Sys>, done: seq<Action>)
    returns (states: seq<Sys>, actions: seq<Action>)
    requires 0 < m && ServesOnlyTheTarget(w, m) && IsRun(w, before, done) && Starts(w, before[0])
    requires before[|done|].pending == Copies(w.target, k)
    ensures IsRun(w, states, actions) && Starts(w, states[0])
    ensures states[|actions|].attempts == before[|done|].attempts + k
    decreases k
  {
    states, actions := before, done;
    if k != 0 {
      var s := before[|done|];
      FailsOnTheTarget(w, m, s, k - 1);
      ExtendRun(w, before, done, FailNow(s), Next(w, s, FailNow(s)));
      states, actions := RunOfThePlan(w, m, k - 1, before + [Next(w, s, FailNow(s))], done + [FailNow(s)]);
    }
  }

  /** The bound is attained for every m: some run attempts the target, listed at most m times by a group, exactly
      so often. */
  lemma EjectionBoundIsTight(w: World, m: nat) returns (states: seq<Sys>, actions: seq<Action>)
    requires 0 < m && ServesOnlyTheTarget(w, m)
    ensures ListedAtMost(w, m) && IsRun(w, states, actions) && Starts(w, states[0])
    ensures states[|actions|].attempts == AttemptLimit(w.policy, m)
  {
    TargetIsListed(w, m);
    states, actions := RunOfSingles(w, m, w.policy.failureThreshold - 1);
    var plan := PlanRequest("many", _ => 0);
    var planned := states[|actions|].(pending := Copies(w.target, m));
    assert plan.publicModel != "one" by {
      assert |"one"| != |"many"|;
    }
    PlannedOnTheTarget(w, m, states[|actions|], plan);
    ExtendRun(w, states, actions, plan, planned);
    states, actions := RunOfThePlan(w, m, m, states + [planned], actions + [plan]);
  }

  // The runner is such a machine

  function Steps(w: World, kind: EndpointKind, s: Sys, env: Environment, n: nat): Sys
    requires n <= |s.pending|
  {
    if n == 0 then s
    else
      var before := Steps(w, kind, s, env, n - 1);
      var a := AttemptNext(kind, env(n - 1));
      if Enabled(w, before, a) then Next(w, before, a) else before
  }

  /** The attempts a request makes are steps of this machine: they leave the runtime as the runner leaves it,
      and nothing pending. */
  lemma {:induction false} RunnerTakesSteps(w: World, kind: EndpointKind, s: Sys, env: Environment, n: nat)
    requires n <= |s.pending|
    requires forall i :: 0 <= i < n - 1 ==> !Terminal(ResultAt(w.adapters, w.registry, kind, s.pending, env, i))
    ensures var t := Steps(w, kind, s, env, n);
            && t.view == AfterAttempts(w.policy, w.adapters, w.registry, kind, s.view, s.pending, env, n)
            && t.pending == if 0 < n && Terminal(ResultAt(w.adapters, w.registry, kind, s.pending, env, n - 1)) then []
                            else s.pending[n..]
  {
    if n != 0 {
      RunnerTakesSteps(w, kind, s, env, n - 1);
    }
  }

  lemma RunnerFinishesTheRequest(w: World, kind: EndpointKind, s: Sys, env: Environment, n: nat)
    requires StopsAt(w.adapters, w.registry, kind, s.pending, env, n)
    ensures Steps(w, kind, s, env, n).view
         == AfterAttempts(w.policy, w.adapters, w.registry, kind, s.view, s.pending, env, n)
    ensures Steps(w, kind, s, env, n).pending == []
  {
    RunnerTakesSteps(w, kind, s, env, n);
  }
}
