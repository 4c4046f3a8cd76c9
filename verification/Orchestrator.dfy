/** Executing one attempt, and walking a plan with a failover boundary. */
module Orchestrator {
  import opened Sequences
  import opened Config
  import opened Json
  import opened Lines
  import opened Events
  import opened HealthSpec
  import opened HealthInvariant
  import opened HealthRuntime
  import opened Router
  import OpenAI = OpenAIStream
  import Anthropic = AnthropicStream

  /** What the outside does with one attempt. */
  datatype HttpReply =
    | RequestNotBuilt
    | CredentialsMissing
    | TransportFailed
    | Answered(status: int, body: string, readFails: bool)

  /** The reply to one attempt, the time at which it is recorded, and the text an error would have. */
  datatype Reply = Reply(http: HttpReply, at: nat, summary: string)

  /** The reply to the i-th attempt of a request; attempts are made one after the other. */
  type Environment = nat -> Reply

  datatype AdapterError =
    | Execution(retryable: bool, outputCommitted: bool)
    | Classified(retryable: bool)
    | Unclassified

  datatype AdapterResult = Streamed(events: seq<Events.Event>) | AdapterFailed(error: AdapterError)

  function DecodeAnswer(codec: Codec, anthropic: bool, kind: EndpointKind, body: string, readFails: bool): DecodeResult {
    if anthropic then Anthropic.DecodeBody(codec, kind, body, readFails)
    else OpenAI.DecodeBody(codec, kind, body, readFails)
  }

  function CallAdapter(codec: Codec, anthropic: bool, kind: EndpointKind, reply: HttpReply): AdapterResult {
    match reply
    case RequestNotBuilt => AdapterFailed(Unclassified)
    case CredentialsMissing => AdapterFailed(Execution(false, false))
    case TransportFailed => AdapterFailed(Classified(true))
    case Answered(status, body, readFails) =>
      if 400 <= status then AdapterFailed(Classified(status in {429, 502, 503, 504}))
      else
        match DecodeAnswer(codec, anthropic, kind, body, readFails)
        case Decoded(events) => Streamed(events)
        case Broken(committed) => AdapterFailed(Execution(true, committed))
  }

  type Adapter = (EndpointKind, HttpReply) -> AdapterResult

  /** The adapters of the two provider families. The executor takes them as they are. */
  datatype Adapters = Adapters(openai: Adapter, anthropic: Adapter)
  {
    function For(provider: string): Adapter {
      if provider == "anthropic" then anthropic else openai
    }
  }

  function StreamAdapters(codec: Codec): Adapters {
    Adapters((kind, reply) => CallAdapter(codec, false, kind, reply), (kind, reply) => CallAdapter(codec, true, kind, reply))
  }

  /** An attempt ends with events, with an execution error, or with an error that is not one. */
  datatype AttemptResult =
    | Done(events: seq<Events.Event>)
    | ExecutionFailed(retryable: bool, outputCommitted: bool)
    | Refused

  function WrapExecutionError(e: AdapterError): AttemptResult {
    match e
    case Execution(retryable, committed) => ExecutionFailed(retryable, committed)
    case Classified(retryable) => ExecutionFailed(retryable, false)
    case Unclassified => ExecutionFailed(false, false)
  }

  /** The provider a name stands for; of two with one name, the last. */
  function Registry(providers: seq<ProviderConfig>): map<string, ProviderConfig> {
    if providers == [] then map[]
    else
      var last := providers[|providers| - 1];
      Registry(providers[..|providers| - 1])[last.name := last]
  }

  function Attempt(adapters: Adapters, registry: map<string, ProviderConfig>, kind: EndpointKind,
                   upstream: string, reply: HttpReply): AttemptResult {
    if upstream !in registry then Refused
    else if registry[upstream].provider !in {"openai", "anthropic"} then Refused
    else
      match adapters.For(registry[upstream].provider)(kind, reply)
      case Streamed(events) => Done(events)
      case AdapterFailed(e) => WrapExecutionError(e)
  }

  /** What an attempt reports to the runtime. */
  function Feedback(p: Policy, v: View, upstream: string, result: AttemptResult, reply: Reply): View {
    match result
    case Done(_) => RecordIn(p, v, upstream, RequestSuccess(reply.at))
    case ExecutionFailed(retryable, committed) =>
      RecordIn(p, v, upstream, RequestFailure(reply.at, retryable, committed, reply.summary))
    case Refused => v
  }

  /** The failover boundary: after such a result no other upstream is tried. */
  predicate Terminal(r: AttemptResult) {
    !r.ExecutionFailed? || r.outputCommitted || !r.retryable
  }

  ghost predicate IsLastNamed(providers: seq<ProviderConfig>, i: nat)
    requires i < |providers|
  {
    forall j :: i < j < |providers| ==> providers[j].name != providers[i].name
  }

  /** The registry resolves exactly the names of the providers, each to the last provider of that name. */
  lemma {:induction false} RegistryKnowsTheProviders(providers: seq<ProviderConfig>)
    ensures Registry(providers).Keys == set p | p in providers :: p.name
    ensures forall n :: n in Registry(providers) ==> Registry(providers)[n].name == n && Registry(providers)[n] in providers
    ensures forall i :: 0 <= i < |providers| && IsLastNamed(providers, i) ==>
              providers[i].name in Registry(providers) && Registry(providers)[providers[i].name] == providers[i]
  {
    forall i | 0 <= i < |providers| && IsLastNamed(providers, i)
      ensures providers[i].name in Registry(providers) && Registry(providers)[providers[i].name] == providers[i]
    {
      LastProviderWins(providers, i);
    }
    if providers != [] {
      RegistryKnowsTheProviders(providers[..|providers| - 1]);
      FrontAndLast(providers);
    }
  }

  lemma {:induction false} LastProviderWins(providers: seq<ProviderConfig>, i: nat)
    requires i < |providers| && IsLastNamed(providers, i)
    ensures providers[i].name in Registry(providers) && Registry(providers)[providers[i].name] == providers[i]
  {
    var n := |providers| - 1;
    if i < n {
      assert IsLastNamed(providers[..n], i);
      LastProviderWins(providers[..n], i);
      assert providers[n].name != providers[i].name;
    }
  }

  class Executor {
    const adapters: Adapters
    const registry: map<string, ProviderConfig>
    const runtime: Runtime

    constructor (adapters: Adapters, providers: seq<ProviderConfig>, runtime: Runtime)
      ensures this.adapters == adapters && registry == Registry(providers) && this.runtime == runtime
    {
      var index: map<string, ProviderConfig> := map[];
      for i := 0 to |providers|
        invariant index == Registry(providers[..i])
      {
        assert providers[..i + 1][..i] == providers[..i];
        index := index[providers[i].name := providers[i]];
      }
      assert providers[..|providers|] == providers;
      this.adapters, registry, this.runtime := adapters, index, runtime;
    }

    method Execute(kind: EndpointKind, upstream: string, reply: Reply) returns (r: AttemptResult)
      requires runtime.Valid()
      modifies runtime.upstreams.Values
      ensures runtime.Valid()
      ensures r == Attempt(adapters, registry, kind, upstream, reply.http)
      ensures runtime.Contents() == Feedback(runtime.policy, old(runtime.Contents()), upstream, r, reply)
    {
      if upstream !in registry {
        return Refused;
      }
      var provider := registry[upstream].provider;
      if provider != "openai" && provider != "anthropic" {
        return Refused;
      }
      var result := adapters.For(provider)(kind, reply.http);
      if result.AdapterFailed? {
        r := WrapExecutionError(result.error);
        runtime.RecordRequestFailure(upstream, reply.at, r.retryable, r.outputCommitted, reply.summary);
        return;
      }
      runtime.RecordRequestSuccess(upstream, reply.at);
      return Done(result.events);
    }
  }

  datatype RunResult =
    | Succeeded(events: seq<Events.Event>)
    | NotPlanned(plan: PlanResult)
    | NoAttempts
    | AttemptFailed(last: AttemptResult)

  /** The results of the attempts of one request, by position in the plan. */
  function ResultAt(adapters: Adapters, registry: map<string, ProviderConfig>, kind: EndpointKind,
                    plan: seq<string>, env: Environment, i: nat): AttemptResult
    requires i < |plan|
  {
    Attempt(adapters, registry, kind, plan[i], env(i).http)
  }

  /** n attempts of the plan are made: the last of them ended the request, or the plan is exhausted, and
      none before it ended the request. */
  ghost predicate StopsAt(adapters: Adapters, registry: map<string, ProviderConfig>, kind: EndpointKind,
                          plan: seq<string>, env: Environment, n: nat) {
    && n <= |plan|
    && (forall i :: 0 <= i < n - 1 ==> !Terminal(ResultAt(adapters, registry, kind, plan, env, i)))
    && (n < |plan| ==> 0 < n && Terminal(ResultAt(adapters, registry, kind, plan, env, n - 1)))
  }

  function RunResultOf(adapters: Adapters, registry: map<string, ProviderConfig>, kind: EndpointKind,
                       plan: seq<string>, env: Environment, n: nat): RunResult
    requires n <= |plan|
  {
    if n == 0 then NoAttempts
    else
      match ResultAt(adapters, registry, kind, plan, env, n - 1)
      case Done(events) => Succeeded(events)
      case r => AttemptFailed(r)
  }

  /** The runtime after the first n attempts reported their outcomes. */
  function AfterAttempts(p: Policy, adapters: Adapters, registry: map<string, ProviderConfig>, kind: EndpointKind,
                         v: View, plan: seq<string>, env: Environment, n: nat): View
    requires n <= |plan|
  {
    if n == 0 then v
    else
      Feedback(p, AfterAttempts(p, adapters, registry, kind, v, plan, env, n - 1), plan[n - 1],
               ResultAt(adapters, registry, kind, plan, env, n - 1), env(n - 1))
  }

  lemma AfterNextAttempt(p: Policy, adapters: Adapters, registry: map<string, ProviderConfig>, kind: EndpointKind,
                         v: View, plan: seq<string>, env: Environment, i: nat)
    requires i < |plan|
    ensures AfterAttempts(p, adapters, registry, kind, v, plan, env, i + 1)
         == Feedback(p, AfterAttempts(p, adapters, registry, kind, v, plan, env, i), plan[i],
                     Attempt(adapters, registry, kind, plan[i], env(i).http), env(i))
  {
  }

  ghost predicate NoneTerminal(adapters: Adapters, registry: map<string, ProviderConfig>, kind: EndpointKind,
                               plan: seq<string>, env: Environment, n: nat)
    requires n <= |plan|
  {
    forall i :: 0 <= i < n ==> !Terminal(ResultAt(adapters, registry, kind, plan, env, i))
  }

  /** A terminal result ends the request, any other is followed by the next attempt. */
  lemma NextResult(adapters: Adapters, registry: map<string, ProviderConfig>, kind: EndpointKind,
                   plan: seq<string>, env: Environment, i: nat, r: AttemptResult)
    requires i < |plan| && NoneTerminal(adapters, registry, kind, plan, env, i)
    requires r == Attempt(adapters, registry, kind, plan[i], env(i).http)
    ensures Terminal(r) ==> StopsAt(adapters, registry, kind, plan, env, i + 1)
    ensures !Terminal(r) ==> NoneTerminal(adapters, registry, kind, plan, env, i + 1)
    ensures RunResultOf(adapters, registry, kind, plan, env, i + 1)
         == if r.Done? then Succeeded(r.events) else AttemptFailed(r)
  {
  }

  /** When no result was terminal, the plan is exhausted. */
  lemma Exhausted(adapters: Adapters, registry: map<string, ProviderConfig>, kind: EndpointKind,
                  plan: seq<string>, env: Environment)
    requires NoneTerminal(adapters, registry, kind, plan, env, |plan|)
    ensures StopsAt(adapters, registry, kind, plan, env, |plan|)
  {
  }

  /** The failover rule determines how many attempts are made. */
  lemma StopsOnce(adapters: Adapters, registry: map<string, ProviderConfig>, kind: EndpointKind,
                  plan: seq<string>, env: Environment, n: nat, m: nat)
    requires StopsAt(adapters, registry, kind, plan, env, n) && StopsAt(adapters, registry, kind, plan, env, m)
    ensures n == m
  {
  }

  class Runner {
    const planner: Planner
    const executor: Executor

    constructor (planner: Planner, executor: Executor)
      ensures this.planner == planner && this.executor == executor
    {
      this.planner, this.executor := planner, executor;
    }

    /** The planner asks the runtime that the executor reports to. */
    ghost predicate Valid()
      reads this, planner, executor, executor.runtime, executor.runtime.upstreams.Values
    {
      planner.eligibility == executor.runtime && executor.runtime.Valid()
    }

    method Run(kind: EndpointKind, publicModel: string, now: Clock, env: Environment)
      returns (attempts: seq<string>, r: RunResult)
      requires Valid()
      modifies executor.runtime.upstreams.Values
      ensures Valid()
      ensures var runtime := executor.runtime;
              var before := old(runtime.Contents());
              var planned := ViewAfterPlan(planner.cfg, before, publicModel, now);
              match PlanFor(planner.cfg, Some(before), publicModel)
              case Planned(plan) =>
                && |attempts| <= |plan| && attempts == plan[..|attempts|]
                && StopsAt(executor.adapters, executor.registry, kind, plan, env, |attempts|)
                && r == RunResultOf(executor.adapters, executor.registry, kind, plan, env, |attempts|)
                && runtime.Contents() == AfterAttempts(runtime.policy, executor.adapters, executor.registry, kind,
                                                       planned, plan, env, |attempts|)
              case failed => attempts == [] && r == NotPlanned(failed) && runtime.Contents() == planned
      ensures forall i, j :: && 0 <= i < |planner.cfg.models| && IsFirstMatch(publicModel, planner.cfg.models, i)
                             && 0 <= j < |planner.cfg.routeGroups|
                             && IsFirstNamed(planner.cfg.models[i].routeGroup, planner.cfg.routeGroups, j) ==>
                var primary := planner.cfg.routeGroups[j].primary;
                MayServe(planner.cfg, Some(old(executor.runtime.Contents())), primary) ==>
                  attempts != [] && attempts[0] == primary
    {
      forall i, j | && 0 <= i < |planner.cfg.models| && IsFirstMatch(publicModel, planner.cfg.models, i)
                    && 0 <= j < |planner.cfg.routeGroups|
                    && IsFirstNamed(planner.cfg.models[i].routeGroup, planner.cfg.routeGroups, j)
        ensures var primary := planner.cfg.routeGroups[j].primary;
                MayServe(planner.cfg, Some(executor.runtime.Contents()), primary) ==>
                  var planned := PlanFor(planner.cfg, Some(executor.runtime.Contents()), publicModel);
                  planned.Planned? && planned.attempts != [] && planned.attempts[0] == primary
      {
        PrimaryComesFirst(planner.cfg, Some(executor.runtime.Contents()), publicModel, i, j);
      }
      var planResult := planner.Plan(publicModel, now);
      if !planResult.Planned? {
        return [], NotPlanned(planResult);
      }
      attempts, r := RunPlan(kind, planResult.attempts, env);
    }

    /** The i-th attempt of a request, and what it means for the request as a whole. */
    method Try(kind: EndpointKind, plan: seq<string>, env: Environment, i: nat, ghost before: View)
      returns (r: AttemptResult)
      requires executor.runtime.Valid() && i < |plan|
      requires NoneTerminal(executor.adapters, executor.registry, kind, plan, env, i)
      requires executor.runtime.Contents()
            == AfterAttempts(executor.runtime.policy, executor.adapters, executor.registry, kind, before, plan, env, i)
      modifies executor.runtime.upstreams.Values
      ensures executor.runtime.Valid()
      ensures executor.runtime.Contents()
           == AfterAttempts(executor.runtime.policy, executor.adapters, executor.registry, kind, before, plan, env, i + 1)
      ensures r == ResultAt(executor.adapters, executor.registry, kind, plan, env, i)
      ensures Terminal(r) ==> StopsAt(executor.adapters, executor.registry, kind, plan, env, i + 1)
      ensures !Terminal(r) ==> NoneTerminal(executor.adapters, executor.registry, kind, plan, env, i + 1)
      ensures RunResultOf(executor.adapters, executor.registry, kind, plan, env, i + 1)
           == if r.Done? then Succeeded(r.events) else AttemptFailed(r)
    {
      AfterNextAttempt(executor.runtime.policy, executor.adapters, executor.registry, kind, before, plan, env, i);
      r := executor.Execute(kind, plan[i], env(i));
      NextResult(executor.adapters, executor.registry, kind, plan, env, i, r);
    }

    method RunPlan(kind: EndpointKind, plan: seq<string>, env: Environment)
      returns (attempts: seq<string>, r: RunResult)
      requires executor.runtime.Valid()
      modifies executor.runtime.upstreams.Values
      ensures executor.runtime.Valid()
      ensures |attempts| <= |plan| && forall j :: 0 <= j < |attempts| ==> attempts[j] == plan[j]
      ensures StopsAt(executor.adapters, executor.registry, kind, plan, env, |attempts|)
      ensures r == RunResultOf(executor.adapters, executor.registry, kind, plan, env, |attempts|)
      ensures executor.runtime.Contents()
           == AfterAttempts(executor.runtime.policy, executor.adapters, executor.registry, kind,
                            old(executor.runtime.Contents()), plan, env, |attempts|)
    {
      ghost var before := executor.runtime.Contents();
      ghost var policy, adapters, registry := executor.runtime.policy, executor.adapters, executor.registry;
      attempts := [];
      var lastErr := NoAttempts; // until an attempt fails
      for i := 0 to |plan|
        invariant executor.runtime.Valid()
        invariant |attempts| == i && forall j :: 0 <= j < i ==> attempts[j] == plan[j]
        invariant NoneTerminal(adapters, registry, kind, plan, env, i)
        invariant lastErr == RunResultOf(adapters, registry, kind, plan, env, i)
        invariant executor.runtime.Contents() == AfterAttempts(policy, adapters, registry, kind, before, plan, env, i)
      {
        attempts := attempts + [plan[i]];
        var result := Try(kind, plan, env, i, before);
        if result.Done? {
          return attempts, Succeeded(result.events);
        }
        lastErr := AttemptFailed(result);
        if result.Refused? {
          return attempts, lastErr;
        }
        if result.outputCommitted || !result.retryable {
          return attempts, lastErr;
        }
      }
      Exhausted(adapters, registry, kind, plan, env);
      return attempts, lastErr;
    }
  }
}
