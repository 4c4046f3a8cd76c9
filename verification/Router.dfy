/** Configuration, route selection and planning. */
module Config {
  datatype Option<T> = None | Some(value: T)

  datatype ModelConfig = ModelConfig(pattern: string, routeGroup: string)

  datatype RouteGroupConfig = RouteGroupConfig(name: string, primary: string, fallbacks: seq<string>)
  {
    function Candidates(): seq<string> {
      [primary] + fallbacks
    }
  }

  datatype ProviderConfig = ProviderConfig(name: string, provider: string)

  datatype Config = Config(models: seq<ModelConfig>, providers: seq<ProviderConfig>, routeGroups: seq<RouteGroupConfig>)

  function ProviderNames(cfg: Config): set<string> {
    set p | p in cfg.providers :: p.name
  }

  /** What validation guarantees about routing. Two groups of one name pass it. */
  predicate Validated(cfg: Config) {
    && (forall g :: g in cfg.routeGroups ==> g.name != "")
    && (forall m :: m in cfg.models ==> m.pattern != "" && exists g :: g in cfg.routeGroups && g.name == m.routeGroup)
    && (forall p :: p in cfg.providers ==> p.name != "")
  }

  predicate UniqueGroupNames(cfg: Config) {
    forall i, j :: 0 <= i < j < |cfg.routeGroups| ==> cfg.routeGroups[i].name != cfg.routeGroups[j].name
  }
}

module Router {
  import opened Sequences
  import opened Config
  import opened HealthSpec
  import opened HealthInvariant
  import opened HealthRuntime

  predicate MatchesPattern(value: string, pattern: string) {
    if pattern != "" && pattern[|pattern| - 1] == '*' then pattern[..|pattern| - 1] <= value else value == pattern
  }

  /** A pattern that ends in a star matches what starts with the rest of it; any other one matches only itself. */
  lemma MatchesPatternIff(value: string, pattern: string)
    ensures MatchesPattern(value, pattern) <==>
              || (value == pattern && (pattern == "" || pattern[|pattern| - 1] != '*'))
              || exists prefix, rest :: pattern == prefix + "*" && value == prefix + rest
  {
    if MatchesPattern(value, pattern) && pattern != "" && pattern[|pattern| - 1] == '*' {
      var prefix := pattern[..|pattern| - 1];
      assert pattern == prefix + "*" && value == prefix + value[|prefix|..];
    }
    if prefix, rest :| pattern == prefix + "*" && value == prefix + rest {
      assert pattern[|pattern| - 1] == '*' && pattern[..|pattern| - 1] == prefix;
    }
  }

  ghost predicate IsFirstMatch(publicModel: string, models: seq<ModelConfig>, i: nat)
    requires i < |models|
  {
    && MatchesPattern(publicModel, models[i].pattern)
    && forall j :: 0 <= j < i ==> !MatchesPattern(publicModel, models[j].pattern)
  }

  function MatchModel(publicModel: string, models: seq<ModelConfig>): (r: Option<ModelConfig>)
    ensures r.Some? ==> exists i :: 0 <= i < |models| && r.value == models[i] && IsFirstMatch(publicModel, models, i)
    ensures r.None? ==> forall m :: m in models ==> !MatchesPattern(publicModel, m.pattern)
  {
    if models == [] then None
    else if MatchesPattern(publicModel, models[0].pattern) then Some(models[0])
    else
      var r := MatchModel(publicModel, models[1..]);
      assert forall i :: 0 <= i < |models| - 1 && IsFirstMatch(publicModel, models[1..], i) ==>
          IsFirstMatch(publicModel, models, i + 1);
      r
  }

  ghost predicate IsFirstNamed(name: string, groups: seq<RouteGroupConfig>, i: nat)
    requires i < |groups|
  {
    groups[i].name == name && forall j :: 0 <= j < i ==> groups[j].name != name
  }

  function FindRouteGroup(name: string, groups: seq<RouteGroupConfig>): (r: Option<RouteGroupConfig>)
    ensures r.Some? ==> exists i :: 0 <= i < |groups| && r.value == groups[i] && IsFirstNamed(name, groups, i)
    ensures r.None? ==> forall g :: g in groups ==> g.name != name
  {
    if groups == [] then None
    else if groups[0].name == name then Some(groups[0])
    else
      var r := FindRouteGroup(name, groups[1..]);
      assert forall i :: 0 <= i < |groups| - 1 && IsFirstNamed(name, groups[1..], i) ==> IsFirstNamed(name, groups, i + 1);
      r
  }

  datatype PlanResult = NoRoute | NoRouteGroup | Planned(attempts: seq<string>)

  /** Without a health view every known provider may serve. */
  predicate Servable(cfg: Config, health: Option<View>, candidate: string) {
    candidate in ProviderNames(cfg) && (health.None? || EligibleIn(health.value, candidate))
  }

  function KeepServable(cfg: Config, health: Option<View>, candidates: seq<string>): seq<string> {
    if candidates == [] then []
    else
      var last := candidates[|candidates| - 1];
      KeepServable(cfg, health, candidates[..|candidates| - 1]) + if Servable(cfg, health, last) then [last] else []
  }

  function PlanFor(cfg: Config, health: Option<View>, publicModel: string): PlanResult {
    match MatchModel(publicModel, cfg.models)
    case None => NoRoute
    case Some(model) =>
      match FindRouteGroup(model.routeGroup, cfg.routeGroups)
      case None => NoRouteGroup
      case Some(group) => Planned(KeepServable(cfg, health, group.Candidates()))
  }

  /** Planning reads the health of every known candidate; the k-th one at the k-th reading of the clock. */
  function ReadCandidates(cfg: Config, v: View, candidates: seq<string>, now: Clock): View {
    if candidates == [] then v
    else
      var n := |candidates| - 1;
      var w := ReadCandidates(cfg, v, candidates[..n], now);
      if candidates[n] in ProviderNames(cfg) then ReadIn(w, candidates[n], now(n)) else w
  }

  function ViewAfterPlan(cfg: Config, v: View, publicModel: string, now: Clock): View {
    match MatchModel(publicModel, cfg.models)
    case None => v
    case Some(model) =>
      match FindRouteGroup(model.routeGroup, cfg.routeGroups)
      case None => v
      case Some(group) => ReadCandidates(cfg, v, group.Candidates(), now)
  }

  /** The two errors: no pattern matches; the group of the first match does not exist. */
  lemma PlanErrors(cfg: Config, health: Option<View>, publicModel: string)
    ensures PlanFor(cfg, health, publicModel) == NoRoute <==>
              forall m :: m in cfg.models ==> !MatchesPattern(publicModel, m.pattern)
    ensures forall i :: 0 <= i < |cfg.models| && IsFirstMatch(publicModel, cfg.models, i) ==>
              (PlanFor(cfg, health, publicModel) == NoRouteGroup <==>
                 forall g :: g in cfg.routeGroups ==> g.name != cfg.models[i].routeGroup)
  {
  }

  lemma {:induction false} KeepServableAppend(cfg: Config, health: Option<View>, a: seq<string>, b: seq<string>)
    ensures KeepServable(cfg, health, a + b) == KeepServable(cfg, health, a) + KeepServable(cfg, health, b)
  {
    if b == [] {
      AppendEmpty(a);
      AppendEmpty(KeepServable(cfg, health, a));
    } else {
      FrontOfAppend(a, b);
      KeepServableAppend(cfg, health, a, b[..|b| - 1]);
      Associative(KeepServable(cfg, health, a), KeepServable(cfg, health, b[..|b| - 1]),
                  if Servable(cfg, health, b[|b| - 1]) then [b[|b| - 1]] else []);
    }
  }

  /** What may serve: the name of a provider that, if there is a health view, is healthy in it. */
  ghost predicate MayServe(cfg: Config, health: Option<View>, name: string) {
    && (exists p :: p in cfg.providers && p.name == name)
    && (health.Some? ==> name in health.value && health.value[name].state == Healthy)
  }

  /** For the first group j of the first matching model i: the plan is the primary, if it may serve, and then
      the fallbacks that may, in their order. */
  lemma PrimaryComesFirst(cfg: Config, health: Option<View>, publicModel: string, i: nat, j: nat)
    requires i < |cfg.models| && IsFirstMatch(publicModel, cfg.models, i)
    requires j < |cfg.routeGroups| && IsFirstNamed(cfg.models[i].routeGroup, cfg.routeGroups, j)
    ensures var group := cfg.routeGroups[j];
            PlanFor(cfg, health, publicModel)
            == Planned((if MayServe(cfg, health, group.primary) then [group.primary] else [])
                       + KeepServable(cfg, health, group.fallbacks))
  {
    var group := cfg.routeGroups[j];
    assert MatchModel(publicModel, cfg.models) == Some(cfg.models[i]);
    assert FindRouteGroup(cfg.models[i].routeGroup, cfg.routeGroups) == Some(group);
    KeepServableAppend(cfg, health, [group.primary], group.fallbacks);
    ServableIff(cfg, health, group.primary);
    assert [group.primary][..0] == [];
    AppendEmpty(if Servable(cfg, health, group.primary) then [group.primary] else []);
  }

  lemma ServableIff(cfg: Config, health: Option<View>, name: string)
    ensures Servable(cfg, health, name) <==> MayServe(cfg, health, name)
  {
  }

  /** A plan lists exactly the servable candidates, each as often as the group does. */
  lemma {:induction false} KeepServableCounts(cfg: Config, health: Option<View>, candidates: seq<string>, c: string)
    ensures multiset(KeepServable(cfg, health, candidates))[c]
         == if Servable(cfg, health, c) then multiset(candidates)[c] else 0
  {
    if candidates != [] {
      var n := |candidates| - 1;
      KeepServableCounts(cfg, health, candidates[..n], c);
      assert candidates == candidates[..n] + [candidates[n]];
    }
  }

  /** The plan is the candidates at these positions, which are increasing and exactly those of the ones that may
      serve. */
  ghost predicate KeptAt(cfg: Config, health: Option<View>, candidates: seq<string>, plan: seq<string>, at: seq<nat>) {
    && |at| == |plan|
    && (forall i :: 0 <= i < |at| ==> at[i] < |candidates| && plan[i] == candidates[at[i]])
    && (forall i, j :: 0 <= i < j < |at| ==> at[i] < at[j])
    && (forall k :: 0 <= k < |candidates| ==> (k in at <==> MayServe(cfg, health, candidates[k])))
  }

  lemma OneMoreCandidate(cfg: Config, health: Option<View>, front: seq<string>, plan: seq<string>, at: seq<nat>, c: string)
    requires KeptAt(cfg, health, front, plan, at)
    ensures MayServe(cfg, health, c) ==> KeptAt(cfg, health, front + [c], plan + [c], at + [|front|])
    ensures !MayServe(cfg, health, c) ==> KeptAt(cfg, health, front + [c], plan, at)
  {
    var all := front + [c];
    assert forall i :: 0 <= i < |at| ==> at[i] in at && at[i] < |front| && all[at[i]] == front[at[i]];
    assert forall k :: 0 <= k < |front| ==> all[k] == front[k];
  }

  /** A list of candidates is kept in its order. */
  lemma {:induction false} KeepServableInOrder(cfg: Config, health: Option<View>, candidates: seq<string>)
    returns (at: seq<nat>)
    ensures KeptAt(cfg, health, candidates, KeepServable(cfg, health, candidates), at)
  {
    if candidates == [] {
      at := [];
    } else {
      var front, c := candidates[..|candidates| - 1], candidates[|candidates| - 1];
      at := KeepServableInOrder(cfg, health, front);
      OneMoreCandidate(cfg, health, front, KeepServable(cfg, health, front), at, c);
      ServableIff(cfg, health, c);
      FrontAndLast(candidates);
      if Servable(cfg, health, c) {
        at := at + [|front|];
      } else {
        AppendEmpty(KeepServable(cfg, health, front));
      }
    }
  }

  lemma KeepServableMembers(cfg: Config, health: Option<View>, candidates: seq<string>)
    ensures forall c :: c in KeepServable(cfg, health, candidates) <==> c in candidates && Servable(cfg, health, c)
  {
    forall c
      ensures c in KeepServable(cfg, health, candidates) <==> c in candidates && Servable(cfg, health, c)
    {
      KeepServableCounts(cfg, health, candidates, c);
      assert c in KeepServable(cfg, health, candidates) <==> c in multiset(KeepServable(cfg, health, candidates));
      assert c in candidates <==> c in multiset(candidates);
    }
  }

  /** The two views differ only by reads. */
  ghost predicate OnlyRead(before: View, after: View) {
    before.Keys == after.Keys && forall n :: n in before ==> SameUpToRefresh(after[n], before[n])
  }

  lemma {:induction false} PlanningOnlyReads(cfg: Config, v: View, candidates: seq<string>, now: Clock)
    ensures OnlyRead(v, ReadCandidates(cfg, v, candidates, now))
  {
    if candidates != [] {
      PlanningOnlyReads(cfg, v, candidates[..|candidates| - 1], now);
    }
  }

  /** Plans depend on recorded events only: reads in between, under any clock, do not change them. */
  lemma {:induction false} ReadsKeepPlans(cfg: Config, before: View, after: View, candidates: seq<string>)
    requires OnlyRead(before, after)
    ensures KeepServable(cfg, Some(before), candidates) == KeepServable(cfg, Some(after), candidates)
  {
    if candidates != [] {
      ReadsKeepPlans(cfg, before, after, candidates[..|candidates| - 1]);
    }
  }

  lemma NextCandidate(cfg: Config, health: Option<View>, candidates: seq<string>, i: nat)
    requires i < |candidates|
    ensures KeepServable(cfg, health, candidates[..i + 1])
         == KeepServable(cfg, health, candidates[..i]) + if Servable(cfg, health, candidates[i]) then [candidates[i]] else []
  {
    assert candidates[..i + 1][..i] == candidates[..i];
  }

  lemma NextRead(cfg: Config, v: View, candidates: seq<string>, now: Clock, i: nat)
    requires i < |candidates|
    ensures ReadCandidates(cfg, v, candidates[..i + 1], now)
         == var w := ReadCandidates(cfg, v, candidates[..i], now);
            if candidates[i] in ProviderNames(cfg) then ReadIn(w, candidates[i], now(i)) else w
    ensures EligibleIn(ReadCandidates(cfg, v, candidates[..i], now), candidates[i]) <==> EligibleIn(v, candidates[i])
  {
    assert candidates[..i + 1][..i] == candidates[..i];
    PlanningOnlyReads(cfg, v, candidates[..i], now);
  }

  class Planner {
    const cfg: Config
    const eligibility: Runtime?

    constructor (cfg: Config, eligibility: Runtime?)
      ensures this.cfg == cfg && this.eligibility == eligibility
    {
      this.cfg, this.eligibility := cfg, eligibility;
    }

    ghost function Frame(): set<object>
      reads this, eligibility
    {
      if eligibility == null then {} else eligibility.upstreams.Values
    }

    ghost function Health(): Option<View>
      reads this, eligibility, Frame()
    {
      if eligibility == null then None else Some(eligibility.Contents())
    }

    ghost predicate Valid()
      reads this, eligibility, Frame()
    {
      eligibility == null || eligibility.Valid()
    }

    method Plan(publicModel: string, now: Clock) returns (r: PlanResult)
      requires Valid()
      modifies Frame()
      ensures Valid()
      ensures r == PlanFor(cfg, old(Health()), publicModel)
      ensures eligibility != null ==>
                eligibility.Contents() == ViewAfterPlan(cfg, old(eligibility.Contents()), publicModel, now)
    {
      var model := MatchModel(publicModel, cfg.models);
      if model.None? {
        return NoRoute;
      }
      var group := FindRouteGroup(model.value.routeGroup, cfg.routeGroups);
      if group.None? {
        return NoRouteGroup;
      }
      var knownProviders: set<string> := {};
      for i := 0 to |cfg.providers|
        invariant knownProviders == set p | p in cfg.providers[..i] :: p.name
      {
        knownProviders := knownProviders + {cfg.providers[i].name};
      }
      assert cfg.providers[..|cfg.providers|] == cfg.providers;
      var candidates := group.value.Candidates();
      var attempts := PlanCandidates(knownProviders, candidates, now);
      r := Planned(attempts);
    }

    method PlanCandidates(knownProviders: set<string>, candidates: seq<string>, now: Clock)
      returns (attempts: seq<string>)
      requires Valid() && knownProviders == ProviderNames(cfg)
      modifies Frame()
      ensures Valid()
      ensures attempts == KeepServable(cfg, old(Health()), candidates)
      ensures eligibility != null ==>
                eligibility.Contents() == ReadCandidates(cfg, old(eligibility.Contents()), candidates, now)
    {
      ghost var health := Health();
      attempts := [];
      for i := 0 to |candidates|
        invariant Valid()
        invariant eligibility != null ==>
                    eligibility.Contents() == ReadCandidates(cfg, health.value, candidates[..i], now)
        invariant attempts == KeepServable(cfg, health, candidates[..i])
      {
        NextCandidate(cfg, health, candidates, i);
        if eligibility != null {
          NextRead(cfg, health.value, candidates, now, i);
        }
        if candidates[i] !in knownProviders {
          continue;
        }
        if eligibility != null {
          var eligible := eligibility.IsEligible(candidates[i], now(i));
          if !eligible {
            continue;
          }
        }
        attempts := attempts + [candidates[i]];
      }
      assert candidates[..|candidates|] == candidates;
    }
  }
}
