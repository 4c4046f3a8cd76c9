/** The readiness check: it recomputes from a snapshot what the planner asks of the runtime. */
module Readiness {
  import opened Config
  import opened HealthSpec
  import opened HealthInvariant
  import opened HealthRuntime
  import opened Router

  function LastGroup(name: string, groups: seq<RouteGroupConfig>): Option<RouteGroupConfig> {
    if groups == [] then None
    else if groups[|groups| - 1].name == name then Some(groups[|groups| - 1])
    else LastGroup(name, groups[..|groups| - 1])
  }

  function LastStatus(name: string, statuses: seq<UpstreamStatus>): Option<UpstreamStatus> {
    if statuses == [] then None
    else if statuses[|statuses| - 1].name == name then Some(statuses[|statuses| - 1])
    else LastStatus(name, statuses[..|statuses| - 1])
  }

  predicate ReportedEligible(statuses: seq<UpstreamStatus>, name: string) {
    LastStatus(name, statuses).Some? && LastStatus(name, statuses).value.eligible
  }

  ghost predicate GroupServes(cfg: Config, group: RouteGroupConfig, statuses: seq<UpstreamStatus>) {
    exists c :: c in group.Candidates() && c != "" && c in ProviderNames(cfg) && ReportedEligible(statuses, c)
  }

  ghost predicate GroupReady(cfg: Config, name: string, statuses: seq<UpstreamStatus>) {
    LastGroup(name, cfg.routeGroups).Some? && GroupServes(cfg, LastGroup(name, cfg.routeGroups).value, statuses)
  }

  ghost predicate AllGroupsReady(cfg: Config, statuses: seq<UpstreamStatus>) {
    forall m :: m in cfg.models && m.routeGroup != "" ==> GroupReady(cfg, m.routeGroup, statuses)
  }

  method RouteGroupHasEligibleUpstream(group: RouteGroupConfig, providers: set<string>,
                                       upstreams: map<string, UpstreamStatus>) returns (found: bool)
    ensures found <==> exists c :: c in group.Candidates() && c != "" && c in providers &&
                                   c in upstreams && upstreams[c].eligible
  {
    var candidates := group.Candidates();
    for i := 0 to |candidates|
      invariant forall j :: 0 <= j < i ==>
                  !(candidates[j] != "" && candidates[j] in providers &&
                    candidates[j] in upstreams && upstreams[candidates[j]].eligible)
    {
      var name := candidates[i];
      if name == "" {
        continue;
      }
      if name !in providers {
        continue;
      }
      if name !in upstreams {
        continue;
      }
      if upstreams[name].eligible {
        return true;
      }
    }
    return false;
  }

  method IndexGroups(groups: seq<RouteGroupConfig>) returns (index: map<string, RouteGroupConfig>)
    ensures forall n :: n != "" ==> (n in index <==> LastGroup(n, groups).Some?)
    ensures forall n :: n in index && n != "" ==> index[n] == LastGroup(n, groups).value
  {
    index := map[];
    for i := 0 to |groups|
      invariant forall n :: n != "" ==> (n in index <==> LastGroup(n, groups[..i]).Some?)
      invariant forall n :: n in index && n != "" ==> index[n] == LastGroup(n, groups[..i]).value
    {
      assert groups[..i + 1][..i] == groups[..i];
      if groups[i].name == "" {
        continue;
      }
      index := index[groups[i].name := groups[i]];
    }
    assert groups[..|groups|] == groups;
  }

  method IndexStatuses(statuses: seq<UpstreamStatus>) returns (index: map<string, UpstreamStatus>)
    ensures forall n :: n in index <==> LastStatus(n, statuses).Some?
    ensures forall n :: n in index ==> index[n] == LastStatus(n, statuses).value
  {
    index := map[];
    for i := 0 to |statuses|
      invariant forall n :: n in index <==> LastStatus(n, statuses[..i]).Some?
      invariant forall n :: n in index ==> index[n] == LastStatus(n, statuses[..i]).value
    {
      assert statuses[..i + 1][..i] == statuses[..i];
      index := index[statuses[i].name := statuses[i]];
    }
    assert statuses[..|statuses|] == statuses;
  }

  method AllRequiredRouteGroupsReady(cfg: Config, snapshot: RuntimeSnapshot) returns (ready: bool)
    ensures ready <==> AllGroupsReady(cfg, snapshot.upstreams)
  {
    var requiredGroups: set<string> := {};
    for i := 0 to |cfg.models|
      invariant requiredGroups == set m | m in cfg.models[..i] && m.routeGroup != "" :: m.routeGroup
    {
      if cfg.models[i].routeGroup == "" {
        continue;
      }
      requiredGroups := requiredGroups + {cfg.models[i].routeGroup};
    }
    assert cfg.models[..|cfg.models|] == cfg.models;
    var routeGroups := IndexGroups(cfg.routeGroups);
    var providers: set<string> := {};
    for i := 0 to |cfg.providers|
      invariant providers == set p | p in cfg.providers[..i] && p.name != "" :: p.name
    {
      if cfg.providers[i].name == "" {
        continue;
      }
      providers := providers + {cfg.providers[i].name};
    }
    assert cfg.providers[..|cfg.providers|] == cfg.providers;
    var upstreams := IndexStatuses(snapshot.upstreams);

    var remaining := requiredGroups;
    while remaining != {}
      invariant remaining <= requiredGroups
      invariant forall g :: g in requiredGroups && g !in remaining ==> GroupReady(cfg, g, snapshot.upstreams)
      decreases |remaining|
    {
      var groupName :| groupName in remaining;
      assert exists m :: m in cfg.models && m.routeGroup == groupName && m.routeGroup != "";
      if groupName !in routeGroups {
        return false;
      }
      var serves := RouteGroupHasEligibleUpstream(routeGroups[groupName], providers, upstreams);
      assert serves <==> GroupServes(cfg, routeGroups[groupName], snapshot.upstreams);
      if !serves {
        return false;
      }
      remaining := remaining - {groupName};
    }
    return true;
  }

  // Agreement with the planner

  /** The statuses report the health view, whatever was read and in whatever order. */
  ghost predicate Reports(statuses: seq<UpstreamStatus>, v: View) {
    forall n :: ReportedEligible(statuses, n) <==> EligibleIn(v, n)
  }

  lemma {:induction false} LastStatusIsIn(name: string, statuses: seq<UpstreamStatus>)
    ensures LastStatus(name, statuses).Some? ==>
              LastStatus(name, statuses).value in statuses && LastStatus(name, statuses).value.name == name
    ensures LastStatus(name, statuses).None? ==> forall s :: s in statuses ==> s.name != name
  {
    if statuses != [] && statuses[|statuses| - 1].name != name {
      LastStatusIsIn(name, statuses[..|statuses| - 1]);
    }
  }

  /** A snapshot of differently named upstreams that lists them all reports the view. */
  lemma SnapshotReports(v: View, order: seq<string>, statuses: seq<UpstreamStatus>)
    requires forall n :: n in v <==> n in order
    requires |statuses| == |order|
    requires forall i :: 0 <= i < |order| ==>
               statuses[i].name == order[i] && (statuses[i].eligible <==> EligibleIn(v, order[i]))
    ensures Reports(statuses, v)
  {
    forall n
      ensures ReportedEligible(statuses, n) <==> EligibleIn(v, n)
    {
      LastStatusIsIn(n, statuses);
      if n in order {
        var i :| 0 <= i < |order| && order[i] == n;
        assert statuses[i].name == n;
      }
    }
  }

  /** The upstreams the planner would try for a group name. */
  function GroupPlan(cfg: Config, v: View, name: string): seq<string> {
    match FindRouteGroup(name, cfg.routeGroups)
    case None => []
    case Some(group) => KeepServable(cfg, Some(v), group.Candidates())
  }

  lemma {:induction false} LastGroupIsIn(name: string, groups: seq<RouteGroupConfig>)
    ensures LastGroup(name, groups).Some? ==>
              LastGroup(name, groups).value in groups && LastGroup(name, groups).value.name == name
    ensures LastGroup(name, groups).None? ==> forall g :: g in groups ==> g.name != name
  {
    if groups != [] && groups[|groups| - 1].name != name {
      LastGroupIsIn(name, groups[..|groups| - 1]);
    }
  }

  lemma FirstIsLast(cfg: Config, name: string)
    requires UniqueGroupNames(cfg)
    ensures FindRouteGroup(name, cfg.routeGroups) == LastGroup(name, cfg.routeGroups)
  {
    LastGroupIsIn(name, cfg.routeGroups);
  }

  /** The candidates of a group that can ever serve. */
  function KnownCandidates(cfg: Config, group: RouteGroupConfig): set<string> {
    set c | c in group.Candidates() && c in ProviderNames(cfg)
  }

  /** What the planner can choose from for a group name: it takes the first group of that name. */
  function FirstKnown(cfg: Config, name: string): set<string> {
    match FindRouteGroup(name, cfg.routeGroups)
    case None => {}
    case Some(group) => KnownCandidates(cfg, group)
  }

  /** What the readiness check looks at: it takes the last group of that name. */
  function LastKnown(cfg: Config, name: string): set<string> {
    match LastGroup(name, cfg.routeGroups)
    case None => {}
    case Some(group) => KnownCandidates(cfg, group)
  }

  ghost predicate SomeEligible(names: set<string>, v: View) {
    exists c :: c in names && EligibleIn(v, c)
  }

  ghost predicate EveryModelPlanned(cfg: Config, v: View) {
    forall m :: m in cfg.models ==> GroupPlan(cfg, v, m.routeGroup) != []
  }

  lemma PlannedIff(cfg: Config, v: View, name: string)
    ensures GroupPlan(cfg, v, name) != [] <==> SomeEligible(FirstKnown(cfg, name), v)
  {
    var group := FindRouteGroup(name, cfg.routeGroups);
    if group.Some? {
      var plan := KeepServable(cfg, Some(v), group.value.Candidates());
      KeepServableMembers(cfg, Some(v), group.value.Candidates());
      if plan != [] {
        assert plan[0] in plan;
        assert EligibleIn(v, plan[0]) && plan[0] in FirstKnown(cfg, name);
      }
    }
  }

  /** The answer of the check in terms of the runtime, for any configuration. */
  ghost predicate LastGroupsServe(cfg: Config, v: View) {
    forall m :: m in cfg.models && m.routeGroup != "" ==> SomeEligible(LastKnown(cfg, m.routeGroup) - {""}, v)
  }

  lemma ReadyIff(cfg: Config, statuses: seq<UpstreamStatus>, v: View, name: string)
    requires Reports(statuses, v)
    ensures GroupReady(cfg, name, statuses) <==> SomeEligible(LastKnown(cfg, name) - {""}, v)
  {
    var known := LastKnown(cfg, name) - {""};
    if GroupReady(cfg, name, statuses) {
      var group := LastGroup(name, cfg.routeGroups).value;
      var c :| c in group.Candidates() && c != "" && c in ProviderNames(cfg) && ReportedEligible(statuses, c);
      assert c in known && EligibleIn(v, c);
    }
    if SomeEligible(known, v) {
      var c :| c in known && EligibleIn(v, c);
      assert ReportedEligible(statuses, c);
    }
  }

  /** The readiness check asks whether the last group of every required name has somebody to serve it. */
  lemma CheckIsAboutLastGroups(cfg: Config, statuses: seq<UpstreamStatus>, v: View)
    requires Reports(statuses, v)
    ensures AllGroupsReady(cfg, statuses) <==> LastGroupsServe(cfg, v)
  {
    forall m | m in cfg.models
      ensures GroupReady(cfg, m.routeGroup, statuses) <==> SomeEligible(LastKnown(cfg, m.routeGroup) - {""}, v)
    {
      ReadyIff(cfg, statuses, v, m.routeGroup);
    }
  }

  // Whose eligibility matters, as a family of sets: each of them needs an eligible member

  function FirstFamily(cfg: Config): set<set<string>> {
    set m | m in cfg.models :: FirstKnown(cfg, m.routeGroup)
  }

  function LastFamily(cfg: Config): set<set<string>> {
    set m | m in cfg.models :: LastKnown(cfg, m.routeGroup)
  }

  ghost predicate EachServed(family: set<set<string>>, v: View) {
    forall s :: s in family ==> SomeEligible(s, v)
  }

  /** Every set of the second family contains one of the first. */
  predicate Covers(inner: set<set<string>>, outer: set<set<string>>) {
    forall s :: s in outer ==> exists t :: t in inner && t <= s
  }

  lemma CoversServes(inner: set<set<string>>, outer: set<set<string>>, v: View)
    requires Covers(inner, outer) && EachServed(inner, v)
    ensures EachServed(outer, v)
  {
    forall s | s in outer
      ensures SomeEligible(s, v)
    {
      var t :| t in inner && t <= s;
      assert SomeEligible(t, v);
    }
  }

  /** If s contains no set of the family, all of them can be served while s is not. */
  lemma ServedWithout(names: set<string>, family: set<set<string>>, s: set<string>) returns (v: View)
    requires forall t :: t in family ==> t <= names && !(t <= s)
    ensures v.Keys == names && EachServed(family, v) && !SomeEligible(s, v)
  {
    v := map n | n in names :: if n in s then INITIAL else INITIAL.(state := Healthy);
    forall t | t in family
      ensures SomeEligible(t, v)
    {
      var c :| c in t && c !in s;
      assert EligibleIn(v, c);
    }
  }

  lemma PlannerIsAboutFirstGroups(cfg: Config, v: View)
    ensures EveryModelPlanned(cfg, v) <==> EachServed(FirstFamily(cfg), v)
  {
    forall m | m in cfg.models
      ensures GroupPlan(cfg, v, m.routeGroup) != [] <==> SomeEligible(FirstKnown(cfg, m.routeGroup), v)
      ensures FirstKnown(cfg, m.routeGroup) in FirstFamily(cfg)
    {
      PlannedIff(cfg, v, m.routeGroup);
    }
  }

  lemma ValidatedNames(cfg: Config)
    requires Validated(cfg)
    ensures forall m :: m in cfg.models ==> m.routeGroup != "" && LastKnown(cfg, m.routeGroup) - {""} == LastKnown(cfg, m.routeGroup)
  {
    assert "" !in ProviderNames(cfg);
  }

  lemma LastFamilyDecides(cfg: Config, v: View)
    requires Validated(cfg)
    ensures LastGroupsServe(cfg, v) <==> EachServed(LastFamily(cfg), v)
  {
    ValidatedNames(cfg);
    forall m | m in cfg.models
      ensures LastKnown(cfg, m.routeGroup) in LastFamily(cfg)
    {
    }
  }

  /** Under validation the check and the planner are about these two families. */
  lemma FamiliesDecide(cfg: Config, statuses: seq<UpstreamStatus>, v: View)
    requires Validated(cfg) && Reports(statuses, v)
    ensures AllGroupsReady(cfg, statuses) <==> EachServed(LastFamily(cfg), v)
    ensures EveryModelPlanned(cfg, v) <==> EachServed(FirstFamily(cfg), v)
  {
    assert AllGroupsReady(cfg, statuses) <==> EachServed(LastFamily(cfg), v) by {
      CheckIsAboutLastGroups(cfg, statuses, v);
      LastFamilyDecides(cfg, v);
    }
    PlannerIsAboutFirstGroups(cfg, v);
  }

  lemma FamiliesAreKnown(cfg: Config)
    ensures forall s :: s in FirstFamily(cfg) || s in LastFamily(cfg) ==> s <= ProviderNames(cfg)
  {
  }

  /** Every health view is what some list of statuses reports. */
  lemma {:induction false} SomeReport(v: View, names: set<string>) returns (order: seq<string>, statuses: seq<UpstreamStatus>)
    requires names <= v.Keys
    ensures forall n :: n in order <==> n in names
    ensures |statuses| == |order|
    ensures forall i :: 0 <= i < |order| ==>
              statuses[i].name == order[i] && (statuses[i].eligible <==> EligibleIn(v, order[i]))
    decreases names
  {
    if names == {} {
      order, statuses := [], [];
    } else {
      var n :| n in names;
      order, statuses := SomeReport(v, names - {n});
      order, statuses := order + [n], statuses + [StatusOf(n, "", v[n])];
    }
  }

  lemma ReportOf(v: View) returns (statuses: seq<UpstreamStatus>)
    ensures Reports(statuses, v)
  {
    var order;
    order, statuses := SomeReport(v, v.Keys);
    SnapshotReports(v, order, statuses);
  }

  /** Whatever is reported, a passed check means that every configured model can be planned. */
  ghost predicate ReadyAlwaysPlanned(cfg: Config) {
    forall statuses, v :: Reports(statuses, v) && AllGroupsReady(cfg, statuses) ==> EveryModelPlanned(cfg, v)
  }

  /** Whatever is reported, if every configured model can be planned the check passes. */
  ghost predicate PlannedAlwaysReady(cfg: Config) {
    forall statuses, v :: Reports(statuses, v) && EveryModelPlanned(cfg, v) ==> AllGroupsReady(cfg, statuses)
  }

  /** The two algorithms agree on everything the runtime can report. */
  ghost predicate AlwaysAgree(cfg: Config) {
    forall statuses, v :: Reports(statuses, v) ==> (AllGroupsReady(cfg, statuses) <==> EveryModelPlanned(cfg, v))
  }

  lemma ReadyAlwaysPlannedIff(cfg: Config)
    requires Validated(cfg)
    ensures ReadyAlwaysPlanned(cfg) <==> Covers(LastFamily(cfg), FirstFamily(cfg))
  {
    if Covers(LastFamily(cfg), FirstFamily(cfg)) {
      forall statuses, v | Reports(statuses, v) && AllGroupsReady(cfg, statuses)
        ensures EveryModelPlanned(cfg, v)
      {
        FamiliesDecide(cfg, statuses, v);
        CoversServes(LastFamily(cfg), FirstFamily(cfg), v);
      }
    } else {
      var s :| s in FirstFamily(cfg) && forall t :: t in LastFamily(cfg) ==> !(t <= s);
      FamiliesAreKnown(cfg);
      var v := ServedWithout(ProviderNames(cfg), LastFamily(cfg), s);
      var statuses := ReportOf(v);
      FamiliesDecide(cfg, statuses, v);
    }
  }

  lemma PlannedAlwaysReadyIff(cfg: Config)
    requires Validated(cfg)
    ensures PlannedAlwaysReady(cfg) <==> Covers(FirstFamily(cfg), LastFamily(cfg))
  {
    if Covers(FirstFamily(cfg), LastFamily(cfg)) {
      forall statuses, v | Reports(statuses, v) && EveryModelPlanned(cfg, v)
        ensures AllGroupsReady(cfg, statuses)
      {
        FamiliesDecide(cfg, statuses, v);
        CoversServes(FirstFamily(cfg), LastFamily(cfg), v);
      }
    } else {
      var s :| s in LastFamily(cfg) && forall t :: t in FirstFamily(cfg) ==> !(t <= s);
      FamiliesAreKnown(cfg);
      var v := ServedWithout(ProviderNames(cfg), FirstFamily(cfg), s);
      var statuses := ReportOf(v);
      FamiliesDecide(cfg, statuses, v);
    }
  }

  /** Readiness and planning agree under every health view exactly when, for each model, the planner's providers
      include all the providers the check looks at for some model, and the other way round. */
  lemma AlwaysAgreeIff(cfg: Config)
    requires Validated(cfg)
    ensures AlwaysAgree(cfg) <==>
              Covers(LastFamily(cfg), FirstFamily(cfg)) && Covers(FirstFamily(cfg), LastFamily(cfg))
  {
    ReadyAlwaysPlannedIff(cfg);
    PlannedAlwaysReadyIff(cfg);
    assert AlwaysAgree(cfg) <==> ReadyAlwaysPlanned(cfg) && PlannedAlwaysReady(cfg);
  }

  lemma UniqueNamesCover(cfg: Config)
    requires UniqueGroupNames(cfg)
    ensures FirstFamily(cfg) == LastFamily(cfg) && Covers(FirstFamily(cfg), LastFamily(cfg))
  {
    forall m | m in cfg.models
      ensures FirstKnown(cfg, m.routeGroup) == LastKnown(cfg, m.routeGroup)
    {
      FirstIsLast(cfg, m.routeGroup);
    }
  }

  /** With unique group names, the check passes exactly when every configured model has somewhere to go. */
  lemma ReadinessAgreesWithPlanning(cfg: Config, statuses: seq<UpstreamStatus>, v: View)
    requires Validated(cfg) && UniqueGroupNames(cfg) && Reports(statuses, v)
    ensures AllGroupsReady(cfg, statuses) <==> EveryModelPlanned(cfg, v)
  {
    UniqueNamesCover(cfg);
    FamiliesDecide(cfg, statuses, v);
  }

  /** A plan for a public model, made when the health view is v. */
  ghost predicate HasPlan(cfg: Config, v: View, publicModel: string) {
    PlanFor(cfg, Some(v), publicModel).Planned? && PlanFor(cfg, Some(v), publicModel).attempts != []
  }

  lemma HasPlanIff(cfg: Config, v: View, publicModel: string)
    requires MatchModel(publicModel, cfg.models).Some?
    ensures var m := MatchModel(publicModel, cfg.models).value;
            HasPlan(cfg, v, publicModel) <==> SomeEligible(FirstKnown(cfg, m.routeGroup), v)
  {
    PlannedIff(cfg, v, MatchModel(publicModel, cfg.models).value.routeGroup);
  }

  /** For a public model some pattern matches: readiness always means a non-empty plan for it exactly when its
      providers include all those the check looks at for some configured model. */
  lemma ReadyMeansPlannableIff(cfg: Config, publicModel: string)
    requires Validated(cfg) && MatchModel(publicModel, cfg.models).Some?
    ensures (forall statuses, v :: Reports(statuses, v) && AllGroupsReady(cfg, statuses) ==> HasPlan(cfg, v, publicModel))
       <==> var m := MatchModel(publicModel, cfg.models).value;
            exists t :: t in LastFamily(cfg) && t <= FirstKnown(cfg, m.routeGroup)
  {
    var s := FirstKnown(cfg, MatchModel(publicModel, cfg.models).value.routeGroup);
    if t :| t in LastFamily(cfg) && t <= s {
      forall statuses, v | Reports(statuses, v) && AllGroupsReady(cfg, statuses)
        ensures HasPlan(cfg, v, publicModel)
      {
        FamiliesDecide(cfg, statuses, v);
        HasPlanIff(cfg, v, publicModel);
        assert SomeEligible(t, v);
      }
    } else {
      FamiliesAreKnown(cfg);
      var v := ServedWithout(ProviderNames(cfg), LastFamily(cfg), s);
      var statuses := ReportOf(v);
      FamiliesDecide(cfg, statuses, v);
      HasPlanIff(cfg, v, publicModel);
    }
  }

  lemma ReadyMeansServed(cfg: Config, statuses: seq<UpstreamStatus>, v: View, m: ModelConfig)
    requires Validated(cfg) && Reports(statuses, v) && AllGroupsReady(cfg, statuses)
    requires Covers(LastFamily(cfg), FirstFamily(cfg)) && m in cfg.models
    ensures SomeEligible(FirstKnown(cfg, m.routeGroup), v)
  {
    FamiliesDecide(cfg, statuses, v);
    CoversServes(LastFamily(cfg), FirstFamily(cfg), v);
    assert FirstKnown(cfg, m.routeGroup) in FirstFamily(cfg);
  }

  lemma ReadsKeepEligible(names: set<string>, v: View, later: View)
    requires OnlyRead(v, later) && SomeEligible(names, v)
    ensures SomeEligible(names, later)
  {
    var c :| c in names && EligibleIn(v, c);
    assert EligibleIn(later, c);
  }

  /** A ready router has a non-empty plan for every public model some pattern matches, also when the plan is
      made later, under any clock, as long as nothing was recorded in between. Unique group names are enough. */
  lemma ReadyMeansPlannable(cfg: Config, statuses: seq<UpstreamStatus>, v: View, later: View, publicModel: string)
    requires Validated(cfg) && Reports(statuses, v) && AllGroupsReady(cfg, statuses)
    requires UniqueGroupNames(cfg) || Covers(LastFamily(cfg), FirstFamily(cfg))
    requires OnlyRead(v, later)
    requires exists m :: m in cfg.models && MatchesPattern(publicModel, m.pattern)
    ensures HasPlan(cfg, later, publicModel)
  {
    if UniqueGroupNames(cfg) {
      UniqueNamesCover(cfg);
    }
    var m := MatchModel(publicModel, cfg.models).value;
    ReadyMeansServed(cfg, statuses, v, m);
    ReadsKeepEligible(FirstKnown(cfg, m.routeGroup), v, later);
    HasPlanIff(cfg, later, publicModel);
  }

  /** A validated configuration and a report on which the check passes and the planner has nowhere to go. */
  lemma DuplicateGroupsDisagree()
    ensures var cfg := Config([ModelConfig("m", "g")], [ProviderConfig("a", "openai"), ProviderConfig("b", "openai")],
                              [RouteGroupConfig("g", "a", []), RouteGroupConfig("g", "b", [])]);
            var v: View := map["a" := INITIAL, "b" := INITIAL.(state := Healthy)];
            var statuses := [StatusOf("a", "openai", v["a"]), StatusOf("b", "openai", v["b"])];
            && Validated(cfg) && Reports(statuses, v)
            && AllGroupsReady(cfg, statuses) && GroupPlan(cfg, v, "g") == []
  {
    var first, last := RouteGroupConfig("g", "a", []), RouteGroupConfig("g", "b", []);
    var a, b := ProviderConfig("a", "openai"), ProviderConfig("b", "openai");
    var cfg := Config([ModelConfig("m", "g")], [a, b], [first, last]);
    var v: View := map["a" := INITIAL, "b" := INITIAL.(state := Healthy)];
    var statuses := [StatusOf("a", "openai", v["a"]), StatusOf("b", "openai", v["b"])];
    assert first in cfg.routeGroups && a in cfg.providers && b in cfg.providers;
    SnapshotReports(v, ["a", "b"], statuses);
    CheckIsAboutLastGroups(cfg, statuses, v);
    PlannedIff(cfg, v, "g");
    assert LastGroup("g", cfg.routeGroups) == Some(last) && FindRouteGroup("g", cfg.routeGroups) == Some(first);
    assert "b" in last.Candidates() && "b" in LastKnown(cfg, "g");
    assert EligibleIn(v, "b") && SomeEligible(LastKnown(cfg, "g") - {""}, v);
  }

  lemma SnapshotDecides(cfg: Config, v: View, after: View, order: seq<string>, now: Clock, statuses: seq<UpstreamStatus>)
    requires SnapshotOf(v, after, order, now, statuses)
    ensures OnlyRead(v, after)
    ensures Reports(statuses, v) && (AllGroupsReady(cfg, statuses) <==> LastGroupsServe(cfg, v))
  {
    SnapshotReports(v, order, statuses);
    CheckIsAboutLastGroups(cfg, statuses, v);
    forall n | n in v
      ensures SameUpToRefresh(after[n], v[n])
    {
      assert n in order;
    }
  }

  /** The endpoint: started, probed once if that is required, and the last group of every required name served.
      With unique group names in a validated configuration the last means that every model can be planned. */
  method Readyz(cfg: Config, requireInitialProbe: bool, runtime: Runtime, now: Clock) returns (ready: bool)
    requires runtime.Valid()
    modifies runtime.upstreams.Values
    ensures runtime.Valid() && OnlyRead(old(runtime.Contents()), runtime.Contents())
    ensures ready <==>
              && runtime.started
              && (requireInitialProbe ==> runtime.initialProbeComplete)
              && LastGroupsServe(cfg, old(runtime.Contents()))
    ensures Validated(cfg) && UniqueGroupNames(cfg) ==>
              (LastGroupsServe(cfg, old(runtime.Contents())) <==> EveryModelPlanned(cfg, old(runtime.Contents())))
  {
    ghost var before := runtime.Contents();
    var snapshot := runtime.Snapshot(now);
    SnapshotDecides(cfg, before, runtime.Contents(), runtime.order, now, snapshot.upstreams);
    if Validated(cfg) && UniqueGroupNames(cfg) {
      ReadinessAgreesWithPlanning(cfg, snapshot.upstreams, before);
    }
    if !snapshot.started {
      return false;
    }
    if requireInitialProbe && !snapshot.initialProbeComplete {
      return false;
    }
    ready := AllRequiredRouteGroupsReady(cfg, snapshot);
  }
}
