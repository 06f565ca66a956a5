/** The goal list (src/pages/Goals.tsx): the goal list with the wizard's goal
    in front, its health and platform filters kept in the URL's query
    string, the filtered goals, and the counts and labels on the filter
    pills. */
module Goals {
  import opened Seqs
  import opened Platforms
  import opened Entities

  /** A filter as the page holds it. The page reads it from the URL with an
      unchecked cast, so besides `'all'` and the known values it can hold any
      other non-empty string, which then matches no goal. */
  datatype UrlFilter<T> = AnyValue | Exactly(value: T) | Unmatched(raw: string)

  /** The query string: key/value pairs in order. Percent-encoding is not
      modelled. */
  type Query = seq<(string, string)>

  /** `URLSearchParams.get`: the first value under key. */
  function QueryGet<K(==), V(==)>(q: seq<(K, V)>, key: K): (r: Option<V>)
    ensures r.None? <==> forall i :: 0 <= i < |q| ==> q[i].0 != key
    ensures r.Some? ==> (key, r.value) in q
    ensures r.Some? ==> exists i :: 0 <= i < |q| && q[i] == (key, r.value) && forall j :: 0 <= j < i ==> q[j].0 != key
  {
    if q == [] then None
    else if q[0].0 == key then Some(q[0].1)
    else QueryGet(q[1..], key)
  }

  /** q without the pairs under key. */
  function RemoveKey<K(==), V(==)>(q: seq<(K, V)>, key: K): (r: seq<(K, V)>)
    ensures forall i :: 0 <= i < |r| ==> r[i].0 != key
  {
    if q == [] then []
    else if q[0].0 == key then RemoveKey(q[1..], key)
    else [q[0]] + RemoveKey(q[1..], key)
  }

  /** Removing key leaves the other keys' values as they were. */
  lemma {:induction false} RemoveKeyKeepsOthers<K, V>(q: seq<(K, V)>, key: K, k: K)
    requires k != key
    ensures QueryGet(RemoveKey(q, key), k) == QueryGet(q, k)
  {
    if q != [] {
      RemoveKeyKeepsOthers(q[1..], key, k);
    }
  }

  /** `URLSearchParams.set`: the first pair under key takes the value and the
      others under key go; with no such pair, one is appended. */
  function QuerySet<K(==), V(==)>(q: seq<(K, V)>, key: K, value: V): (r: seq<(K, V)>)
    ensures QueryGet(r, key) == Some(value)
  {
    if q == [] then [(key, value)]
    else if q[0].0 == key then [(key, value)] + RemoveKey(q[1..], key)
    else [q[0]] + QuerySet(q[1..], key, value)
  }

  /** Setting key leaves the other keys' values as they were. */
  lemma {:induction false} QuerySetKeepsOthers<K, V>(q: seq<(K, V)>, key: K, value: V, k: K)
    requires k != key
    ensures QueryGet(QuerySet(q, key, value), k) == QueryGet(q, k)
  {
    if q != [] {
      if q[0].0 == key {
        RemoveKeyKeepsOthers(q[1..], key, k);
      } else {
        QuerySetKeepsOthers(q[1..], key, value, k);
      }
    }
  }

  /** No two pairs of q are under key. */
  predicate AtMostOnce<K(==), V>(q: seq<(K, V)>, key: K) {
    forall i, j :: 0 <= i < j < |q| && q[i].0 == key ==> q[j].0 != key
  }

  /** After `set`, key has exactly one pair. */
  lemma {:induction false} QuerySetUnique<K, V>(q: seq<(K, V)>, key: K, value: V)
    ensures AtMostOnce(QuerySet(q, key, value), key)
  {
    if q != [] {
      var r := QuerySet(q, key, value);
      if q[0].0 == key {
        var rest := RemoveKey(q[1..], key);
        assert r == [(key, value)] + rest;
        forall i, j | 0 <= i < j < |r| && r[i].0 == key
          ensures r[j].0 != key
        {
          assert r[j] == rest[j - 1];
        }
      } else {
        var t := QuerySet(q[1..], key, value);
        QuerySetUnique(q[1..], key, value);
        assert r == [q[0]] + t;
        forall i, j | 0 <= i < j < |r| && r[i].0 == key
          ensures r[j].0 != key
        {
          assert r[0] == q[0];
          assert 0 < i && r[i] == t[i - 1] && r[j] == t[j - 1];
        }
      }
    }
  }

  /** Setting a key that has no pair appends one at the end. */
  lemma {:induction false} QuerySetAppends<K, V>(q: seq<(K, V)>, key: K, value: V)
    requires QueryGet(q, key).None?
    ensures QuerySet(q, key, value) == q + [(key, value)]
  {
    if q != [] {
      assert q[0].0 != key;
      QuerySetAppends(q[1..], key, value);
      calc {
        QuerySet(q, key, value);
        [q[0]] + QuerySet(q[1..], key, value);
        [q[0]] + (q[1..] + [(key, value)]);
        ([q[0]] + q[1..]) + [(key, value)];
        { assert [q[0]] + q[1..] == q; }
        q + [(key, value)];
      }
    }
  }


  /** `(searchParams.get(key) as T) || 'all'`: a missing or empty parameter,
      and the text `all`, read as `'all'`. */
  function ParseFilter<T>(raw: Option<string>, ofId: string -> Option<T>): (f: UrlFilter<T>)
    ensures raw.None? || raw == Some("") || raw == Some("all") ==> f.AnyValue?
    ensures raw.Some? && raw.value != "" && raw.value != "all" && ofId(raw.value).Some? ==>
      f == Exactly(ofId(raw.value).value)
    ensures raw.Some? && raw.value != "" && raw.value != "all" && ofId(raw.value).None? ==>
      f == Unmatched(raw.value)
    ensures WellFormed(f, ofId)
  {
    if raw.None? || raw.value == "" || raw.value == "all" then AnyValue
    else
      match ofId(raw.value)
      case Some(v) => Exactly(v)
      case None => Unmatched(raw.value)
  }

  /** A filter state reading the URL can produce. */
  predicate WellFormed<T>(f: UrlFilter<T>, ofId: string -> Option<T>) {
    f.Unmatched? ==> f.raw != "" && f.raw != "all" && ofId(f.raw).None?
  }

  /** The parameter value `updateFilters` writes: nothing for `'all'`. */
  function Param<T>(f: UrlFilter<T>, id: T -> string): (r: Option<string>)
    ensures r.None? <==> f.AnyValue?
    ensures f.Exactly? ==> r == Some(id(f.value))
  {
    match f
    case AnyValue => None
    case Exactly(v) => Some(id(v))
    case Unmatched(raw) => Some(raw)
  }

  /** Reading back what was written gives the filter again, for identifiers
      that read back and are neither empty nor `all`. */
  lemma ParamRoundTrip<T>(f: UrlFilter<T>, id: T -> string, ofId: string -> Option<T>)
    requires forall v :: ofId(id(v)) == Some(v) && id(v) != "" && id(v) != "all"
    requires WellFormed(f, ofId)
    ensures ParseFilter(Param(f, id), ofId) == f
  {
  }

  lemma HealthRoundTrip(f: UrlFilter<HealthStatus>)
    requires WellFormed(f, HealthOfId)
    ensures ParseFilter(Param(f, HealthId), HealthOfId) == f
  {
    forall h ensures HealthOfId(HealthId(h)) == Some(h) && HealthId(h) != "" && HealthId(h) != "all" {
    }
    ParamRoundTrip(f, HealthId, HealthOfId);
  }

  lemma PlatformRoundTrip(f: UrlFilter<Platform>)
    requires WellFormed(f, PlatformOfId)
    ensures ParseFilter(Param(f, PlatformId), PlatformOfId) == f
  {
    forall p ensures PlatformOfId(PlatformId(p)) == Some(p) && PlatformId(p) != "" && PlatformId(p) != "all" {
    }
    ParamRoundTrip(f, PlatformId, PlatformOfId);
  }

  /** `updateFilters`: a fresh query with `status`, then `platform`, each set
      unless its filter is `'all'`. */
  method UpdateFilters(status: UrlFilter<HealthStatus>, platform: UrlFilter<Platform>) returns (params: Query)
    ensures QueryGet(params, "status") == Param(status, HealthId)
    ensures QueryGet(params, "platform") == Param(platform, PlatformId)
    ensures forall k :: k != "status" && k != "platform" ==> QueryGet(params, k).None?
    ensures |params| == (if status.AnyValue? then 0 else 1) + (if platform.AnyValue? then 0 else 1)
    ensures !status.AnyValue? ==> params[0].0 == "status"
  {
    ghost var first: Query := [];
    params := [];
    if !status.AnyValue? {
      QuerySetAppends(params, "status", Param(status, HealthId).value);
      params := QuerySet(params, "status", Param(status, HealthId).value);
      first := [("status", Param(status, HealthId).value)];
    }
    assert params == first;
    if !platform.AnyValue? {
      QuerySetAppends(params, "platform", Param(platform, PlatformId).value);
      params := QuerySet(params, "platform", Param(platform, PlatformId).value);
      assert params == first + [("platform", Param(platform, PlatformId).value)];
    } else {
      assert params == first + [];
    }
    StatusThenPlatform(params, Param(status, HealthId), Param(platform, PlatformId));
  }

  /** The query holding at most a status and then a platform parameter. */
  lemma StatusThenPlatform(q: Query, sv: Option<string>, pv: Option<string>)
    requires q == (if sv.Some? then [("status", sv.value)] else []) + (if pv.Some? then [("platform", pv.value)] else [])
    ensures QueryGet(q, "status") == sv && QueryGet(q, "platform") == pv
    ensures forall k :: k != "status" && k != "platform" ==> QueryGet(q, k).None?
    ensures |q| == (if sv.Some? then 1 else 0) + (if pv.Some? then 1 else 0)
    ensures sv.Some? ==> q[0].0 == "status"
  {
    assert forall i :: 0 <= i < |q| ==> q[i].0 == "status" || q[i].0 == "platform";
  }

  /** Both filters read back from the query `updateFilters` writes. */
  lemma UpdateFiltersRoundTrip(params: Query, status: UrlFilter<HealthStatus>, platform: UrlFilter<Platform>)
    requires WellFormed(status, HealthOfId) && WellFormed(platform, PlatformOfId)
    requires QueryGet(params, "status") == Param(status, HealthId)
    requires QueryGet(params, "platform") == Param(platform, PlatformId)
    ensures ParseFilter(QueryGet(params, "status"), HealthOfId) == status
    ensures ParseFilter(QueryGet(params, "platform"), PlatformOfId) == platform
  {
    HealthRoundTrip(status);
    PlatformRoundTrip(platform);
  }

  /** The goal passes the health clause and the primary-platform clause. */
  predicate GoalMatches(g: Goal, status: UrlFilter<HealthStatus>, platform: UrlFilter<Platform>)
    ensures status.Unmatched? || platform.Unmatched? ==> !GoalMatches(g, status, platform)
    ensures status.AnyValue? && platform.AnyValue? ==> GoalMatches(g, status, platform)
    ensures status.Exactly? && platform.AnyValue? ==> (GoalMatches(g, status, platform) <==> g.healthStatus == status.value)
    ensures status.AnyValue? && platform.Exactly? ==> (GoalMatches(g, status, platform) <==> PrimaryPlatform(g) == Some(platform.value))
  {
    && (status.AnyValue? || (status.Exactly? && g.healthStatus == status.value))
    && (platform.AnyValue? || (platform.Exactly? && PrimaryPlatform(g) == Some(platform.value)))
  }

  function MatchesBoth(status: UrlFilter<HealthStatus>, platform: UrlFilter<Platform>): Goal -> bool {
    g => GoalMatches(g, status, platform)
  }

  /** `filtered`. */
  function FilteredGoals(goals: seq<Goal>, status: UrlFilter<HealthStatus>, platform: UrlFilter<Platform>): (r: seq<Goal>)
    ensures forall g :: g in r <==> g in goals && GoalMatches(g, status, platform)
    ensures status.AnyValue? && platform.AnyValue? ==> r == goals
  {
    if status.AnyValue? && platform.AnyValue? then
      FilterKeepsAll(goals, MatchesBoth(status, platform));
      Filter(goals, MatchesBoth(status, platform))
    else
      Filter(goals, MatchesBoth(status, platform))
  }

  /** The filtered goals keep their order in the list. */
  lemma FilteredGoalsKeepOrder(goals: seq<Goal>, status: UrlFilter<HealthStatus>, platform: UrlFilter<Platform>, rank: Goal -> int)
    requires forall i, j :: 0 <= i < j < |goals| ==> rank(goals[i]) < rank(goals[j])
    ensures forall i, j :: 0 <= i < j < |FilteredGoals(goals, status, platform)| ==>
      rank(FilteredGoals(goals, status, platform)[i]) < rank(FilteredGoals(goals, status, platform)[j])
  {
    FilterKeepsOrder(goals, MatchesBoth(status, platform), rank);
  }

  /** A value the page cannot resolve hides every goal. */
  lemma UnmatchedHidesAll(goals: seq<Goal>, status: UrlFilter<HealthStatus>, platform: UrlFilter<Platform>)
    requires status.Unmatched? || platform.Unmatched?
    ensures FilteredGoals(goals, status, platform) == []
  {
    FilterKeepsNone(goals, MatchesBoth(status, platform));
  }

  function HasPrimary(p: Platform): Goal -> bool {
    g => PrimaryPlatform(g) == Some(p)
  }

  /** The count on a health pill: the goals with that health status, which
      is what choosing the pill shows when the platform filter is 'all'. */
  function HealthCount(goals: seq<Goal>, h: HealthStatus): (n: nat)
    ensures n == |FilteredGoals(goals, Exactly(h), AnyValue)|
    ensures n <= |goals|
  {
    FilterAgree(goals, HasHealth(h), MatchesBoth(Exactly(h), AnyValue));
    |Filter(goals, HasHealth(h))|
  }

  /** The count on a platform pill: the goals with that primary platform,
      which is what choosing the pill shows when the status filter is 'all'. */
  function PlatformCount(goals: seq<Goal>, p: Platform): (n: nat)
    ensures n == |FilteredGoals(goals, AnyValue, Exactly(p))|
    ensures n <= |goals|
  {
    FilterAgree(goals, HasPrimary(p), MatchesBoth(AnyValue, Exactly(p)));
    |Filter(goals, HasPrimary(p))|
  }

  /** Every goal is counted on exactly one health pill. */
  lemma {:induction false} HealthCountsSum(goals: seq<Goal>)
    ensures HealthCount(goals, OnTrack) + HealthCount(goals, AtRisk) + HealthCount(goals, NeedsAttention) == |goals|
  {
    if goals != [] {
      HealthCountsSum(goals[1..]);
    }
  }

  /** The health pills: `'all'` first, then each health status once. */
  function HealthFilters(): (pills: seq<(string, UrlFilter<HealthStatus>)>)
    ensures |pills| == 4 && pills[0] == ("All", AnyValue)
    ensures forall h :: exists i :: 1 <= i < 4 && pills[i].1 == Exactly(h)
    ensures forall i, j :: 0 <= i < j < 4 ==> pills[i].1 != pills[j].1 && pills[i].0 != pills[j].0
  {
    var pills := [("All", AnyValue), ("On Track", Exactly(OnTrack)),
                  ("At Risk", Exactly(AtRisk)), ("Needs Attention", Exactly(NeedsAttention))];
    forall h ensures exists i :: 1 <= i < 4 && pills[i].1 == Exactly(h) {
      HealthListed(pills, h);
    }
    pills
  }

  lemma HealthListed(pills: seq<(string, UrlFilter<HealthStatus>)>, h: HealthStatus)
    requires |pills| == 4
    requires pills[1].1 == Exactly(OnTrack) && pills[2].1 == Exactly(AtRisk) && pills[3].1 == Exactly(NeedsAttention)
    ensures exists i :: 1 <= i < 4 && pills[i].1 == Exactly(h)
  {
    match h
    case OnTrack => assert pills[1].1 == Exactly(h);
    case AtRisk => assert pills[2].1 == Exactly(h);
    case NeedsAttention => assert pills[3].1 == Exactly(h);
  }

  /** `availablePlatforms`: the goals' primary platforms, each once, with
      goals that have none skipped. */
  function AvailablePlatforms(goals: seq<Goal>): (ps: seq<Platform>)
    ensures NoDuplicates(ps)
    ensures forall p :: p in ps <==> exists i :: 0 <= i < |goals| && PrimaryPlatform(goals[i]) == Some(p)
  {
    var primaries := Map(goals, PrimaryPlatform);
    SomesNoDuplicates(Distinct(primaries));
    Somes(Distinct(primaries))
  }

  /** The platforms are listed in the order their first goal appears. */
  lemma AvailablePlatformsInFirstOccurrenceOrder(goals: seq<Goal>)
    ensures var ps, primaries := AvailablePlatforms(goals), Map(goals, PrimaryPlatform);
      forall i, j :: 0 <= i < j < |ps| ==> FirstIndex(primaries, Some(ps[i])) < FirstIndex(primaries, Some(ps[j]))
  {
    var primaries := Map(goals, PrimaryPlatform);
    var d := Distinct(primaries);
    DistinctInFirstOccurrenceOrder(primaries);
    SomesKeepsOrder(d, o => FirstIndex(primaries, o));
  }

  /** A platform is listed exactly when its pill would count a goal. */
  lemma ListedIffCounted(goals: seq<Goal>, p: Platform)
    ensures p in AvailablePlatforms(goals) <==> PlatformCount(goals, p) >= 1
  {
    var f := Filter(goals, HasPrimary(p));
    if p in AvailablePlatforms(goals) {
      var i :| 0 <= i < |goals| && PrimaryPlatform(goals[i]) == Some(p);
      assert goals[i] in f;
    }
    if PlatformCount(goals, p) >= 1 {
      assert f[0] in goals && PrimaryPlatform(f[0]) == Some(p);
    }
  }

  /** What a platform pill shows. */
  datatype PlatformPill = PlatformPill(platform: Platform, labelText: string, count: nat)

  /** The platform pills: one per listed platform, labelled from the
      platform table, with a count of at least one. */
  function PlatformPills(goals: seq<Goal>): (pills: seq<PlatformPill>)
    ensures |pills| == |AvailablePlatforms(goals)|
    ensures forall i :: 0 <= i < |pills| ==>
      pills[i].platform == AvailablePlatforms(goals)[i] &&
      pills[i].labelText == PlatformConfigs()[pills[i].platform].labelText &&
      pills[i].count == PlatformCount(goals, pills[i].platform) && pills[i].count >= 1
    ensures forall i, j :: 0 <= i < j < |pills| ==> pills[i].labelText != pills[j].labelText
  {
    var ps := AvailablePlatforms(goals);
    forall p | p in ps ensures PlatformCount(goals, p) >= 1 {
      ListedIffCounted(goals, p);
    }
    Map(ps, p => PlatformPill(p, PlatformLabel(p), PlatformCount(goals, p)))
  }

  /** `goal5Data`'s base record: the refreshed one once goal-5 has been
      refreshed. */
  function Goal5Base(newGoal5: Goal, refreshedGoal5: Goal, refreshedGoalIds: set<string>): Goal {
    if "goal-5" in refreshedGoalIds then refreshedGoal5 else newGoal5
  }

  /** `allGoals` on the goal list. */
  function AllGoals(newGoal5: Goal, refreshedGoal5: Goal, refreshedGoalIds: set<string>,
                    w: WizardContext, mockGoals: seq<Goal>): (goals: seq<Goal>)
    ensures w.goalCreated && "goal-5" in refreshedGoalIds ==>
      goals == [WithWizardOverrides(refreshedGoal5, w)] + mockGoals
    ensures w.goalCreated && "goal-5" !in refreshedGoalIds ==>
      goals == [WithWizardOverrides(newGoal5, w)] + mockGoals
    ensures !w.goalCreated ==> goals == mockGoals
  {
    GoalList(Goal5Base(newGoal5, refreshedGoal5, refreshedGoalIds), w, mockGoals)
  }

  /** The page's filter state and the query string it keeps in step. */
  class GoalsPage {
    var statusFilter: UrlFilter<HealthStatus>
    var platformFilter: UrlFilter<Platform>
    var searchParams: Query

    /** The filters are what the URL reads as. */
    ghost predicate Valid()
      reads this
    {
      && statusFilter == ParseFilter(QueryGet(searchParams, "status"), HealthOfId)
      && platformFilter == ParseFilter(QueryGet(searchParams, "platform"), PlatformOfId)
    }

    /** The initial state is read from the URL. */
    constructor (params: Query)
      ensures searchParams == params
      ensures statusFilter == ParseFilter(QueryGet(params, "status"), HealthOfId)
      ensures platformFilter == ParseFilter(QueryGet(params, "platform"), PlatformOfId)
      ensures Valid()
    {
      searchParams := params;
      statusFilter := ParseFilter(QueryGet(params, "status"), HealthOfId);
      platformFilter := ParseFilter(QueryGet(params, "platform"), PlatformOfId);
    }

    /** `handleStatusFilter`: a health pill was chosen. */
    method HandleStatusFilter(v: UrlFilter<HealthStatus>)
      requires Valid() && !v.Unmatched?
      modifies this
      ensures Valid()
      ensures statusFilter == v && platformFilter == old(platformFilter)
      ensures QueryGet(searchParams, "status") == Param(v, HealthId)
      ensures QueryGet(searchParams, "platform") == Param(old(platformFilter), PlatformId)
      ensures forall k :: k != "status" && k != "platform" ==> QueryGet(searchParams, k).None?
      ensures |searchParams| == (if v.AnyValue? then 0 else 1) + (if platformFilter.AnyValue? then 0 else 1)
      ensures !v.AnyValue? ==> searchParams[0].0 == "status"
    {
      statusFilter := v;
      searchParams := UpdateFilters(v, platformFilter);
      UpdateFiltersRoundTrip(searchParams, statusFilter, platformFilter);
    }

    /** `handlePlatformFilter`: a platform pill was chosen. */
    method HandlePlatformFilter(v: UrlFilter<Platform>)
      requires Valid() && !v.Unmatched?
      modifies this
      ensures Valid()
      ensures platformFilter == v && statusFilter == old(statusFilter)
      ensures QueryGet(searchParams, "status") == Param(old(statusFilter), HealthId)
      ensures QueryGet(searchParams, "platform") == Param(v, PlatformId)
      ensures forall k :: k != "status" && k != "platform" ==> QueryGet(searchParams, k).None?
      ensures |searchParams| == (if statusFilter.AnyValue? then 0 else 1) + (if v.AnyValue? then 0 else 1)
      ensures !statusFilter.AnyValue? ==> searchParams[0].0 == "status"
    {
      platformFilter := v;
      searchParams := UpdateFilters(statusFilter, platformFilter);
      UpdateFiltersRoundTrip(searchParams, statusFilter, platformFilter);
    }
  }
}
