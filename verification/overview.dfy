/** The figures of the overview page (src/pages/Overview.tsx): impression
    totals, impression-weighted rates, the primary-driver classifier and the
    channel mix, which groups goals by primary platform. */
module Overview {
  import opened Seqs
  import opened Platforms
  import opened Entities

  function Imps(g: Goal): nat {
    g.totalImpressions
  }

  function One(g: Goal): nat {
    1
  }

  /** `goals.reduce((s, g) => s + g.totalImpressions, 0)`: zero exactly
      when no goal has impressions. */
  function TotalImpressions(goals: seq<Goal>): (t: nat)
    ensures t == 0 <==> forall i :: 0 <= i < |goals| ==> goals[i].totalImpressions == 0
  {
    Sum(goals, Imps)
  }

  /** `goals.reduce((s, g) => s + g.totalSpend, 0)`: no goal spends a
      negative amount, so neither does the total. */
  function TotalSpend(goals: seq<Goal>): (s: real)
    ensures (forall i :: 0 <= i < |goals| ==> goals[i].totalSpend >= 0.0) ==> s >= 0.0
  {
    if goals == [] then 0.0
    else
      assert forall i :: 1 <= i < |goals| ==> goals[i] == goals[1..][i - 1];
      goals[0].totalSpend + TotalSpend(goals[1..])
  }

  lemma {:induction false} TotalSpendAppend(a: seq<Goal>, b: seq<Goal>)
    ensures TotalSpend(a + b) == TotalSpend(a) + TotalSpend(b)
  {
    if a == [] {
      assert a + b == b;
    } else {
      assert (a + b)[1..] == a[1..] + b;
      TotalSpendAppend(a[1..], b);
    }
  }

  /** The per-goal rates the page weights by impressions. */
  datatype Rate = AuthenticAdRate | BlockRate | FraudRate | ViewabilityRate | BrandSuitabilityRate | InGeoRate

  function RateOf(g: Goal, r: Rate): real {
    match r
    case AuthenticAdRate => g.authenticAdRate
    case BlockRate => g.blockRate
    case FraudRate => g.fraudRate
    case ViewabilityRate => g.viewabilityRate
    case BrandSuitabilityRate => g.brandSuitabilityRate
    case InGeoRate => g.inGeoRate
  }

  /** `goals.reduce((s, g) => s + g.<rate> * g.totalImpressions, 0)`. */
  function WeightedSum(goals: seq<Goal>, r: Rate): real {
    if goals == [] then 0.0
    else RateOf(goals[0], r) * goals[0].totalImpressions as real + WeightedSum(goals[1..], r)
  }

  /** Goals without impressions weigh nothing. */
  lemma {:induction false} WeightedSumNoImpressions(goals: seq<Goal>, r: Rate)
    requires TotalImpressions(goals) == 0
    ensures WeightedSum(goals, r) == 0.0
  {
    if goals != [] {
      assert goals[0].totalImpressions == 0;
      assert TotalImpressions(goals[1..]) == 0;
      WeightedSumNoImpressions(goals[1..], r);
    }
  }

  /** The weighted sum divided by the impressions. The page divides
      unguarded, which gives NaN at zero impressions; here that is None. */
  function WeightedMean(goals: seq<Goal>, r: Rate): (m: Option<real>)
    ensures m.None? <==> TotalImpressions(goals) == 0
  {
    var n := TotalImpressions(goals);
    if n == 0 then None else Some(WeightedSum(goals, r) / n as real)
  }

  /** The mean times the impressions gives back the weighted sum. */
  lemma WeightedMeanScales(goals: seq<Goal>, r: Rate)
    requires TotalImpressions(goals) > 0
    ensures WeightedMean(goals, r).value * TotalImpressions(goals) as real == WeightedSum(goals, r)
  {
    var w, n := WeightedSum(goals, r), TotalImpressions(goals) as real;
    assert WeightedMean(goals, r) == Some(w / n);
    Cancel(w, n);
  }

  lemma Cancel(w: real, n: real)
    requires n > 0.0
    ensures (w / n) * n == w
  {
  }

  lemma {:induction false} WeightedSumLower(goals: seq<Goal>, r: Rate, lo: real)
    requires forall i :: 0 <= i < |goals| ==> lo <= RateOf(goals[i], r)
    ensures lo * TotalImpressions(goals) as real <= WeightedSum(goals, r)
  {
    if goals != [] {
      WeightedSumLower(goals[1..], r, lo);
      LowerHead(goals, r, lo);
    }
  }

  lemma {:induction false} WeightedSumUpper(goals: seq<Goal>, r: Rate, hi: real)
    requires forall i :: 0 <= i < |goals| ==> RateOf(goals[i], r) <= hi
    ensures WeightedSum(goals, r) <= hi * TotalImpressions(goals) as real
  {
    if goals != [] {
      WeightedSumUpper(goals[1..], r, hi);
      UpperHead(goals, r, hi);
    }
  }

  lemma LowerHead(goals: seq<Goal>, r: Rate, lo: real)
    requires goals != [] && lo <= RateOf(goals[0], r)
    requires lo * TotalImpressions(goals[1..]) as real <= WeightedSum(goals[1..], r)
    ensures lo * TotalImpressions(goals) as real <= WeightedSum(goals, r)
  {
    calc {
      lo * TotalImpressions(goals) as real;
    == { TotalImpressionsUnfold(goals); }
      lo * (goals[0].totalImpressions as real + TotalImpressions(goals[1..]) as real);
    ==
      lo * goals[0].totalImpressions as real + lo * TotalImpressions(goals[1..]) as real;
    <= { ScaleMonotone(lo, RateOf(goals[0], r), goals[0].totalImpressions as real); }
      RateOf(goals[0], r) * goals[0].totalImpressions as real + lo * TotalImpressions(goals[1..]) as real;
    <=
      RateOf(goals[0], r) * goals[0].totalImpressions as real + WeightedSum(goals[1..], r);
    == { WeightedSumUnfold(goals, r); }
      WeightedSum(goals, r);
    }
  }

  lemma UpperHead(goals: seq<Goal>, r: Rate, hi: real)
    requires goals != [] && RateOf(goals[0], r) <= hi
    requires WeightedSum(goals[1..], r) <= hi * TotalImpressions(goals[1..]) as real
    ensures WeightedSum(goals, r) <= hi * TotalImpressions(goals) as real
  {
    calc {
      hi * TotalImpressions(goals) as real;
    == { TotalImpressionsUnfold(goals); }
      hi * (goals[0].totalImpressions as real + TotalImpressions(goals[1..]) as real);
    ==
      hi * goals[0].totalImpressions as real + hi * TotalImpressions(goals[1..]) as real;
    >= { ScaleMonotone(RateOf(goals[0], r), hi, goals[0].totalImpressions as real); }
      RateOf(goals[0], r) * goals[0].totalImpressions as real + hi * TotalImpressions(goals[1..]) as real;
    >=
      RateOf(goals[0], r) * goals[0].totalImpressions as real + WeightedSum(goals[1..], r);
    == { WeightedSumUnfold(goals, r); }
      WeightedSum(goals, r);
    }
  }

  lemma TotalImpressionsUnfold(goals: seq<Goal>)
    requires goals != []
    ensures TotalImpressions(goals) as real == goals[0].totalImpressions as real + TotalImpressions(goals[1..]) as real
  {
  }

  lemma WeightedSumUnfold(goals: seq<Goal>, r: Rate)
    requires goals != []
    ensures WeightedSum(goals, r) == RateOf(goals[0], r) * goals[0].totalImpressions as real + WeightedSum(goals[1..], r)
  {
  }

  lemma ScaleMonotone(a: real, b: real, n: real)
    requires a <= b && 0.0 <= n
    ensures a * n <= b * n
  {
  }

  lemma ScaleStrict(a: real, b: real, n: real)
    requires a < b && 0.0 < n
    ensures a * n < b * n
  {
  }

  lemma QuotientAtLeast(lo: real, w: real, n: real)
    requires 0.0 < n && lo * n <= w
    ensures lo <= w / n
  {
    if w / n < lo {
      ScaleStrict(w / n, lo, n);
    }
  }

  lemma QuotientAtMost(hi: real, w: real, n: real)
    requires 0.0 < n && w <= hi * n
    ensures w / n <= hi
  {
    if hi < w / n {
      ScaleStrict(hi, w / n, n);
    }
  }

  lemma WeightedMeanAtLeast(goals: seq<Goal>, r: Rate, lo: real)
    requires TotalImpressions(goals) > 0
    requires forall i :: 0 <= i < |goals| ==> lo <= RateOf(goals[i], r)
    ensures lo <= WeightedMean(goals, r).value
  {
    WeightedSumLower(goals, r, lo);
    QuotientAtLeast(lo, WeightedSum(goals, r), TotalImpressions(goals) as real);
  }

  lemma WeightedMeanAtMost(goals: seq<Goal>, r: Rate, hi: real)
    requires TotalImpressions(goals) > 0
    requires forall i :: 0 <= i < |goals| ==> RateOf(goals[i], r) <= hi
    ensures WeightedMean(goals, r).value <= hi
  {
    WeightedSumUpper(goals, r, hi);
    QuotientAtMost(hi, WeightedSum(goals, r), TotalImpressions(goals) as real);
  }

  /** A weighted mean lies between the least and the greatest rate averaged. */
  lemma WeightedMeanBounds(goals: seq<Goal>, r: Rate, lo: real, hi: real)
    requires TotalImpressions(goals) > 0
    requires forall i :: 0 <= i < |goals| ==> lo <= RateOf(goals[i], r) <= hi
    ensures lo <= WeightedMean(goals, r).value <= hi
  {
    WeightedMeanAtLeast(goals, r, lo);
    WeightedMeanAtMost(goals, r, hi);
  }

  /** The four pillars, in the order the page lists them. */
  datatype Pillar = Fraud | Viewability | Suitability | Geography

  function Rank(p: Pillar): nat {
    match p
    case Fraud => 0
    case Viewability => 1
    case Suitability => 2
    case Geography => 3
  }

  /** The value a pillar must reach to pass. */
  function Threshold(p: Pillar): real {
    match p
    case Fraud => 98.0
    case Viewability => 70.0
    case Suitability => 95.0
    case Geography => 95.0
  }

  /** The rate each pillar is computed from. */
  function PillarRate(p: Pillar): Rate {
    match p
    case Fraud => FraudRate
    case Viewability => ViewabilityRate
    case Suitability => BrandSuitabilityRate
    case Geography => InGeoRate
  }

  /** A pillar's value: the impression-weighted mean of its rate, except that
      Fraud counts the traffic that is not fraudulent. */
  function PillarValue(goals: seq<Goal>, p: Pillar): (v: real)
    requires TotalImpressions(goals) > 0
    ensures p != Fraud ==> v == WeightedMean(goals, PillarRate(p)).value
    ensures p == Fraud ==> v == 100.0 - WeightedMean(goals, FraudRate).value
  {
    var mean := WeightedSum(goals, PillarRate(p)) / TotalImpressions(goals) as real;
    if p == Fraud then 100.0 - mean else mean
  }

  /** How far a pillar's value lies above (positive) or below its threshold. */
  function Margin(goals: seq<Goal>, p: Pillar): real
    requires TotalImpressions(goals) > 0
  {
    PillarValue(goals, p) - Threshold(p)
  }

  datatype PillarScore = PillarScore(key: Pillar, value: real, threshold: real)

  function Score(goals: seq<Goal>, p: Pillar): PillarScore
    requires TotalImpressions(goals) > 0
  {
    PillarScore(p, PillarValue(goals, p), Threshold(p))
  }

  /** The `pillars` array. */
  function PillarScores(goals: seq<Goal>): (scores: seq<PillarScore>)
    requires TotalImpressions(goals) > 0
    ensures forall p :: Score(goals, p) in scores
    ensures forall s :: s in scores ==> s == Score(goals, s.key)
    ensures forall i, j :: 0 <= i < j < |scores| ==> Rank(scores[i].key) < Rank(scores[j].key)
  {
    var scores := [Score(goals, Fraud), Score(goals, Viewability), Score(goals, Suitability), Score(goals, Geography)];
    assert forall p :: Score(goals, p) in scores by {
      forall p ensures Score(goals, p) in scores {
        assert scores[Rank(p)] == Score(goals, p);
      }
    }
    scores
  }

  predicate IsFailing(s: PillarScore) {
    s.value < s.threshold
  }

  function ScoreMargin(s: PillarScore): real {
    s.value - s.threshold
  }

  function ScoreRank(s: PillarScore): int {
    Rank(s.key)
  }

  /** `getPrimaryDriver`: no driver without impressions; otherwise the failing
      pillars, stably sorted by margin, and the first of them. */
  function PrimaryDriver(goals: seq<Goal>): (d: Option<Pillar>)
    ensures TotalImpressions(goals) == 0 ==> d == None
  {
    if TotalImpressions(goals) == 0 then None
    else
      var failing := SortBy(Filter(PillarScores(goals), IsFailing), ScoreMargin);
      if failing == [] then None else Some(failing[0].key)
  }

  /** Without impressions there is no driver; with them, there is no driver
      exactly when every pillar reaches its threshold. */
  lemma NoDriverIffAllPass(goals: seq<Goal>)
    requires TotalImpressions(goals) > 0
    ensures PrimaryDriver(goals) == None <==> forall p :: PillarValue(goals, p) >= Threshold(p)
  {
    var failing := Filter(PillarScores(goals), IsFailing);
    if failing == [] {
      forall p ensures PillarValue(goals, p) >= Threshold(p) {
        assert Score(goals, p) !in failing;
      }
    } else {
      assert failing[0] in PillarScores(goals);
      assert PillarValue(goals, failing[0].key) < Threshold(failing[0].key);
    }
  }

  /** The pillar FirstMinIndex picks from failing scores listed in rank order
      has the smallest margin, and the lowest rank among equal margins. */
  lemma FirstMinimumIsWorst(failing: seq<PillarScore>, s: PillarScore)
    requires failing != [] && s in failing
    requires forall i, j :: 0 <= i < j < |failing| ==> ScoreRank(failing[i]) < ScoreRank(failing[j])
    ensures var w := failing[FirstMinIndex(failing, ScoreMargin)];
      ScoreMargin(w) <= ScoreMargin(s) && (ScoreMargin(w) == ScoreMargin(s) ==> ScoreRank(w) <= ScoreRank(s))
  {
    FirstMinIndexIsFirstMinimum(failing, ScoreMargin);
    var at := FirstMinIndex(failing, ScoreMargin);
    var k :| 0 <= k < |failing| && failing[k] == s;
    if k < at {
      assert ScoreMargin(failing[at]) < ScoreMargin(failing[k]);
    } else if k > at {
      assert ScoreRank(failing[at]) < ScoreRank(failing[k]);
    }
  }

  /** The driver is the failing score FirstMinIndex picks. */
  lemma DriverIsFirstMinimum(goals: seq<Goal>)
    requires PrimaryDriver(goals).Some?
    ensures TotalImpressions(goals) > 0
    ensures var failing := Filter(PillarScores(goals), IsFailing);
      failing != [] && PrimaryDriver(goals) == Some(failing[FirstMinIndex(failing, ScoreMargin)].key)
  {
    SortByHead(Filter(PillarScores(goals), IsFailing), ScoreMargin);
  }

  /** The driver is the failing pillar furthest below its threshold; equal
      margins go to the pillar listed first. */
  lemma DriverIsWorst(goals: seq<Goal>)
    ensures PrimaryDriver(goals).Some? ==>
      TotalImpressions(goals) > 0 &&
      var d := PrimaryDriver(goals).value;
      PillarValue(goals, d) < Threshold(d) &&
      forall q :: PillarValue(goals, q) < Threshold(q) ==>
        Margin(goals, d) <= Margin(goals, q) &&
        (Margin(goals, d) == Margin(goals, q) ==> Rank(d) <= Rank(q))
  {
    if PrimaryDriver(goals).Some? {
      DriverIsFirstMinimum(goals);
      var scores := PillarScores(goals);
      var failing := Filter(scores, IsFailing);
      FilterKeepsOrder(scores, IsFailing, ScoreRank);
      var w := failing[FirstMinIndex(failing, ScoreMargin)];
      var d := w.key;
      assert w in scores;
      assert w == Score(goals, d);
      forall q | PillarValue(goals, q) < Threshold(q)
        ensures Margin(goals, d) <= Margin(goals, q)
        ensures Margin(goals, d) == Margin(goals, q) ==> Rank(d) <= Rank(q)
      {
        assert Score(goals, q) in failing;
        FirstMinimumIsWorst(failing, Score(goals, q));
      }
    }
  }


  /** A row of the channel mix: one platform's goals and their figures. */
  datatype ChannelRow = ChannelRow(
    platform: Option<Platform>,
    goals: nat,
    imps: nat,
    spend: real,
    aar: Option<real>,
    blockRate: Option<real>,
    driverKey: Option<Pillar>)

  /** The goals whose primary platform is k, in list order. */
  function Members(goals: seq<Goal>, k: Option<Platform>): (members: seq<Goal>)
    ensures forall g :: g in members <==> g in goals && PrimaryPlatform(g) == k
  {
    Group(goals, PrimaryPlatform, k)
  }

  /** The keys of `byPlatform` in insertion order: each primary platform once,
      in order of first use. A goal with no platform at all is filed under
      None (the key "undefined" in the page). */
  function ChannelKeys(goals: seq<Goal>): (keys: seq<Option<Platform>>)
    ensures NoDuplicates(keys)
    ensures forall k :: k in keys <==> exists i :: 0 <= i < |goals| && PrimaryPlatform(goals[i]) == k
  {
    GroupKeys(goals, PrimaryPlatform)
  }

  /** The row the page computes for one group: the members' totals,
      impression-weighted rates and primary driver. Its rates are NaN, here
      None, and it has no driver when the group has no impressions. */
  function GroupRow(k: Option<Platform>, members: seq<Goal>): (row: ChannelRow)
    ensures row.platform == k && row.goals == |members|
    ensures row.imps == TotalImpressions(members) && row.spend == TotalSpend(members)
    ensures row.aar == WeightedMean(members, AuthenticAdRate)
    ensures row.blockRate == WeightedMean(members, BlockRate)
    ensures row.driverKey == PrimaryDriver(members)
    ensures row.imps == 0 <==> forall i :: 0 <= i < |members| ==> members[i].totalImpressions == 0
    ensures row.aar.None? <==> row.imps == 0
    ensures row.blockRate.None? <==> row.imps == 0
    ensures row.imps == 0 ==> row.driverKey.None?
  {
    ChannelRow(k, |members|, TotalImpressions(members), TotalSpend(members),
      WeightedMean(members, AuthenticAdRate), WeightedMean(members, BlockRate), PrimaryDriver(members))
  }

  /** `Object.entries(byPlatform).map(...)`: one row per key and group. */
  function RowsFromGroups(keys: seq<Option<Platform>>, groups: seq<seq<Goal>>): (rows: seq<ChannelRow>)
    requires |groups| == |keys|
    ensures |rows| == |keys|
    ensures forall i :: 0 <= i < |keys| ==> rows[i] == GroupRow(keys[i], groups[i])
  {
    seq(|keys|, i requires 0 <= i < |keys| => GroupRow(keys[i], groups[i]))
  }

  function MembersOf(goals: seq<Goal>, keys: seq<Option<Platform>>): (groups: seq<seq<Goal>>)
    ensures |groups| == |keys|
    ensures forall i :: 0 <= i < |keys| ==> groups[i] == Members(goals, keys[i])
  {
    Map(keys, k => Members(goals, k))
  }

  function RowsOf(goals: seq<Goal>, keys: seq<Option<Platform>>): (rows: seq<ChannelRow>)
    ensures |rows| == |keys|
    ensures forall i :: 0 <= i < |keys| ==> rows[i] == GroupRow(keys[i], Members(goals, keys[i]))
  {
    RowsFromGroups(keys, MembersOf(goals, keys))
  }

  /** Orders rows by impressions, descending: the comparator `b.imps - a.imps`. */
  function ImpsDescending(row: ChannelRow): real {
    -(row.imps as real)
  }

  /** `channelData`: one row per group, in key order, then stably sorted by
      impressions, most first. */
  function ChannelRows(goals: seq<Goal>): (rows: seq<ChannelRow>)
    ensures |rows| == |ChannelKeys(goals)|
    ensures multiset(rows) == multiset(RowsOf(goals, ChannelKeys(goals)))
    ensures forall i, j :: 0 <= i < j < |rows| ==> rows[i].imps >= rows[j].imps
  {
    SortByAscending(RowsOf(goals, ChannelKeys(goals)), ImpsDescending);
    SortBy(RowsOf(goals, ChannelKeys(goals)), ImpsDescending)
  }

  lemma NoMembers(goals: seq<Goal>, k: Option<Platform>)
    ensures k in ChannelKeys(goals) || Members(goals, k) == []
  {
    if Members(goals, k) != [] {
      var g := Members(goals, k)[0];
      assert g in Members(goals, k);
      var i :| 0 <= i < |goals| && goals[i] == g;
    }
  }

  /** The state of the grouping loop after the goals so far. */
  ghost predicate Grouped(goals: seq<Goal>, keys: seq<Option<Platform>>, byPlatform: map<Option<Platform>, seq<Goal>>) {
    && keys == ChannelKeys(goals)
    && (forall k :: k in byPlatform <==> k in keys)
    && forall k :: k in byPlatform ==> byPlatform[k] == Members(goals, k)
  }

  /** The turn of the grouping loop for a goal whose key is new: the key is
      listed and its group created holding just that goal; the other groups
      are as they were. */
  lemma GroupTurnNew(goals: seq<Goal>, g: Goal, keys: seq<Option<Platform>>, byPlatform: map<Option<Platform>, seq<Goal>>)
    requires Grouped(goals, keys, byPlatform) && PrimaryPlatform(g) !in byPlatform
    ensures var created := byPlatform[PrimaryPlatform(g) := []];
      var grouped := created[PrimaryPlatform(g) := created[PrimaryPlatform(g)] + [g]];
      && keys + [PrimaryPlatform(g)] == ChannelKeys(goals + [g])
      && (forall k :: k in grouped <==> k in keys + [PrimaryPlatform(g)])
      && forall k :: k in grouped ==> grouped[k] == Members(goals + [g], k)
  {
    var p := PrimaryPlatform(g);
    var created := byPlatform[p := []];
    var grouped := created[p := created[p] + [g]];
    KeysAfterNew(goals, g);
    DomainAfter(keys + [p], created, p, created[p] + [g]);
    GroupValuesNew(goals, g, byPlatform, grouped);
  }

  /** The turn of the grouping loop for a goal whose key is already listed:
      the goal is appended to that group and nothing else changes. */
  lemma GroupTurnOld(goals: seq<Goal>, g: Goal, keys: seq<Option<Platform>>, byPlatform: map<Option<Platform>, seq<Goal>>)
    requires Grouped(goals, keys, byPlatform) && PrimaryPlatform(g) in byPlatform
    ensures var grouped := byPlatform[PrimaryPlatform(g) := byPlatform[PrimaryPlatform(g)] + [g]];
      && keys == ChannelKeys(goals + [g])
      && (forall k :: k in grouped <==> k in keys)
      && forall k :: k in grouped ==> grouped[k] == Members(goals + [g], k)
  {
    var p := PrimaryPlatform(g);
    var grouped := byPlatform[p := byPlatform[p] + [g]];
    KeysAfterOld(goals, g);
    DomainAfter(keys, byPlatform, p, byPlatform[p] + [g]);
    GroupValuesOld(goals, g, byPlatform, grouped);
  }

  /** Writing a key that is listed keeps the map's domain the listed keys. */
  lemma DomainAfter(keys: seq<Option<Platform>>, byPlatform: map<Option<Platform>, seq<Goal>>, p: Option<Platform>, v: seq<Goal>)
    requires forall k :: k in byPlatform <==> k in keys
    requires p in keys
    ensures forall k :: k in byPlatform[p := v] <==> k in keys
  {
  }

  lemma KeysAfterNew(goals: seq<Goal>, g: Goal)
    requires PrimaryPlatform(g) !in ChannelKeys(goals)
    ensures ChannelKeys(goals + [g]) == ChannelKeys(goals) + [PrimaryPlatform(g)]
  {
    GroupStepKeys(goals, g);
  }

  lemma KeysAfterOld(goals: seq<Goal>, g: Goal)
    requires PrimaryPlatform(g) in ChannelKeys(goals)
    ensures ChannelKeys(goals + [g]) == ChannelKeys(goals)
  {
    GroupStepKeys(goals, g);
  }

  lemma GroupValuesNew(goals: seq<Goal>, g: Goal, byPlatform: map<Option<Platform>, seq<Goal>>,
                       grouped: map<Option<Platform>, seq<Goal>>)
    requires forall k :: k in byPlatform ==> byPlatform[k] == Members(goals, k)
    requires PrimaryPlatform(g) !in ChannelKeys(goals)
    requires grouped == byPlatform[PrimaryPlatform(g) := []][PrimaryPlatform(g) := [] + [g]]
    ensures forall k :: k in grouped ==> grouped[k] == Members(goals + [g], k)
  {
    forall k | k in grouped
      ensures grouped[k] == Members(goals + [g], k)
    {
      GroupStepMembers(goals, g, k);
      if k == PrimaryPlatform(g) {
        NoMembers(goals, k);
      }
    }
  }

  lemma GroupValuesOld(goals: seq<Goal>, g: Goal, byPlatform: map<Option<Platform>, seq<Goal>>,
                       grouped: map<Option<Platform>, seq<Goal>>)
    requires forall k :: k in byPlatform ==> byPlatform[k] == Members(goals, k)
    requires PrimaryPlatform(g) in byPlatform
    requires grouped == byPlatform[PrimaryPlatform(g) := byPlatform[PrimaryPlatform(g)] + [g]]
    ensures forall k :: k in grouped ==> grouped[k] == Members(goals + [g], k)
  {
    forall k | k in grouped
      ensures grouped[k] == Members(goals + [g], k)
    {
      GroupStepMembers(goals, g, k);
    }
  }

  lemma GroupStepKeys(goals: seq<Goal>, g: Goal)
    ensures ChannelKeys(goals + [g]) ==
      if PrimaryPlatform(g) in ChannelKeys(goals) then ChannelKeys(goals)
      else ChannelKeys(goals) + [PrimaryPlatform(g)]
  {
    var m := Map(goals + [g], PrimaryPlatform);
    assert m[..|m| - 1] == Map(goals, PrimaryPlatform);
  }

  lemma GroupStepMembers(goals: seq<Goal>, g: Goal, k: Option<Platform>)
    ensures Members(goals + [g], k) == Members(goals, k) + (if PrimaryPlatform(g) == k then [g] else [])
  {
    GroupAppend(goals, [g], PrimaryPlatform, k);
    GroupSingleton(g, PrimaryPlatform, k);
  }

  /** The grouping loop: files each goal under its primary platform, creating
      the group on first use. */
  method GroupByPlatform(goals: seq<Goal>) returns (keys: seq<Option<Platform>>, byPlatform: map<Option<Platform>, seq<Goal>>)
    ensures keys == ChannelKeys(goals)
    ensures forall k :: k in byPlatform <==> k in keys
    ensures forall k :: k in byPlatform ==> byPlatform[k] == Members(goals, k)
  {
    keys, byPlatform := [], map[];
    for i := 0 to |goals|
      invariant Grouped(goals[..i], keys, byPlatform)
    {
      var g := goals[i];
      var p := PrimaryPlatform(g);
      PrefixSnoc(goals, i);
      if p !in byPlatform {
        GroupTurnNew(goals[..i], g, keys, byPlatform);
        byPlatform := byPlatform[p := []];
        keys := keys + [p];
      } else {
        GroupTurnOld(goals[..i], g, keys, byPlatform);
      }
      byPlatform := byPlatform[p := byPlatform[p] + [g]];
    }
    assert goals[..|goals|] == goals;
  }

  /** The channel mix as the page builds it: group, compute each row, sort. */
  method ChannelData(goals: seq<Goal>) returns (rows: seq<ChannelRow>)
    ensures rows == ChannelRows(goals)
  {
    var keys, byPlatform := GroupByPlatform(goals);
    var groups := seq(|keys|, i requires 0 <= i < |keys| && keys[i] in byPlatform => byPlatform[keys[i]]);
    assert groups == MembersOf(goals, keys);
    rows := SortBy(RowsFromGroups(keys, groups), ImpsDescending);
  }

  /** Every goal lies in exactly one group, the one of its primary platform. */
  lemma EachGoalInOneGroup(goals: seq<Goal>, g: Goal)
    requires g in goals
    ensures PrimaryPlatform(g) in ChannelKeys(goals)
    ensures forall k :: g in Members(goals, k) <==> k == PrimaryPlatform(g)
  {
    var i :| 0 <= i < |goals| && goals[i] == g;
  }

  lemma KeyHasMembers(goals: seq<Goal>, k: Option<Platform>)
    requires k in ChannelKeys(goals)
    ensures Members(goals, k) != []
  {
    var j :| 0 <= j < |goals| && PrimaryPlatform(goals[j]) == k;
    assert goals[j] in Members(goals, k);
  }

  /** Every row is the row of one group of the goals. */
  lemma ChannelRowsAreGroups(goals: seq<Goal>)
    ensures forall r :: r in ChannelRows(goals) ==>
      r.platform in ChannelKeys(goals) && r == GroupRow(r.platform, Members(goals, r.platform)) && r.goals > 0
  {
    var keys := ChannelKeys(goals);
    var unsorted := RowsOf(goals, keys);
    forall r | r in ChannelRows(goals)
      ensures r.platform in keys && r == GroupRow(r.platform, Members(goals, r.platform)) && r.goals > 0
    {
      SortByMember(unsorted, ImpsDescending, r);
      var i :| 0 <= i < |unsorted| && unsorted[i] == r;
      KeyHasMembers(goals, keys[i]);
    }
  }

  /** The rows with n impressions. */
  function WithImps(n: nat): ChannelRow -> bool {
    (row: ChannelRow) => row.imps == n
  }

  /** The sort is stable: rows with equal impressions keep the order in
      which their platforms were first met. */
  lemma ChannelRowsStable(goals: seq<Goal>, n: nat)
    ensures Filter(ChannelRows(goals), WithImps(n)) == Filter(RowsOf(goals, ChannelKeys(goals)), WithImps(n))
  {
    SortByImpsStable(RowsOf(goals, ChannelKeys(goals)), n);
  }

  lemma SortByImpsStable(rows: seq<ChannelRow>, n: nat)
    ensures Filter(SortBy(rows, ImpsDescending), WithImps(n)) == Filter(rows, WithImps(n))
  {
    assert OneKey(WithImps(n), ImpsDescending);
    SortByStable(rows, ImpsDescending, WithImps(n));
  }

  lemma {:induction false} CountIsSumOfOnes(s: seq<Goal>)
    ensures Sum(s, One) == |s|
  {
    if s != [] {
      CountIsSumOfOnes(s[1..]);
    }
  }

  function RowGoals(row: ChannelRow): nat {
    row.goals
  }

  function RowImps(row: ChannelRow): nat {
    row.imps
  }

  lemma {:induction false} RowsCount(goals: seq<Goal>, keys: seq<Option<Platform>>)
    ensures Sum(RowsOf(goals, keys), RowGoals) == GroupsSum(goals, PrimaryPlatform, One, keys)
  {
    if keys != [] {
      var rows := RowsOf(goals, keys);
      RowsCount(goals, keys[1..]);
      assert rows[1..] == RowsOf(goals, keys[1..]);
      assert RowGoals(rows[0]) == Sum(Group(goals, PrimaryPlatform, keys[0]), One) by {
        assert rows[0] == GroupRow(keys[0], Members(goals, keys[0]));
        CountIsSumOfOnes(Members(goals, keys[0]));
      }
    }
  }

  lemma {:induction false} RowsImpressions(goals: seq<Goal>, keys: seq<Option<Platform>>)
    ensures Sum(RowsOf(goals, keys), RowImps) == GroupsSum(goals, PrimaryPlatform, Imps, keys)
  {
    if keys != [] {
      var rows := RowsOf(goals, keys);
      RowsImpressions(goals, keys[1..]);
      assert rows[1..] == RowsOf(goals, keys[1..]);
      assert RowImps(rows[0]) == Sum(Group(goals, PrimaryPlatform, keys[0]), Imps);
    }
  }

  /** The groups partition the goals: their counts add up to the number of
      goals and their impressions to the total. */
  lemma ChannelRowsPartition(goals: seq<Goal>)
    ensures Sum(ChannelRows(goals), RowGoals) == |goals|
    ensures Sum(ChannelRows(goals), RowImps) == TotalImpressions(goals)
  {
    var keys := ChannelKeys(goals);
    SumSortBy(RowsOf(goals, keys), ImpsDescending, RowGoals);
    SumSortBy(RowsOf(goals, keys), ImpsDescending, RowImps);
    RowsCount(goals, keys);
    RowsImpressions(goals, keys);
    GroupsPartition(goals, PrimaryPlatform, One);
    GroupsPartition(goals, PrimaryPlatform, Imps);
    CountIsSumOfOnes(goals);
  }

  /** `goals.some(g => g.connectedDsp)`: some goal has a buying platform
      connected. */
  function HasAnyDsp(goals: seq<Goal>): (b: bool)
    ensures b <==> exists i :: 0 <= i < |goals| && Truthy(goals[i].connectedDsp)
  {
    if goals == [] then false
    else if Truthy(goals[0].connectedDsp) then true
    else
      var rest := HasAnyDsp(goals[1..]);
      assert forall i :: 1 <= i < |goals| ==> goals[i] == goals[1..][i - 1];
      rest
  }

  function IsActive(g: Goal): bool {
    g.status == Active
  }

  /** The page's headline figures. */
  datatype Summary = Summary(
    hasAnyDsp: bool,
    totalImpressions: nat,
    totalSpend: real,
    weightedBlockRate: Option<real>,
    needsAttention: nat,
    atRisk: nat,
    activeGoals: nat,
    overallAar: Option<real>,
    overallDriver: Option<Pillar>)

  /** The figures the page computes over all goals. The total is zero only
      when every goal has no impressions; the two rates are None (NaN on the
      page) exactly then; a goal is counted under at most one of the two
      health states. */
  function PageSummary(goals: seq<Goal>): (s: Summary)
    ensures s.hasAnyDsp <==> exists i :: 0 <= i < |goals| && Truthy(goals[i].connectedDsp)
    ensures s.totalImpressions == 0 <==> forall i :: 0 <= i < |goals| ==> goals[i].totalImpressions == 0
    ensures s.weightedBlockRate.None? <==> s.totalImpressions == 0
    ensures s.overallAar.None? <==> s.totalImpressions == 0
    ensures s.totalImpressions == 0 ==> s.overallDriver == None
    ensures s.needsAttention + s.atRisk <= |goals|
    ensures s.activeGoals <= |goals|
    ensures s.totalImpressions == TotalImpressions(goals) && s.totalSpend == TotalSpend(goals)
    ensures s.weightedBlockRate == WeightedMean(goals, BlockRate)
    ensures s.overallAar == WeightedMean(goals, AuthenticAdRate)
    ensures s.overallDriver == PrimaryDriver(goals)
    ensures s.needsAttention == |Filter(goals, HasHealth(NeedsAttention))|
    ensures s.atRisk == |Filter(goals, HasHealth(AtRisk))|
    ensures s.activeGoals == |Filter(goals, IsActive)|
  {
    FilterDisjoint(goals, HasHealth(NeedsAttention), HasHealth(AtRisk));
    Summary(
      HasAnyDsp(goals),
      TotalImpressions(goals),
      TotalSpend(goals),
      WeightedMean(goals, BlockRate),
      |Filter(goals, HasHealth(NeedsAttention))|,
      |Filter(goals, HasHealth(AtRisk))|,
      |Filter(goals, IsActive)|,
      WeightedMean(goals, AuthenticAdRate),
      PrimaryDriver(goals))
  }
}
