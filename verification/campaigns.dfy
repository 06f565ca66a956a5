/** The campaign list (src/pages/Campaigns.tsx): the flat list of campaigns,
    its status and platform filters, its keyed sort, the goal assignments
    made on the page, and the route a row opens. */
module Campaigns {
  import opened Seqs
  import opened JsText
  import opened Platforms
  import opened Entities

  /** A filter value: `'all'`, or one value to match. */
  datatype Choice<T> = All | Only(value: T)

  datatype SortKey = Name | GoalName | AuthenticAdRate | Impressions | Spend | ViewabilityRate

  datatype SortDir = Asc | Desc

  datatype SortState = SortState(key: SortKey, dir: SortDir)

  /** `allCampaigns`: the goals' campaigns, then the unassigned ones. */
  function AllCampaigns(fromGoals: seq<FlatCampaign>, unassigned: seq<FlatCampaign>): (all: seq<FlatCampaign>)
    ensures |all| == |fromGoals| + |unassigned|
    ensures all[..|fromGoals|] == fromGoals && all[|fromGoals|..] == unassigned
  {
    fromGoals + unassigned
  }

  predicate Matches(c: FlatCampaign, status: Choice<EntityStatus>, platform: Choice<Platform>) {
    (status.All? || c.status == status.value) && (platform.All? || c.platform == platform.value)
  }

  function StatusIs(v: EntityStatus): FlatCampaign -> bool {
    (c: FlatCampaign) => c.status == v
  }

  function PlatformIs(v: Platform): FlatCampaign -> bool {
    (c: FlatCampaign) => c.platform == v
  }

  function MatchesBoth(status: Choice<EntityStatus>, platform: Choice<Platform>): FlatCampaign -> bool {
    c => Matches(c, status, platform)
  }

  /** The rows that pass both filters, in list order. */
  function FilteredRows(all: seq<FlatCampaign>, status: Choice<EntityStatus>, platform: Choice<Platform>): seq<FlatCampaign> {
    Filter(all, MatchesBoth(status, platform))
  }

  /** The status clause of `filtered`, skipped for `'all'`. */
  function ByStatus(rows: seq<FlatCampaign>, status: Choice<EntityStatus>): seq<FlatCampaign> {
    if status.All? then rows else Filter(rows, StatusIs(status.value))
  }

  /** The platform clause of `filtered`, skipped for `'all'`. */
  function ByPlatform(rows: seq<FlatCampaign>, platform: Choice<Platform>): seq<FlatCampaign> {
    if platform.All? then rows else Filter(rows, PlatformIs(platform.value))
  }

  /** Applying the two clauses in turn is filtering once by both. */
  lemma ClausesInTurn(all: seq<FlatCampaign>, status: Choice<EntityStatus>, platform: Choice<Platform>)
    ensures ByPlatform(ByStatus(all, status), platform) == FilteredRows(all, status, platform)
  {
    if status.All? && platform.All? {
      FilterKeepsAll(all, MatchesBoth(status, platform));
    } else if status.All? {
      FilterAgree(all, PlatformIs(platform.value), MatchesBoth(status, platform));
    } else if platform.All? {
      FilterAgree(all, StatusIs(status.value), MatchesBoth(status, platform));
    } else {
      FilterTwice(all, StatusIs(status.value), PlatformIs(platform.value), MatchesBoth(status, platform));
    }
  }

  /** `filtered`: one `filter` per clause that is not `'all'`. */
  method FilterCampaigns(all: seq<FlatCampaign>, status: Choice<EntityStatus>, platform: Choice<Platform>)
    returns (result: seq<FlatCampaign>)
    ensures result == FilteredRows(all, status, platform)
    ensures status.All? && platform.All? ==> result == all
  {
    result := all;
    if status.Only? {
      result := Filter(result, StatusIs(status.value));
    }
    assert result == ByStatus(all, status);
    if platform.Only? {
      result := Filter(result, PlatformIs(platform.value));
    }
    assert result == ByPlatform(ByStatus(all, status), platform);
    ClausesInTurn(all, status, platform);
  }

  /** Which rows pass the filters, and that they keep their order. */
  lemma FilteredRowsCorrect(all: seq<FlatCampaign>, status: Choice<EntityStatus>, platform: Choice<Platform>, rank: FlatCampaign -> int)
    requires forall i, j :: 0 <= i < j < |all| ==> rank(all[i]) < rank(all[j])
    ensures forall c :: c in FilteredRows(all, status, platform) <==> c in all && Matches(c, status, platform)
    ensures forall i, j :: 0 <= i < j < |FilteredRows(all, status, platform)| ==>
      rank(FilteredRows(all, status, platform)[i]) < rank(FilteredRows(all, status, platform)[j])
  {
    FilterKeepsOrder(all, MatchesBoth(status, platform), rank);
  }

  /** The goal assignments made on the page: campaign id to goal id. */
  type Assignments = map<string, string>

  /** `goalAssignments[id]`, undefined when absent. */
  function Assigned(assignments: Assignments, campaignId: string): Option<string> {
    if campaignId in assignments then Some(assignments[campaignId]) else None
  }

  /** `allGoals.find(g => g.id === id)`. */
  function FindGoal(goals: seq<Goal>, id: string): (r: Option<Goal>)
    ensures r.None? <==> forall i :: 0 <= i < |goals| ==> goals[i].id != id
    ensures r.Some? ==> exists i :: 0 <= i < |goals| && goals[i] == r.value &&
                         r.value.id == id && forall j :: 0 <= j < i ==> goals[j].id != id
  {
    if goals == [] then None
    else if goals[0].id == id then Some(goals[0])
    else
      var r := FindGoal(goals[1..], id);
      assert r.Some? ==> (exists i :: 0 <= i < |goals| && goals[i] == r.value && r.value.id == id && (forall j :: 0 <= j < i ==> goals[j].id != id)) by {
        if r.Some? {
          var i :| 0 <= i < |goals[1..]| && goals[1..][i] == r.value &&
                   r.value.id == id && forall j :: 0 <= j < i ==> goals[1..][j].id != id;
          assert goals[i + 1] == r.value;
          assert forall j :: 1 <= j < i + 1 ==> goals[j] == goals[1..][j - 1];
        }
      }
      r
  }

  /** `allGoals.find(...)?.name`. */
  function FoundName(goals: seq<Goal>, id: string): Option<string> {
    match FindGoal(goals, id)
    case Some(g) => Some(g.name)
    case None => None
  }

  /** The goal name a row shows: the assigned goal's name (empty when that
      goal is not in the list), else the campaign's own goal name. */
  function EffectiveGoalName(c: FlatCampaign, assignments: Assignments, goals: seq<Goal>): (name: Option<string>)
    ensures Truthy(Assigned(assignments, c.id)) ==>
      name == Some(FoundName(goals, assignments[c.id]).GetOr(""))
    ensures !Truthy(Assigned(assignments, c.id)) ==> name == c.goalName
  {
    var chosen := Assigned(assignments, c.id);
    if Truthy(chosen) then Some(FoundName(goals, chosen.value).GetOr("")) else c.goalName
  }

  /** The `goalName` sort key: the assigned goal's name if an assignment
      exists, else the campaign's goal name, lower-cased; empty when the
      name is missing. */
  function GoalNameKey(c: FlatCampaign, assignments: Assignments, goals: seq<Goal>): (key: string)
    ensures Truthy(Assigned(assignments, c.id)) && FindGoal(goals, assignments[c.id]).None? ==> key == ""
    ensures !Truthy(Assigned(assignments, c.id)) && c.goalName.None? ==> key == ""
  {
    var chosen := Assigned(assignments, c.id);
    var name := if Truthy(chosen) then FoundName(goals, chosen.value) else Some(c.goalName.GetOr(""));
    match name
    case Some(s) => Lower(s)
    case None => ""
  }

  /** The sort key is the lower-cased name the row displays. */
  lemma GoalNameKeyIsShownName(c: FlatCampaign, assignments: Assignments, goals: seq<Goal>)
    ensures GoalNameKey(c, assignments, goals) == Lower(EffectiveGoalName(c, assignments, goals).GetOr(""))
  {
    assert Lower("") == "";
  }

  /** A key value: a string or a number; a given key always yields the same
      kind (see SortValue). */
  datatype KeyValue = Text(s: string) | Num(x: real)

  /** `aVal`/`bVal` in the comparator. */
  function SortValue(c: FlatCampaign, key: SortKey, assignments: Assignments, goals: seq<Goal>): (v: KeyValue)
    ensures v.Text? <==> key == Name || key == GoalName
  {
    match key
    case Name => Text(Lower(c.name))
    case GoalName => Text(GoalNameKey(c, assignments, goals))
    case AuthenticAdRate => Num(c.authenticAdRate)
    case Impressions => Num(c.impressions as real)
    case Spend => Num(c.spend)
    case ViewabilityRate => Num(c.viewabilityRate)
  }

  /** JavaScript `<` on two strings or two numbers. */
  predicate KeyLess(a: KeyValue, b: KeyValue) {
    match (a, b)
    case (Text(x), Text(y)) => LexLess(x, y)
    case (Num(x), Num(y)) => x < y
    case _ => false
  }

  lemma KeyLessAsymmetric(a: KeyValue, b: KeyValue)
    requires KeyLess(a, b)
    ensures !KeyLess(b, a)
  {
    if a.Text? {
      LexLessAsymmetric(a.s, b.s);
    }
  }

  /** "Not above" is transitive for values of one kind. */
  lemma KeyNotLessTransitive(a: KeyValue, b: KeyValue, c: KeyValue)
    requires a.Text? == b.Text? == c.Text?
    requires !KeyLess(b, a) && !KeyLess(c, b)
    ensures !KeyLess(c, a)
  {
    if a.Text? {
      LexLessTrichotomous(a.s, b.s);
      LexLessTrichotomous(b.s, c.s);
      if a.s != b.s && b.s != c.s {
        LexLessTransitive(a.s, b.s, c.s);
        LexLessAsymmetric(a.s, c.s);
      } else if a.s != b.s {
        LexLessAsymmetric(a.s, b.s);
      } else if b.s != c.s {
        LexLessAsymmetric(b.s, c.s);
      } else {
        LexLessIrreflexive(a.s);
      }
    }
  }

  /** Everything the comparator depends on. */
  datatype SortSpec = SortSpec(key: SortKey, dir: SortDir, assignments: Assignments, goals: seq<Goal>)

  function Value(spec: SortSpec, c: FlatCampaign): KeyValue {
    SortValue(c, spec.key, spec.assignments, spec.goals)
  }

  /** The comparator passed to `arr.sort`. */
  function Compare(spec: SortSpec, a: FlatCampaign, b: FlatCampaign): (r: int)
    ensures -1 <= r <= 1
  {
    var av, bv := Value(spec, a), Value(spec, b);
    if KeyLess(av, bv) then (if spec.dir == Asc then -1 else 1)
    else if KeyLess(bv, av) then (if spec.dir == Asc then 1 else -1)
    else 0
  }

  /** a may stay before b: the comparator does not put b first. */
  predicate InOrder(spec: SortSpec, a: FlatCampaign, b: FlatCampaign) {
    Compare(spec, a, b) <= 0
  }

  /** Swapping the arguments negates the comparator. */
  lemma CompareAntisymmetric(spec: SortSpec, a: FlatCampaign, b: FlatCampaign)
    ensures Compare(spec, a, b) == -Compare(spec, b, a)
  {
    if KeyLess(Value(spec, a), Value(spec, b)) {
      KeyLessAsymmetric(Value(spec, a), Value(spec, b));
    }
  }

  /** `desc` orders as `asc` with the arguments swapped. */
  lemma DescendingReversesAscending(spec: SortSpec, a: FlatCampaign, b: FlatCampaign)
    ensures Compare(spec.(dir := Desc), a, b) == Compare(spec.(dir := Asc), b, a)
  {
    if KeyLess(Value(spec, a), Value(spec, b)) {
      KeyLessAsymmetric(Value(spec, a), Value(spec, b));
    }
  }

  /** In `asc`, a may precede b exactly when a's key is not above b's. */
  lemma AscendingMeansKeyOrder(spec: SortSpec, a: FlatCampaign, b: FlatCampaign)
    requires spec.dir == Asc
    ensures InOrder(spec, a, b) <==> !KeyLess(Value(spec, b), Value(spec, a))
  {
    if KeyLess(Value(spec, a), Value(spec, b)) {
      KeyLessAsymmetric(Value(spec, a), Value(spec, b));
    }
  }

  lemma InOrderTransitive(spec: SortSpec, a: FlatCampaign, b: FlatCampaign, c: FlatCampaign)
    requires InOrder(spec, a, b) && InOrder(spec, b, c)
    ensures InOrder(spec, a, c)
  {
    var va, vb, vc := Value(spec, a), Value(spec, b), Value(spec, c);
    if spec.dir == Asc {
      AscendingMeansKeyOrder(spec, a, b);
      AscendingMeansKeyOrder(spec, b, c);
      AscendingMeansKeyOrder(spec, a, c);
      KeyNotLessTransitive(va, vb, vc);
    } else {
      var asc := spec.(dir := Asc);
      DescendingReversesAscending(spec, a, b);
      DescendingReversesAscending(spec, b, c);
      DescendingReversesAscending(spec, a, c);
      AscendingMeansKeyOrder(asc, b, a);
      AscendingMeansKeyOrder(asc, c, b);
      AscendingMeansKeyOrder(asc, c, a);
      KeyNotLessTransitive(vc, vb, va);
    }
  }

  /** The table's comparator for one sort spec, as a relation. */
  function Order(spec: SortSpec): (FlatCampaign, FlatCampaign) -> bool {
    (a, b) => InOrder(spec, a, b)
  }

  /** An order in which any two elements compare and which chains. */
  ghost predicate TotalPreorder<T(!new)>(le: (T, T) -> bool) {
    && (forall a, b :: le(a, b) || le(b, a))
    && (forall a, b, c :: le(a, b) && le(b, c) ==> le(a, c))
  }

  predicate SortedBy<T>(s: seq<T>, le: (T, T) -> bool) {
    forall i, j :: 0 <= i < j < |s| ==> le(s[i], s[j])
  }

  lemma InOrderIsTotalPreorder(spec: SortSpec)
    ensures TotalPreorder(Order(spec))
  {
    forall a, b ensures InOrder(spec, a, b) || InOrder(spec, b, a) {
      CompareAntisymmetric(spec, a, b);
    }
    forall a, b, c | InOrder(spec, a, b) && InOrder(spec, b, c) ensures InOrder(spec, a, c) {
      InOrderTransitive(spec, a, b, c);
    }
  }

  /** The sorted s with x added the way one pass of the sort adds it: x moves
      left past every element that the order does not put before it and
      stops behind the first one that it does. */
  function InsertRight<T>(x: T, s: seq<T>, le: (T, T) -> bool): (r: seq<T>)
    ensures |r| == |s| + 1
  {
    if s == [] || le(s[|s| - 1], x) then s + [x]
    else InsertRight(x, s[..|s| - 1], le) + [s[|s| - 1]]
  }

  /** Insertion sort as a function: all but the last element sorted, then the
      last one inserted. */
  function InsertionSorted<T>(s: seq<T>, le: (T, T) -> bool): (r: seq<T>)
    ensures |r| == |s|
  {
    if s == [] then []
    else InsertRight(s[|s| - 1], InsertionSorted(s[..|s| - 1], le), le)
  }

  lemma {:induction false} InsertRightPermutes<T>(x: T, s: seq<T>, le: (T, T) -> bool)
    ensures multiset(InsertRight(x, s, le)) == multiset(s) + multiset{x}
  {
    if s != [] && !le(s[|s| - 1], x) {
      var init, last := s[..|s| - 1], s[|s| - 1];
      InsertRightPermutes(x, init, le);
      assert s == init + [last];
    }
  }

  /** The sort rearranges its input and does nothing else. */
  lemma {:induction false} InsertionSortedPermutes<T>(s: seq<T>, le: (T, T) -> bool)
    ensures multiset(InsertionSorted(s, le)) == multiset(s)
  {
    if s != [] {
      var init, last := s[..|s| - 1], s[|s| - 1];
      InsertionSortedPermutes(init, le);
      InsertRightPermutes(last, InsertionSorted(init, le), le);
      assert s == init + [last];
    }
  }

  /** Where the insertion stops: at j, when everything from j on is out of
      order with x and the element before j, if any, is not. */
  lemma {:induction false} InsertRightAt<T>(x: T, s: seq<T>, le: (T, T) -> bool, j: nat)
    requires j <= |s| && (j == 0 || le(s[j - 1], x))
    requires forall k :: j <= k < |s| ==> !le(s[k], x)
    ensures InsertRight(x, s, le) == s[..j] + [x] + s[j..]
  {
    if j < |s| {
      var init, last := s[..|s| - 1], s[|s| - 1];
      assert !le(last, x);
      assert InsertRight(x, s, le) == InsertRight(x, init, le) + [last];
      InsertRightAt(x, init, le, j);
      SnocSplit(s, x, j);
    } else {
      assert s[..j] == s && s[j..] == [];
    }
  }

  lemma SnocSplit<T>(s: seq<T>, x: T, j: nat)
    requires j < |s|
    ensures var init := s[..|s| - 1];
      init[..j] + [x] + init[j..] + [s[|s| - 1]] == s[..j] + [x] + s[j..]
  {
    var init := s[..|s| - 1];
    assert s[..j] == init[..j];
    assert s[j..] == init[j..] + [s[|s| - 1]];
  }

  lemma {:induction false} InsertRightSorted<T(!new)>(x: T, s: seq<T>, le: (T, T) -> bool)
    requires TotalPreorder(le) && SortedBy(s, le)
    ensures SortedBy(InsertRight(x, s, le), le)
  {
    if s != [] && !le(s[|s| - 1], x) {
      var init, last := s[..|s| - 1], s[|s| - 1];
      InsertRightSorted(x, init, le);
      var r := InsertRight(x, init, le);
      InsertRightPermutes(x, init, le);
      forall i | 0 <= i < |r|
        ensures le(r[i], last)
      {
        assert r[i] in multiset(r);
        assert r[i] in multiset(init) + multiset{x};
        if r[i] != x {
          assert r[i] in init;
        }
      }
    }
  }

  lemma {:induction false} InsertionSortedSorted<T(!new)>(s: seq<T>, le: (T, T) -> bool)
    requires TotalPreorder(le)
    ensures SortedBy(InsertionSorted(s, le), le)
  {
    if s != [] {
      InsertionSortedSorted(s[..|s| - 1], le);
      InsertRightSorted(s[|s| - 1], InsertionSorted(s[..|s| - 1], le), le);
    }
  }

  /** Sorting what is already in order changes nothing, ties included. */
  lemma {:induction false} InsertionSortedFixesSorted<T>(s: seq<T>, le: (T, T) -> bool)
    requires SortedBy(s, le)
    ensures InsertionSorted(s, le) == s
  {
    if s != [] {
      var init, last := s[..|s| - 1], s[|s| - 1];
      assert SortedBy(init, le) by {
        forall i, j | 0 <= i < j < |init|
          ensures le(init[i], init[j])
        {
          assert init[i] == s[i] && init[j] == s[j];
        }
      }
      InsertionSortedFixesSorted(init, le);
      if init != [] {
        assert le(init[|init| - 1], last) by {
          assert init[|init| - 1] == s[|s| - 2];
        }
      }
      assert InsertRight(last, init, le) == init + [last];
      assert s == init + [last];
    }
  }

  /** Sorting a second time changes nothing. */
  lemma InsertionSortedIdempotent<T(!new)>(s: seq<T>, le: (T, T) -> bool)
    requires TotalPreorder(le)
    ensures InsertionSorted(InsertionSorted(s, le), le) == InsertionSorted(s, le)
  {
    InsertionSortedSorted(s, le);
    InsertionSortedFixesSorted(InsertionSorted(s, le), le);
  }

  /** The elements the order ties with x. */
  function Tied<T>(le: (T, T) -> bool, x: T): T -> bool {
    y => le(y, x) && le(x, y)
  }

  lemma {:induction false} InsertRightStable<T(!new)>(y: T, s: seq<T>, le: (T, T) -> bool, x: T)
    requires TotalPreorder(le)
    ensures Filter(InsertRight(y, s, le), Tied(le, x)) == Filter(s, Tied(le, x)) + Filter([y], Tied(le, x))
  {
    var p := Tied(le, x);
    if s == [] || le(s[|s| - 1], y) {
      FilterAppend(s, [y], p);
    } else {
      var init, last := s[..|s| - 1], s[|s| - 1];
      InsertRightStable(y, init, le, x);
      FilterAppend(InsertRight(y, init, le), [last], p);
      FilterAppend(init, [last], p);
      assert s == init + [last];
      assert !(p(y) && p(last));
    }
  }

  /** Stability: the elements tied with any x leave the sort in the order
      they entered it. */
  lemma {:induction false} InsertionSortedStable<T(!new)>(s: seq<T>, le: (T, T) -> bool, x: T)
    requires TotalPreorder(le)
    ensures Filter(InsertionSorted(s, le), Tied(le, x)) == Filter(s, Tied(le, x))
  {
    if s != [] {
      var init, last := s[..|s| - 1], s[|s| - 1];
      InsertionSortedStable(init, le, x);
      InsertRightStable(last, InsertionSorted(init, le), le, x);
      FilterAppend(init, [last], Tied(le, x));
      assert s == init + [last];
    }
  }

  /** Sorts arr in place: each element in turn moves left past the
      elements that the order puts after it. */
  method InsertionSort<T(!new)>(arr: array<T>, le: (T, T) -> bool)
    requires TotalPreorder(le)
    modifies arr
    ensures arr[..] == InsertionSorted(old(arr[..]), le)
    ensures multiset(arr[..]) == multiset(old(arr[..]))
    ensures SortedBy(arr[..], le)
  {
    ghost var input := arr[..];
    var i := 0;
    while i < arr.Length
      invariant 0 <= i <= arr.Length
      invariant arr[..] == InsertionSorted(input[..i], le) + input[i..]
    {
      SortStep(input, i, le);
      InsertAt(arr, i, le);
      i := i + 1;
    }
    assert input[..arr.Length] == input;
    InsertionSortedSorted(input, le);
    InsertionSortedPermutes(input, le);
  }

  /** What one turn of InsertionSort's loop does to the whole sequence. */
  lemma SortStep<T>(input: seq<T>, i: nat, le: (T, T) -> bool)
    requires i < |input|
    ensures var a := InsertionSorted(input[..i], le) + input[i..];
      && a[..i] == InsertionSorted(input[..i], le) && a[i] == input[i] && a[i + 1..] == input[i + 1..]
      && InsertionSorted(input[..i + 1], le) + input[i + 1..]
         == InsertRight(a[i], a[..i], le) + a[i + 1..]
  {
    var sorted := InsertionSorted(input[..i], le);
    var a := sorted + input[i..];
    assert a[..i] == sorted;
    assert a[i + 1..] == input[i + 1..];
    assert input[..i + 1][..i] == input[..i];
  }

  /** Moves arr[i] left into arr[..i]. */
  method InsertAt<T(!new)>(arr: array<T>, i: nat, le: (T, T) -> bool)
    requires i < arr.Length
    modifies arr
    ensures arr[..] == InsertRight(old(arr[i]), old(arr[..i]), le) + old(arr[i + 1..])
  {
    ghost var sorted, x, rest := arr[..i], arr[i], arr[i + 1..];
    var j := i;
    assert arr[..] == sorted[..j] + [x] + sorted[j..] + rest by {
      assert sorted[..j] == sorted && sorted[j..] == [];
      assert arr[..] == arr[..i] + [arr[i]] + arr[i + 1..];
    }
    while j > 0 && !le(arr[j - 1], arr[j])
      invariant 0 <= j <= i
      invariant arr[..] == sorted[..j] + [x] + sorted[j..] + rest
      invariant forall k :: j <= k < i ==> !le(sorted[k], x)
    {
      ghost var before := arr[..];
      assert before[j - 1] == sorted[j - 1] && before[j] == x;
      arr[j - 1], arr[j] := arr[j], arr[j - 1];
      assert arr[..] == before[j - 1 := x][j := sorted[j - 1]];
      SwapLeft(sorted, x, rest, j);
      j := j - 1;
    }
    assert j == 0 || le(sorted[j - 1], x) by {
      if j > 0 {
        assert arr[j - 1] == sorted[j - 1] && arr[j] == x;
      }
    }
    InsertRightAt(x, sorted, le, j);
  }

  /** One step of InsertAt: x trades places with the element before it. */
  lemma SwapLeft<T>(sorted: seq<T>, x: T, rest: seq<T>, j: nat)
    requires 0 < j <= |sorted|
    ensures (sorted[..j] + [x] + sorted[j..] + rest)[j - 1 := x][j := sorted[j - 1]]
      == sorted[..j - 1] + [x] + sorted[j - 1..] + rest
  {
    var a := (sorted[..j] + [x] + sorted[j..] + rest)[j - 1 := x][j := sorted[j - 1]];
    var b := sorted[..j - 1] + [x] + sorted[j - 1..] + rest;
    assert |a| == |b|;
    forall k | 0 <= k < |a|
      ensures a[k] == b[k]
    {
    }
  }

  /** `sorted`: a copy of `filtered`, sorted in place by the comparator;
      `filtered` itself is a value and stays as it was. */
  method SortCampaigns(filtered: seq<FlatCampaign>, spec: SortSpec) returns (sorted: seq<FlatCampaign>)
    ensures sorted == InsertionSorted(filtered, Order(spec))
    ensures multiset(sorted) == multiset(filtered)
    ensures forall i, j :: 0 <= i < j < |sorted| ==> InOrder(spec, sorted[i], sorted[j])
    ensures spec.dir == Asc ==> forall i, j :: 0 <= i < j < |sorted| ==>
      !KeyLess(Value(spec, sorted[j]), Value(spec, sorted[i]))
    ensures spec.dir == Desc ==> forall i, j :: 0 <= i < j < |sorted| ==>
      !KeyLess(Value(spec, sorted[i]), Value(spec, sorted[j]))
  {
    var arr := new FlatCampaign[|filtered|](i requires 0 <= i < |filtered| => filtered[i]);
    assert arr[..] == filtered;
    InOrderIsTotalPreorder(spec);
    InsertionSort(arr, Order(spec));
    sorted := arr[..];
    forall i, j | 0 <= i < j < |sorted|
      ensures spec.dir == Asc ==> !KeyLess(Value(spec, sorted[j]), Value(spec, sorted[i]))
      ensures spec.dir == Desc ==> !KeyLess(Value(spec, sorted[i]), Value(spec, sorted[j]))
    {
      assert InOrder(spec, sorted[i], sorted[j]);
      if spec.dir == Asc {
        AscendingMeansKeyOrder(spec, sorted[i], sorted[j]);
      } else {
        DescendingReversesAscending(spec, sorted[i], sorted[j]);
        AscendingMeansKeyOrder(spec.(dir := Asc), sorted[j], sorted[i]);
      }
    }
  }

  function Flip(d: SortDir): SortDir {
    if d == Asc then Desc else Asc
  }

  /** `handleSort`: the active key flips the direction; another key becomes
      active, ascending. */
  function NextSort(s: SortState, key: SortKey): (t: SortState)
    ensures t.key == key
    ensures s.key == key ==> t.dir != s.dir
    ensures s.key != key ==> t.dir == Asc
  {
    if s.key == key then s.(dir := Flip(s.dir)) else SortState(key, Asc)
  }

  /** Clicking the active key twice restores the state; clicking another key
      twice leaves it active, descending. */
  lemma NextSortTwice(s: SortState, key: SortKey)
    ensures s.key == key ==> NextSort(NextSort(s, key), key) == s
    ensures s.key != key ==> NextSort(NextSort(s, key), key) == SortState(key, Desc)
  {
  }

  /** The goal a row belongs to: `goalAssignments[id] || campaign.goalId`. */
  function AssignedGoalId(c: FlatCampaign, assignments: Assignments): (gid: Option<string>)
    ensures Truthy(Assigned(assignments, c.id)) ==> gid == Assigned(assignments, c.id)
    ensures !Truthy(Assigned(assignments, c.id)) ==> gid == c.goalId
  {
    var chosen := Assigned(assignments, c.id);
    if Truthy(chosen) then chosen else c.goalId
  }

  /** The route `handleRowClick` navigates to: under the assigned goal,
      else under the campaign's own goal, else on its own. */
  function RowRoute(c: FlatCampaign, assignments: Assignments): (route: string)
    ensures Truthy(Assigned(assignments, c.id)) ==>
      route == "/goals/" + assignments[c.id] + "/campaigns/" + c.id
    ensures !Truthy(Assigned(assignments, c.id)) && Truthy(c.goalId) ==>
      route == "/goals/" + c.goalId.value + "/campaigns/" + c.id
    ensures !Truthy(Assigned(assignments, c.id)) && !Truthy(c.goalId) ==>
      route == "/campaigns/" + c.id
  {
    var gid := AssignedGoalId(c, assignments);
    if Truthy(gid) then "/goals/" + gid.value + "/campaigns/" + c.id else "/campaigns/" + c.id
  }

  /** `isUnassigned`: neither an own goal nor an assignment, that is, no
      goal for the row to open under. */
  predicate IsUnassigned(c: FlatCampaign, assignments: Assignments)
    ensures IsUnassigned(c, assignments) <==> !Truthy(AssignedGoalId(c, assignments))
  {
    !Truthy(c.goalId) && !Truthy(Assigned(assignments, c.id))
  }

  /** A row opens on its own exactly when it is unassigned. */
  lemma RowRouteCorrect(c: FlatCampaign, assignments: Assignments)
    ensures IsUnassigned(c, assignments) <==> RowRoute(c, assignments) == "/campaigns/" + c.id
  {
    var gid := AssignedGoalId(c, assignments);
    if Truthy(gid) {
      assert RowRoute(c, assignments)[1] == 'g';
      assert ("/campaigns/" + c.id)[1] == 'c';
    }
  }

  /** The select's change handler: an empty choice changes nothing, any other
      records the goal for that campaign alone. */
  function WithAssignment(assignments: Assignments, campaignId: string, value: string): (next: Assignments)
    ensures value == "" ==> next == assignments
    ensures value != "" ==> campaignId in next && next[campaignId] == value
    ensures forall k :: k != campaignId ==> (k in next <==> k in assignments)
    ensures forall k :: k != campaignId && k in assignments ==> next[k] == assignments[k]
  {
    if value != "" then assignments[campaignId := value] else assignments
  }

  /** After a goal is chosen for a row, the row is assigned to it, shows its
      name and opens under it; the other rows are as before. */
  lemma AssignmentTakesEffect(c: FlatCampaign, d: FlatCampaign, assignments: Assignments, goals: seq<Goal>, gid: string)
    requires gid != ""
    requires d.id != c.id
    ensures var next := WithAssignment(assignments, c.id, gid);
      && !IsUnassigned(c, next)
      && EffectiveGoalName(c, next, goals) == Some(FoundName(goals, gid).GetOr(""))
      && RowRoute(c, next) == "/goals/" + gid + "/campaigns/" + c.id
      && EffectiveGoalName(d, next, goals) == EffectiveGoalName(d, assignments, goals)
      && RowRoute(d, next) == RowRoute(d, assignments)
      && IsUnassigned(d, next) == IsUnassigned(d, assignments)
  {
    RowRouteCorrect(c, WithAssignment(assignments, c.id, gid));
  }

  /** The page's state: its filters, its sort and its goal assignments. */
  class CampaignsPage {
    var statusFilter: Choice<EntityStatus>
    var platformFilter: Choice<Platform>
    var sort: SortState
    var goalAssignments: Assignments

    constructor ()
      ensures statusFilter == All && platformFilter == All
      ensures sort == SortState(Name, Asc) && goalAssignments == map[]
    {
      statusFilter := All;
      platformFilter := All;
      sort := SortState(Name, Asc);
      goalAssignments := map[];
    }

    method SetStatusFilter(f: Choice<EntityStatus>)
      modifies this
      ensures statusFilter == f
      ensures platformFilter == old(platformFilter) && sort == old(sort) && goalAssignments == old(goalAssignments)
    {
      statusFilter := f;
    }

    method SetPlatformFilter(f: Choice<Platform>)
      modifies this
      ensures platformFilter == f
      ensures statusFilter == old(statusFilter) && sort == old(sort) && goalAssignments == old(goalAssignments)
    {
      platformFilter := f;
    }

    method HandleSort(key: SortKey)
      modifies this
      ensures sort == NextSort(old(sort), key)
      ensures statusFilter == old(statusFilter) && platformFilter == old(platformFilter)
      ensures goalAssignments == old(goalAssignments)
    {
      if sort.key == key {
        sort := sort.(dir := Flip(sort.dir));
      } else {
        sort := SortState(key, Asc);
      }
    }

    method AssignGoal(campaignId: string, value: string)
      modifies this
      ensures goalAssignments == WithAssignment(old(goalAssignments), campaignId, value)
      ensures statusFilter == old(statusFilter) && platformFilter == old(platformFilter) && sort == old(sort)
    {
      if value != "" {
        goalAssignments := goalAssignments[campaignId := value];
      }
    }

    /** The rows the table shows: all campaigns, filtered, then sorted. */
    method Rows(goals: seq<Goal>, fromGoals: seq<FlatCampaign>, unassigned: seq<FlatCampaign>)
      returns (rows: seq<FlatCampaign>)
      ensures multiset(rows) == multiset(FilteredRows(AllCampaigns(fromGoals, unassigned), statusFilter, platformFilter))
      ensures forall i, j :: 0 <= i < j < |rows| ==>
        InOrder(SortSpec(sort.key, sort.dir, goalAssignments, goals), rows[i], rows[j])
      ensures rows == InsertionSorted(FilteredRows(AllCampaigns(fromGoals, unassigned), statusFilter, platformFilter),
        Order(SortSpec(sort.key, sort.dir, goalAssignments, goals)))
    {
      var all := AllCampaigns(fromGoals, unassigned);
      var filtered := FilterCampaigns(all, statusFilter, platformFilter);
      rows := SortCampaigns(filtered, SortSpec(sort.key, sort.dir, goalAssignments, goals));
    }
  }
}
