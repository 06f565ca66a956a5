# Pinnacle dashboard: data layer in Dafny

This project models the data transformations inside three pages of the Pinnacle
brand-safety dashboard, along with the constant platform tables those pages read.

- **Overview** page:
  - the impression-weighted headline figures;
  - the "primary driver" classifier (`getPrimaryDriver`);
  - the Channel Mix table, which groups goals by their primary platform in a
    dictionary-building loop.
- **Campaigns** page:
  - the campaign list: goal-owned rows followed by unassigned rows;
  - the status/platform filter;
  - the six-key comparator and the sort of a copy of the list;
  - the sort-state machine behind the column headers;
  - goal-name resolution through the session's goal assignments;
  - the row-click route.
- **Goals** page:
  - filter state read from and written to the URL query;
  - the goal filter;
  - the platform pills, which list distinct platforms in first-occurrence order
    with their counts;
  - the health pills and their counts;
  - the goal list with the wizard's goal merged in and placed first.
- **Platform tables:** `platformConfigs` and `mediaTypeConfigs`.

## Modelling choices

- **Modules.**
  - `Seqs`: sequence helpers, including filter, distinct, stable sort-by-key, grouping and sums.
  - `JsText`: ASCII lower-casing and the lexicographic string order of `<`.
  - `Platforms`, `Entities`, `Overview`, `Campaigns` and `Goals`.
- **Numbers.**
  - Impressions are `nat`. Rates and spend are exact `real`s.
  - The page's unguarded divisions give NaN when there are no impressions. Here they give `None`.
- **Grouping key.** A goal's primary platform is `platform ?? platforms[0]`, which is `None` when
  the goal has neither. The page would file such a goal under the object key `"undefined"`; here
  it goes in the `None` group.
- **Sorts.**
  - `getPrimaryDriver` and the Channel Mix order rely on `Array.prototype.sort`, which is stable
    since ECMAScript 2019. They are modelled by an insertion sort by key on sequences
    (`Seqs.SortBy`), proved stable by `Seqs.SortByStable`.
  - The campaign table sorts a fresh array in place. It is modelled as an insertion sort on an
    `array`, driven by the page's comparator. The method is proved to compute a functional
    insertion sort (`Campaigns.InsertionSorted`), which is stable, so ties keep their input
    order as they do under the engine's stable sort.
- **URL filters.** The page casts query values with `as HealthStatus` and `as Platform`, so any
  string can become filter state. A filter is therefore `AnyValue | Exactly(v) | Unmatched(raw)`.
  An `Unmatched` value matches no goal, as on the page.
- **Query string.** The query is an ordered list of key/value pairs. `get` returns the first
  pair's value and `set` follows `URLSearchParams.set`.
- **Imported data.** `mockGoals`, `newGoal5`, `refreshedGoal5`, the output of `flattenCampaigns`
  and `unassignedCampaigns` are parameters. So are the wizard context values from `useVera`.
- **State.** The page state of Campaigns and Goals are classes (`CampaignsPage`, `GoalsPage`).
  Their handlers are methods that update the fields.

## Model

| member | source | states |
|---|---|---|
| Platforms.PlatformOfId | src/types/platform.ts:11-20 | reading a platform id back is the exact inverse of the id a platform has |
| Platforms.PlatformConfigs | src/types/platform.ts:11-20 | the table has an entry for each of the eight platforms, each entry's id is its key, and labels are pairwise distinct |
| Platforms.PlatformLabel | src/pages/Goals.tsx:182 | a platform's pill label is non-empty and differs from every other platform's label |
| Platforms.MediaTypeConfigs | src/types/platform.ts:31-60 | the table has an entry for each of the four media types, and each entry's id is its key |
| Platforms.MediaTypeListing | src/types/platform.ts:37-58 | a platform is listed under a media type exactly when that is its (unique) media type |
| Platforms.MediaTypesDisjoint | src/types/platform.ts:37-58 | a platform listed under one media type is listed under no other |
| Platforms.UnlistedPlatforms | src/types/platform.ts:18-19 | LinkedIn and Twitch, and only they, belong to no media type |
| Entities.HealthOfId | src/pages/Goals.tsx:13-18 | reading a health id back is the exact inverse of the id a health status has |
| Entities.PrimaryPlatform | src/pages/Overview.tsx:55 | `platform` when set, else the first of `platforms`, else none |
| Entities.WithWizardOverrides | src/pages/Goals.tsx:45-53 | the buying-platform label is always written (empty clears it); platform with `platforms := [platform]`, media type and name only when the wizard set them; every other field is unchanged |
| Entities.WizardPlatformIsPrimary | src/pages/Goals.tsx:47 | a wizard platform becomes the merged goal's primary platform; without one the primary platform is the base goal's |
| Entities.WizardOverridesIdempotent | src/pages/Goals.tsx:45-53 | merging the same overrides twice gives the same goal as merging them once |
| Entities.GoalList | src/pages/Campaigns.tsx:45-54 | after goal creation the list is the merged goal followed by the mock goals; otherwise it is the mock goals |
| JsText.Lower | src/pages/Campaigns.tsx:82-83 | each ASCII capital becomes its lower-case letter (code plus 32) and every other character is kept, so the length is kept and no ASCII capital remains |
| JsText.LowerIdempotent | src/pages/Campaigns.tsx:82-83 | lower-casing twice is lower-casing once |
| JsText.LowerIgnoresCase | src/pages/Campaigns.tsx:82-83 | two strings that agree up to ASCII case lower-case to the same string |
| JsText.EmptyLeast | src/pages/Campaigns.tsx:108-109 | the empty string is below every non-empty string and above none |
| JsText.LexLessIrreflexive | src/pages/Campaigns.tsx:108-109 | no string is below itself |
| JsText.LexLessTransitive | src/pages/Campaigns.tsx:108-109 | string order is transitive |
| JsText.LexLessTrichotomous | src/pages/Campaigns.tsx:108-109 | any two strings are equal or one is below the other |
| JsText.LexLessAsymmetric | src/pages/Campaigns.tsx:108-109 | two strings are never below each other |
| JsText.ProperPrefixIsLess | src/pages/Campaigns.tsx:108-109 | a proper prefix sorts first |
| Overview.TotalImpressions | src/pages/Overview.tsx:43 | the total is zero exactly when every goal has zero impressions |
| Overview.TotalSpend | src/pages/Overview.tsx:44 | with no negative spend on any goal, the total spend is not negative |
| Overview.TotalSpendAppend | src/pages/Overview.tsx:44 | the spend of two lists together is the sum of their spends |
| Overview.WeightedMean | src/pages/Overview.tsx:45 | the weighted mean is undefined (NaN on the page) exactly when there are no impressions |
| Overview.WeightedMeanScales | src/pages/Overview.tsx:45 | with impressions, mean times total impressions gives back the weighted sum |
| Overview.WeightedSumNoImpressions | src/pages/Overview.tsx:62-65 | goals without impressions contribute nothing: with zero total impressions the weighted sum is zero |
| Overview.WeightedSumLower | src/pages/Overview.tsx:64-65 | if every rate is at least lo, the weighted sum is at least lo times the impressions |
| Overview.WeightedSumUpper | src/pages/Overview.tsx:64-65 | if every rate is at most hi, the weighted sum is at most hi times the impressions |
| Overview.WeightedMeanBounds | src/pages/Overview.tsx:64-65 | with impressions, a weighted rate lies between any lower and upper bound of the members' rates |
| Overview.PillarValue | src/pages/Overview.tsx:28-31 | Fraud is 100 minus the weighted fraud rate; the other pillars are the weighted viewability, suitability and in-geo rates |
| Overview.PillarScores | src/pages/Overview.tsx:27-32 | every pillar is scored once, with its value and its threshold (98, 70, 95, 95), in declaration order |
| Overview.PrimaryDriver | src/pages/Overview.tsx:25-26 | no impressions means no driver |
| Overview.NoDriverIffAllPass | src/pages/Overview.tsx:33-36 | with impressions, there is no driver exactly when every pillar reaches its threshold |
| Overview.DriverIsFirstMinimum | src/pages/Overview.tsx:33-36 | a driver is the first failing pillar of least margin |
| Overview.DriverIsWorst | src/pages/Overview.tsx:27-36 | a driver is failing, has the least margin of all failing pillars, and among equal margins is listed first |
| Seqs.SortByStable | src/pages/Overview.tsx:35 | the sort by key is stable: elements of equal key come out in the order they went in |
| Overview.Members | src/pages/Overview.tsx:53-58 | a group holds exactly the goals whose primary platform is its key |
| Overview.ChannelKeys | src/pages/Overview.tsx:53-58 | the dictionary's keys are distinct and are exactly the primary platforms that occur |
| Overview.GroupByPlatform | src/pages/Overview.tsx:53-58 | the loop leaves one key per primary platform, in first-use order, and each key's list is that platform's goals in list order |
| Overview.GroupRow | src/pages/Overview.tsx:61-67 | a group's row carries its key and member count, the members' total impressions and spend, their impression-weighted AAR and block rate, and their primary driver; its impressions are zero exactly when no member has any, and exactly then both rates are NaN, and then it has no driver |
| Overview.ChannelRows | src/pages/Overview.tsx:52-70 | one row per key, a rearrangement of the per-group rows, in non-increasing order of impressions |
| Overview.ChannelData | src/pages/Overview.tsx:52-70 | the rows are one row per group, with count, impressions, spend, weighted AAR, weighted block rate and driver, sorted by impressions, most first (the tie order is `Overview.ChannelRowsStable`) |
| Overview.ChannelRowsStable | src/pages/Overview.tsx:60-69 | the sort is stable: rows with equal impressions stay in the order their platforms were first met |
| Overview.EachGoalInOneGroup | src/pages/Overview.tsx:55-57 | every goal is in exactly one group, the one of its primary platform |
| Overview.ChannelRowsAreGroups | src/pages/Overview.tsx:60-67 | every row is the row of one group, and no row is empty |
| Overview.ChannelRowsPartition | src/pages/Overview.tsx:60-67 | the rows' goal counts add up to the number of goals, and their impressions to total impressions |
| Overview.HasAnyDsp | src/pages/Overview.tsx:42 | true exactly when some goal has a non-empty buying-platform label |
| Overview.PageSummary | src/pages/Overview.tsx:42-74 | the DSP flag is the "some goal" test; the totals are the impression and spend sums; the block rate and the overall AAR are the impression-weighted means of the goals' rates, and the overall driver is the primary driver of all goals; the three counts are the numbers of needs-attention, at-risk and active goals; total impressions are zero exactly when every goal has none, exactly then both rates are NaN, and then there is no driver; needs-attention and at-risk counts together do not exceed the goals, nor do active goals |
| Campaigns.AllCampaigns | src/pages/Campaigns.tsx:57-60 | the list is the goal-derived rows followed by the unassigned rows, and its length is the sum |
| Campaigns.ClausesInTurn | src/pages/Campaigns.tsx:63-72 | applying the status filter and then the platform filter is filtering once by both |
| Campaigns.FilterCampaigns | src/pages/Campaigns.tsx:63-72 | the result is the filtered list; with both filters `'all'` it is the input itself |
| Campaigns.FilteredRowsCorrect | src/pages/Campaigns.tsx:63-72 | a row is kept exactly when it passes every clause that is not `'all'`, and kept rows keep their order |
| Campaigns.FindGoal | src/pages/Campaigns.tsx:86 | nothing is found exactly when no goal has the id; otherwise the first goal with that id is found |
| Campaigns.EffectiveGoalName | src/pages/Campaigns.tsx:233-236 | with a non-empty assignment, the assigned goal's name, or `''` if that goal is missing; otherwise the campaign's own goal name |
| Campaigns.GoalNameKey | src/pages/Campaigns.tsx:86-87 | the `goalName` key is `''` when the assigned goal is missing, or when there is no assignment and no own goal name |
| Campaigns.GoalNameKeyIsShownName | src/pages/Campaigns.tsx:86-87 | the `goalName` sort key is the lower-cased name the row shows |
| Campaigns.SortValue | src/pages/Campaigns.tsx:80-104 | name and goal name compare as strings; the other four keys compare as numbers |
| Campaigns.Compare | src/pages/Campaigns.tsx:108-110 | the comparator answers -1, 0 or 1 |
| Campaigns.KeyLessAsymmetric | src/pages/Campaigns.tsx:108-109 | `aVal < bVal` on sort keys (`Campaigns.KeyLess`: string order on text, numeric order on numbers) never holds both ways |
| Campaigns.KeyNotLessTransitive | src/pages/Campaigns.tsx:108-109 | on keys of one kind, "not below" is transitive |
| Campaigns.CompareAntisymmetric | src/pages/Campaigns.tsx:108-110 | swapping the rows negates the comparator |
| Campaigns.DescendingReversesAscending | src/pages/Campaigns.tsx:108-110 | descending order compares as ascending with the rows swapped |
| Campaigns.AscendingMeansKeyOrder | src/pages/Campaigns.tsx:108-110 | in ascending order, a may precede b exactly when b's key is not below a's |
| Campaigns.InOrderTransitive | src/pages/Campaigns.tsx:108-110 | "may precede" is transitive |
| Campaigns.InOrderIsTotalPreorder | src/pages/Campaigns.tsx:108-110 | "may precede" is total and transitive, so the comparator is consistent |
| Campaigns.InsertionSortedPermutes | src/pages/Campaigns.tsx:76-111 | the sort's result is a rearrangement of its input |
| Campaigns.InsertionSortedSorted | src/pages/Campaigns.tsx:76-111 | for a comparator that is a total preorder, the result is ordered by it |
| Campaigns.InsertionSortedFixesSorted | src/pages/Campaigns.tsx:76-111 | input already in order comes out unchanged, ties included |
| Campaigns.InsertionSortedIdempotent | src/pages/Campaigns.tsx:76-111 | sorting the sorted rows again changes nothing |
| Campaigns.InsertionSortedStable | src/pages/Campaigns.tsx:76-111 | stability: the rows the comparator ties with any given row come out in the order they went in |
| Campaigns.InsertionSort | src/pages/Campaigns.tsx:76-111 | the array is sorted in place: it ends as the stable insertion sort of its old contents, hence a permutation of them ordered by the comparator |
| Campaigns.SortCampaigns | src/pages/Campaigns.tsx:75-113 | the result is the reference insertion sort `Campaigns.InsertionSorted` of the filtered rows by the comparator, which is stable: a permutation of them in which, in `asc`, no later row's key is below an earlier one's, and in `desc` the reverse |
| Campaigns.NextSort | src/pages/Campaigns.tsx:115-122 | the clicked key becomes active; the active key flips the direction, and a new key starts ascending |
| Campaigns.NextSortTwice | src/pages/Campaigns.tsx:115-122 | clicking the active key twice restores the state; clicking a new key twice leaves it active, descending |
| Campaigns.AssignedGoalId | src/pages/Campaigns.tsx:125 | the goal of a row is the non-empty assignment, else the campaign's own goal id |
| Campaigns.RowRoute | src/pages/Campaigns.tsx:124-131 | the route is `/goals/{assignment}/campaigns/{id}` for a non-empty assignment, else `/goals/{goalId}/campaigns/{id}` for a non-empty own goal, else `/campaigns/{id}` |
| Campaigns.IsUnassigned | src/pages/Campaigns.tsx:237 | a row is unassigned exactly when it has no goal to open under, neither assigned nor its own |
| Campaigns.RowRouteCorrect | src/pages/Campaigns.tsx:124-131 | a row opens at `/campaigns/{id}` exactly when it is unassigned |
| Campaigns.WithAssignment | src/pages/Campaigns.tsx:261-264 | an empty choice leaves the assignments unchanged; any other records it for that campaign and changes no other entry |
| Campaigns.AssignmentTakesEffect | src/pages/Campaigns.tsx:233-237 | after assigning goal g, the row is not unassigned, shows g's name, and opens under g; every other row is as before |
| Campaigns.CampaignsPage.constructor | src/pages/Campaigns.tsx:38-42 | the initial state: both filters `'all'`, sorted by name ascending, no assignments |
| Campaigns.CampaignsPage.SetStatusFilter | src/pages/Campaigns.tsx:38 | sets the status filter and nothing else |
| Campaigns.CampaignsPage.SetPlatformFilter | src/pages/Campaigns.tsx:39 | sets the platform filter and nothing else |
| Campaigns.CampaignsPage.HandleSort | src/pages/Campaigns.tsx:115-122 | the sort state moves by the state machine; the filters and assignments are unchanged |
| Campaigns.CampaignsPage.AssignGoal | src/pages/Campaigns.tsx:261-264 | the assignment map is updated as the select handler does; nothing else changes |
| Campaigns.CampaignsPage.Rows | src/pages/Campaigns.tsx:57-113 | the table shows the stable sort, by the active comparator, of the filtered campaign list |
| Goals.QueryGet | src/pages/Goals.tsx:27 | a key reads as absent exactly when no pair has it; otherwise the value read is that of the first pair with that key |
| Goals.RemoveKey | src/pages/Goals.tsx:59-60 | no pair with the key remains |
| Goals.RemoveKeyKeepsOthers | src/pages/Goals.tsx:59-60 | removing one key does not change what another key reads as |
| Goals.QuerySet | src/pages/Goals.tsx:59-60 | after `set`, the key reads as the new value |
| Goals.QuerySetKeepsOthers | src/pages/Goals.tsx:59-60 | `set` on one key does not change what another key reads as |
| Goals.QuerySetUnique | src/pages/Goals.tsx:59-60 | after `set`, the key occurs in at most one pair |
| Goals.QuerySetAppends | src/pages/Goals.tsx:59-60 | `set` on an absent key appends the pair at the end |
| Goals.ParseFilter | src/pages/Goals.tsx:26-31 | a missing, empty or `'all'` parameter reads as all; an id the table knows reads as its value; anything else is an unmatched value that no goal has |
| Goals.ParamRoundTrip | src/pages/Goals.tsx:26-31 | writing a filter and reading it back gives the filter, for any id table that is invertible and never writes `''` or `'all'` |
| Goals.HealthRoundTrip | src/pages/Goals.tsx:26-28 | the health filter survives writing and reading back |
| Goals.PlatformRoundTrip | src/pages/Goals.tsx:29-31 | the platform filter survives writing and reading back |
| Goals.Param | src/pages/Goals.tsx:57-61 | `'all'` writes no parameter and any other filter writes one; a known value writes its id |
| Goals.UpdateFilters | src/pages/Goals.tsx:57-62 | `status` is set exactly when the health filter is not `'all'`, and `platform` exactly when the platform filter is not; no other key is set; status comes first |
| Goals.StatusThenPlatform | src/pages/Goals.tsx:57-61 | a fresh query holding at most `status` and then `platform` reads each back as written, holds no other key, and puts `status` first |
| Goals.UpdateFiltersRoundTrip | src/pages/Goals.tsx:26-31 | reading the query that `updateFilters` wrote gives back both filters |
| Goals.GoalMatches | src/pages/Goals.tsx:77-81 | both filters `'all'` pass every goal; an unmatched value passes none; a single chosen health status or platform passes exactly the goals that have it |
| Goals.FilteredGoals | src/pages/Goals.tsx:77-81 | a goal is shown exactly when it passes the health clause and the primary-platform clause; with both `'all'` every goal is shown |
| Goals.FilteredGoalsKeepOrder | src/pages/Goals.tsx:77-81 | shown goals keep their list order |
| Goals.UnmatchedHidesAll | src/pages/Goals.tsx:77-81 | a filter value from the URL that names no health status or platform hides every goal |
| Goals.HealthCount | src/pages/Goals.tsx:146 | a health pill's count is the number of goals with that health status, which is what choosing the pill shows when the platform filter is 'all'; at most all goals |
| Goals.PlatformCount | src/pages/Goals.tsx:169 | a platform pill's count is the number of goals with that primary platform, which is what choosing the pill shows when the status filter is 'all'; at most all goals |
| Goals.HealthCountsSum | src/pages/Goals.tsx:146 | every goal is counted on exactly one health pill |
| Goals.HealthFilters | src/pages/Goals.tsx:13-18 | `'all'` comes first, then each health status exactly once, with distinct labels |
| Goals.AvailablePlatforms | src/pages/Goals.tsx:75 | each primary platform that occurs is listed exactly once, and nothing else is |
| Goals.AvailablePlatformsInFirstOccurrenceOrder | src/pages/Goals.tsx:75 | platforms are listed in the order of their first goal |
| Goals.ListedIffCounted | src/pages/Goals.tsx:75 | a platform is listed exactly when its count is at least one |
| Goals.PlatformPills | src/pages/Goals.tsx:168-183 | one pill per listed platform, in order, labelled from the platform table, with its count (at least one); labels are distinct |
| Goals.AllGoals | src/pages/Goals.tsx:51-54 | after goal creation the list is the merged goal followed by the mock goals, built on the refreshed goal exactly when `'goal-5'` was refreshed; otherwise it is the mock goals |
| Goals.GoalsPage.constructor | src/pages/Goals.tsx:26-31 | the filters start as what the URL reads as |
| Goals.GoalsPage.HandleStatusFilter | src/pages/Goals.tsx:57-67 | the health filter becomes the choice; the query is replaced by a fresh one holding only `status` (unless `'all'`) and then `platform` (unless `'all'`), so the URL still reads as both filters |
| Goals.GoalsPage.HandlePlatformFilter | src/pages/Goals.tsx:57-62 | the platform filter becomes the choice; the query is replaced by a fresh one holding only `status` (unless `'all'`) and then `platform` (unless `'all'`), so the URL still reads as both filters |

## Left out

- Rendering: JSX, CSS class composition, tooltips, formatters, the `DRIVER_LABELS` texts, `getIssues`,
  `getAuthenticRateColor` and the DataTable's own column sorting.
- React machinery:
  - `useMemo` caching and `useState` plumbing (state is modelled as class fields);
  - the `useVera` context, which is a parameter;
  - `navigate`, for which only the route string is modelled;
  - the `document` mousedown listener on the Goals page.
- `flattenCampaigns`, `unassignedCampaigns`, `mockGoals`, `newGoal5` and `refreshedGoal5`:
  imported data, taken as parameters.
- src/types/goal.ts is not part of this model. The record fields are taken from their uses in
  the pages.
- MonitoringModeBanner and MetricCard: presentational.
- The Campaigns page's pill lists (src/pages/Campaigns.tsx:17-32): the filter state ranges over
  every status and platform, a superset of what the pills offer.
- IEEE floating point:
  - arithmetic is exact on `real`;
  - NaN from a division by zero impressions is `None`;
  - NaN comparisons inside `getPrimaryDriver` cannot arise, because the model returns no driver
    before dividing.
- JsText.Lower: only ASCII capitals are lower-cased. `toLowerCase` also maps non-ASCII capitals
  such as `É` or `Ω`, which the model keeps unchanged, so name and goal-name sort keys
  (src/pages/Campaigns.tsx:84-86) can order such names differently: `"Ébc"` sorts before
  `"éab"` here and after it on the page.
- JsText.LexLess: a Dafny `char` is a Unicode scalar value, so strings are compared by code
  point, where JavaScript's `<` compares UTF-16 code units. The two orders differ when a
  character above U+FFFF (a surrogate pair in JavaScript) meets one from U+E000 to U+FFFF at the
  same position; for example `'\u{1F600}'` sorts before `'\uFF21'` in JavaScript and after it here.
  The campaign sort (Campaigns.Compare) inherits this.
- URL percent-encoding and `URLSearchParams` parsing of the raw query string. The query is a
  list of decoded pairs.
- Campaigns.SortCampaigns: an insertion sort stands in for the engine's sort. Both are stable,
  but the engine may call the comparator on other pairs and in another order; only the result
  is modelled.
- Campaigns.CampaignsPage.Rows: the table is kept as a value. The `useMemo` re-computation on
  dependency change is not modelled.
- Goals.GoalsPage.HandleStatusFilter and Goals.GoalsPage.HandlePlatformFilter require a known
  value or `'all'`, because the pills only ever pass those. The other filter may still hold an
  unmatched URL value.
