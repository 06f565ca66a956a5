/** The records the pages share: goals, flattened campaigns, the goal the
    creation wizard produces, and the goal list built from them. */
module Entities {
  import opened Seqs
  import opened Platforms

  datatype EntityStatus = Draft | Active | Paused

  datatype HealthStatus = OnTrack | AtRisk | NeedsAttention

  /** The identifier a health status has in records and in the URL. */
  function HealthId(h: HealthStatus): string {
    match h
    case OnTrack => "on-track"
    case AtRisk => "at-risk"
    case NeedsAttention => "needs-attention"
  }

  /** Reads a health identifier back; the inverse of HealthId. */
  function HealthOfId(s: string): (r: Option<HealthStatus>)
    ensures forall h :: r == Some(h) <==> HealthId(h) == s
  {
    if s == "on-track" then Some(OnTrack)
    else if s == "at-risk" then Some(AtRisk)
    else if s == "needs-attention" then Some(NeedsAttention)
    else None
  }

  /** A goal and its aggregate metrics. Rates are percentages. */
  datatype Goal = Goal(
    id: string,
    name: string,
    status: EntityStatus,
    healthStatus: HealthStatus,
    platform: Option<Platform>,
    platforms: seq<Platform>,
    mediaType: MediaType,
    totalImpressions: nat,
    totalSpend: real,
    authenticAdRate: real,
    blockRate: real,
    fraudRate: real,
    viewabilityRate: real,
    brandSuitabilityRate: real,
    inGeoRate: real,
    connectedDsp: Option<string>)

  /** `g.platform ?? g.platforms[0]`, which is undefined for a goal with
      neither. */
  function PrimaryPlatform(g: Goal): (r: Option<Platform>)
    ensures g.platform.Some? ==> r == g.platform
    ensures g.platform.None? ==> (r.Some? <==> g.platforms != [])
    ensures r.Some? && g.platform.None? ==> r.value == g.platforms[0]
  {
    if g.platform.Some? then g.platform
    else if g.platforms != [] then Some(g.platforms[0])
    else None
  }

  /** `g.healthStatus === h`, as a filter predicate. */
  function HasHealth(h: HealthStatus): Goal -> bool {
    (g: Goal) => g.healthStatus == h
  }

  /** A campaign row, annotated with the goal that owns it, if any. */
  datatype FlatCampaign = FlatCampaign(
    id: string,
    name: string,
    platform: Platform,
    status: EntityStatus,
    healthStatus: HealthStatus,
    authenticAdRate: real,
    impressions: nat,
    spend: real,
    viewabilityRate: real,
    goalId: Option<string>,
    goalName: Option<string>)

  /** A JavaScript string value that is defined and not empty. */
  predicate Truthy(s: Option<string>) {
    s.Some? && s.value != ""
  }

  /** What the goal-creation wizard left in the shared context. Strings are
      empty and the options None when the wizard did not set them. */
  datatype WizardContext = WizardContext(
    goalCreated: bool,
    connectedDspLabel: string,
    goalPlatform: Option<Platform>,
    goalMediaType: Option<MediaType>,
    goalName: string)

  /** `{ ...base, ...wizardOverrides }`: the buying-platform label is always
      written (an empty label clears it); platform, media type and name are
      written only when the wizard set them; nothing else changes. */
  function WithWizardOverrides(base: Goal, w: WizardContext): (g: Goal)
    ensures g.connectedDsp == (if w.connectedDspLabel == "" then None else Some(w.connectedDspLabel))
    ensures w.goalPlatform.Some? ==> g.platform == w.goalPlatform && g.platforms == [w.goalPlatform.value]
    ensures w.goalPlatform.None? ==> g.platform == base.platform && g.platforms == base.platforms
    ensures g.mediaType == w.goalMediaType.GetOr(base.mediaType)
    ensures g.name == (if w.goalName != "" then w.goalName else base.name)
    ensures g == base.(connectedDsp := g.connectedDsp, platform := g.platform,
                       platforms := g.platforms, mediaType := g.mediaType, name := g.name)
  {
    var g1 := base.(connectedDsp := if w.connectedDspLabel == "" then None else Some(w.connectedDspLabel));
    var g2 := if w.goalPlatform.Some? then g1.(platform := w.goalPlatform, platforms := [w.goalPlatform.value]) else g1;
    var g3 := if w.goalMediaType.Some? then g2.(mediaType := w.goalMediaType.value) else g2;
    if w.goalName != "" then g3.(name := w.goalName) else g3
  }

  /** A wizard platform becomes the goal's primary platform. */
  lemma WizardPlatformIsPrimary(base: Goal, w: WizardContext)
    ensures w.goalPlatform.Some? ==> PrimaryPlatform(WithWizardOverrides(base, w)) == w.goalPlatform
    ensures w.goalPlatform.None? ==> PrimaryPlatform(WithWizardOverrides(base, w)) == PrimaryPlatform(base)
  {
  }

  /** Applying the same overrides again changes nothing. */
  lemma WizardOverridesIdempotent(base: Goal, w: WizardContext)
    ensures WithWizardOverrides(WithWizardOverrides(base, w), w) == WithWizardOverrides(base, w)
  {
  }

  /** `goalCreated ? [goal5Data, ...mockGoals] : mockGoals`. */
  function GoalList(base: Goal, w: WizardContext, mockGoals: seq<Goal>): (goals: seq<Goal>)
    ensures w.goalCreated ==> |goals| == |mockGoals| + 1 && goals[0] == WithWizardOverrides(base, w)
                              && goals[1..] == mockGoals
    ensures !w.goalCreated ==> goals == mockGoals
  {
    if w.goalCreated then [WithWizardOverrides(base, w)] + mockGoals else mockGoals
  }
}
