/** The platform and media-type lookup tables (src/types/platform.ts). */
module Platforms {
  import opened Seqs

  datatype Platform = OpenWeb | Meta | TikTok | YouTube | Ctv | Snapchat | LinkedIn | Twitch

  datatype MediaType = Display | Social | Video | ConnectedTv

  /** Every platform. */
  function PlatformSet(): set<Platform> {
    {OpenWeb, Meta, TikTok, YouTube, Ctv, Snapchat, LinkedIn, Twitch}
  }

  lemma PlatformSetComplete(p: Platform)
    ensures p in PlatformSet()
  {
    match p
    case OpenWeb =>
    case Meta =>
    case TikTok =>
    case YouTube =>
    case Ctv =>
    case Snapchat =>
    case LinkedIn =>
    case Twitch =>
  }

  /** Every media type. */
  function MediaTypeSet(): set<MediaType> {
    {Display, Social, Video, ConnectedTv}
  }

  lemma MediaTypeSetComplete(t: MediaType)
    ensures t in MediaTypeSet()
  {
    match t
    case Display =>
    case Social =>
    case Video =>
    case ConnectedTv =>
  }

  /** The identifier a platform has in records and in the URL. */
  function PlatformId(p: Platform): string {
    match p
    case OpenWeb => "open-web"
    case Meta => "meta"
    case TikTok => "tiktok"
    case YouTube => "youtube"
    case Ctv => "ctv"
    case Snapchat => "snapchat"
    case LinkedIn => "linkedin"
    case Twitch => "twitch"
  }

  /** Reads a platform identifier back; the inverse of PlatformId. */
  function PlatformOfId(s: string): (r: Option<Platform>)
    ensures forall p :: r == Some(p) <==> PlatformId(p) == s
  {
    if s == "open-web" then Some(OpenWeb)
    else if s == "meta" then Some(Meta)
    else if s == "tiktok" then Some(TikTok)
    else if s == "youtube" then Some(YouTube)
    else if s == "ctv" then Some(Ctv)
    else if s == "snapchat" then Some(Snapchat)
    else if s == "linkedin" then Some(LinkedIn)
    else if s == "twitch" then Some(Twitch)
    else None
  }

  datatype PlatformConfig = PlatformConfig(
    id: Platform, labelText: string, color: string, bgColor: string, iconColor: string)

  /** `platformConfigs`: one entry per platform, filed under its own id,
      each with a label of its own. */
  function PlatformConfigs(): (m: map<Platform, PlatformConfig>)
    ensures forall p: Platform :: p in m && m[p].id == p
    ensures forall p: Platform, q: Platform :: p != q ==> m[p].labelText != m[q].labelText
  {
    var m := map[
      OpenWeb := PlatformConfig(OpenWeb, "Open Web", "text-cool-600", "bg-neutral-100", "#5a5e78"),
      Meta := PlatformConfig(Meta, "Meta", "text-cool-600", "bg-neutral-100", "#5a5e78"),
      TikTok := PlatformConfig(TikTok, "TikTok", "text-cool-600", "bg-neutral-100", "#5a5e78"),
      YouTube := PlatformConfig(YouTube, "YouTube", "text-cool-600", "bg-neutral-100", "#5a5e78"),
      Ctv := PlatformConfig(Ctv, "CTV", "text-cool-600", "bg-neutral-100", "#5a5e78"),
      Snapchat := PlatformConfig(Snapchat, "Snapchat", "text-cool-600", "bg-neutral-100", "#5a5e78"),
      LinkedIn := PlatformConfig(LinkedIn, "LinkedIn", "text-cool-600", "bg-neutral-100", "#5a5e78"),
      Twitch := PlatformConfig(Twitch, "Twitch", "text-cool-600", "bg-neutral-100", "#5a5e78")
    ];
    assert forall p: Platform :: p in m && m[p].id == p by {
      forall p: Platform ensures p in m && m[p].id == p {
        PlatformSetComplete(p);
      }
    }
    m
  }

  /** `platformConfigs[p].label`, as the goal list's platform pills show it. */
  function PlatformLabel(p: Platform): (text: string)
    ensures text != ""
    ensures forall q :: q != p ==> PlatformConfigs()[q].labelText != text
  {
    PlatformConfigs()[p].labelText
  }

  datatype MediaTypeConfig = MediaTypeConfig(
    id: MediaType, labelText: string, desc: string, metricFocus: string, platforms: seq<Platform>)

  /** The media type whose table entry lists a platform, if any. */
  function MediaTypeOf(p: Platform): Option<MediaType> {
    match p
    case OpenWeb => Some(Display)
    case Meta => Some(Social)
    case TikTok => Some(Social)
    case Snapchat => Some(Social)
    case YouTube => Some(Video)
    case Ctv => Some(ConnectedTv)
    case LinkedIn => None
    case Twitch => None
  }

  /** The platforms `mediaTypeConfigs` lists under a media type. */
  function ListedPlatforms(t: MediaType): seq<Platform> {
    match t
    case Display => [OpenWeb]
    case Social => [Meta, TikTok, Snapchat]
    case Video => [YouTube]
    case ConnectedTv => [Ctv]
  }

  /** The entry `mediaTypeConfigs` holds for one media type. */
  function MediaTypeEntry(t: MediaType): MediaTypeConfig {
    match t
    case Display => MediaTypeConfig(Display, "Display", "Banner and native ads across the open web",
      "Block Rate & URL verification", ListedPlatforms(t))
    case Social => MediaTypeConfig(Social, "Social", "Walled garden platforms",
      "Feed-level Brand Safety analysis", ListedPlatforms(t))
    case Video => MediaTypeConfig(Video, "Video", "Pre-roll, mid-roll, and outstream video",
      "Viewability & Attention metrics", ListedPlatforms(t))
    case ConnectedTv => MediaTypeConfig(ConnectedTv, "CTV", "Connected TV streaming environments",
      "Fraud (SIVT) & app-level verification", ListedPlatforms(t))
  }

  /** `mediaTypeConfigs`: one entry per media type, filed under its own id
      (what each entry lists: MediaTypeListing). */
  function MediaTypeConfigs(): (m: map<MediaType, MediaTypeConfig>)
    ensures forall t: MediaType :: t in m && m[t].id == t && m[t].platforms == ListedPlatforms(t)
  {
    map t: MediaType :: MediaTypeEntry(t)
  }

  /** A platform is listed under exactly the media type MediaTypeOf gives it. */
  lemma MediaTypeListing(t: MediaType, p: Platform)
    ensures p in MediaTypeConfigs()[t].platforms <==> MediaTypeOf(p) == Some(t)
  {
    match t
    case Display => assert p in [OpenWeb] <==> p == OpenWeb;
    case Social => assert p in [Meta, TikTok, Snapchat] <==> p == Meta || p == TikTok || p == Snapchat;
    case Video => assert p in [YouTube] <==> p == YouTube;
    case ConnectedTv => assert p in [Ctv] <==> p == Ctv;
  }

  /** No platform is listed under two media types. */
  lemma MediaTypesDisjoint(s: MediaType, t: MediaType, p: Platform)
    requires s != t && p in MediaTypeConfigs()[s].platforms
    ensures p !in MediaTypeConfigs()[t].platforms
  {
    MediaTypeListing(s, p);
    MediaTypeListing(t, p);
  }

  /** LinkedIn and Twitch, and only they, are listed under no media type. */
  lemma UnlistedPlatforms(p: Platform)
    ensures (forall t: MediaType :: p !in MediaTypeConfigs()[t].platforms) <==> p == LinkedIn || p == Twitch
  {
    forall t: MediaType {
      MediaTypeListing(t, p);
    }
    if MediaTypeOf(p).Some? {
      assert p in MediaTypeConfigs()[MediaTypeOf(p).value].platforms;
    }
  }
}
