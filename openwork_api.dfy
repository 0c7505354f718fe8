/**
 * The data-access layer over the marketplace API (frontend-next/lib/openwork-api.ts):
 * the query string built for the agent list, the mapping of a raw server record to
 * an `Agent` (with its `||` defaults), the dashboard defaults, and the display helpers
 * (avatar by specialty, tier from reputation, tier badge, reputation and address
 * formatting). The HTTP requests themselves are not modelled: every mapping here
 * takes the already-decoded JSON record as its argument.
 */
module OpenworkApi {
  import opened Wrappers
  import opened AgentTypes
  import opened JsSemantics

  // ---------------------------------------------------------------------------
  // Query parameters for GET /agents

  /** `URLSearchParams.get`: the value of the first pair with this name. */
  function Lookup(entries: seq<(string, string)>, name: string): Option<string> {
    if entries == [] then None
    else if entries[0].0 == name then Some(entries[0].1)
    else Lookup(entries[1..], name)
  }

  /** Drops every pair with this name. */
  function RemoveAll(entries: seq<(string, string)>, name: string): (r: seq<(string, string)>)
    ensures |r| <= |entries|
    ensures forall p :: p in r ==> p in entries && p.0 != name
    ensures forall other :: Lookup(r, other) == if other == name then None else Lookup(entries, other)
  {
    if entries == [] then []
    else if entries[0].0 == name then RemoveAll(entries[1..], name)
    else [entries[0]] + RemoveAll(entries[1..], name)
  }

  /**
   * `URLSearchParams.set`: the first pair with this name takes the new value and the
   * later ones are removed; without such a pair, the new pair is appended.
   */
  function SetEntry(entries: seq<(string, string)>, name: string, value: string): (r: seq<(string, string)>)
    ensures |r| <= |entries| + 1
    ensures forall p :: p in r ==> p.0 == name || p in entries
    ensures forall other :: Lookup(r, other) == if other == name then Some(value) else Lookup(entries, other)
  {
    if entries == [] then [(name, value)]
    else if entries[0].0 == name then [(name, value)] + RemoveAll(entries[1..], name)
    else [entries[0]] + SetEntry(entries[1..], name, value)
  }

  /** The search-parameter object the list request is built from. */
  class SearchParams {
    var entries: seq<(string, string)>

    constructor ()
      ensures entries == []
    {
      entries := [];
    }

    function Get(name: string): Option<string>
      reads this
    {
      Lookup(entries, name)
    }

    method Set(name: string, value: string)
      modifies this
      ensures entries == SetEntry(old(entries), name, value)
      ensures Get(name) == Some(value)
      ensures forall other :: other != name ==> Get(other) == old(Get(other))
    {
      entries := SetEntry(entries, name, value);
    }
  }

  /** The optional filters `fetchAgents` accepts. */
  datatype FetchParams = FetchParams(specialty: Option<string>, minReputation: Option<int>, available: Option<bool>)

  /**
   * The parameters of GET /agents: each filter is set only when truthy, so an empty
   * specialty, a minimum reputation of 0 and `available: false` are all omitted.
   */
  method AgentsQuery(params: Option<FetchParams>) returns (query: seq<(string, string)>)
    ensures Lookup(query, "specialty") ==
      if params.Some? && TruthyString(params.value.specialty) then params.value.specialty else None
    ensures Lookup(query, "min_reputation") ==
      if params.Some? && TruthyNumber(params.value.minReputation)
      then Some(NumberToString(params.value.minReputation.value)) else None
    ensures Lookup(query, "available") ==
      if params.Some? && params.value.available == Some(true) then Some("true") else None
    ensures |query| <= 3
    ensures forall p :: p in query ==> p.0 in {"specialty", "min_reputation", "available"}
  {
    var searchParams := new SearchParams();
    if params.Some? && TruthyString(params.value.specialty) {
      searchParams.Set("specialty", params.value.specialty.value);
    }
    if params.Some? && TruthyNumber(params.value.minReputation) {
      searchParams.Set("min_reputation", NumberToString(params.value.minReputation.value));
    }
    if params.Some? && params.value.available == Some(true) {
      searchParams.Set("available", "true");
    }
    query := searchParams.entries;
  }

  // ---------------------------------------------------------------------------
  // Tiers

  const Legendary := "legendary"
  const Veteran := "veteran"
  const Established := "established"
  const Sprout := "sprout"
  const Seedling := "seedling"

  /** Position of a tier from seedling (0) to legendary (4); any other string ranks with seedling. */
  function TierRank(tier: string): nat {
    if tier == Legendary then 4
    else if tier == Veteran then 3
    else if tier == Established then 2
    else if tier == Sprout then 1
    else 0
  }

  /**
   * `getTierFromReputation`: thresholds 80, 60, 40 and 20 on a 0-100 scale.
   * The rank of the tier is the number of whole 20-point bands reached, capped at 4.
   */
  function TierFromReputation(reputation: int): (tier: string)
    ensures tier in {Legendary, Veteran, Established, Sprout, Seedling}
    ensures TierRank(tier) == if reputation < 0 then 0 else Min(reputation / 20, 4)
  {
    if reputation >= 80 then Legendary
    else if reputation >= 60 then Veteran
    else if reputation >= 40 then Established
    else if reputation >= 20 then Sprout
    else Seedling
  }

  /** A higher reputation never yields a lower tier. */
  lemma TierMonotone(a: int, b: int)
    requires a <= b
    ensures TierRank(TierFromReputation(a)) <= TierRank(TierFromReputation(b))
  {
    if 0 <= a {
      assert a / 20 <= b / 20;
    }
  }

  // ---------------------------------------------------------------------------
  // Tier badges

  /** A badge: its text (the source's `label`) and its CSS classes. */
  datatype Badge = Badge(caption: string, className: string)

  /** The `tiers` object literal of `getTierBadge`. */
  const TierBadges: map<string, Badge> := map[
    Legendary := Badge("🏆 Legendary", "bg-purple-600 text-white"),
    Veteran := Badge("⭐ Veteran", "bg-blue-600 text-white"),
    Established := Badge("🌳 Established", "bg-green-600 text-white"),
    Sprout := Badge("🌿 Sprout", "bg-yellow-600 text-white"),
    Seedling := Badge("🌱 Seedling", "bg-gray-600 text-white")
  ]

  /**
   * `tiers[tier] || tiers.seedling` as written: a tier that names a member of
   * `Object.prototype` finds that member, which is truthy, so the fallback is skipped.
   */
  function TierBadgeAsWritten(tier: string): (p: Property<Badge>)
    ensures !p.Undefined?
    ensures p.Own? ==> p.value in TierBadges.Values
  {
    match RecordGet(TierBadges, tier)
    case Own(badge) => Own(badge)
    case Inherited(member) => Inherited(member)
    case Undefined => Own(TierBadges[Seedling])
  }

  /** The as-written lookup returns `Object`, not a badge, for the tier "constructor". */
  lemma TierBadgeAsWrittenConstructor()
    ensures TierBadgeAsWritten("constructor") == Inherited("constructor")
  {
  }

  /** `getTierBadge`, with the seedling fallback applied to every string that is not a tier. */
  function TierBadge(tier: string): (badge: Badge)
    ensures tier in TierBadges ==> badge == TierBadges[tier]
    ensures tier !in TierBadges ==> badge == TierBadges[Seedling]
  {
    if tier == Legendary then Badge("🏆 Legendary", "bg-purple-600 text-white")
    else if tier == Veteran then Badge("⭐ Veteran", "bg-blue-600 text-white")
    else if tier == Established then Badge("🌳 Established", "bg-green-600 text-white")
    else if tier == Sprout then Badge("🌿 Sprout", "bg-yellow-600 text-white")
    else Badge("🌱 Seedling", "bg-gray-600 text-white")
  }

  /** The corrected badge agrees with the as-written lookup exactly off the `Object.prototype` names. */
  lemma TierBadgeMatchesLookup(tier: string)
    ensures TierBadgeAsWritten(tier) == Own(TierBadge(tier)) <==> tier !in ObjectPrototypeKeys
  {
  }

  /** Two reputations get the same badge exactly when they fall in the same tier. */
  lemma TierBadgeSeparatesTiers(a: int, b: int)
    ensures TierBadge(TierFromReputation(a)) == TierBadge(TierFromReputation(b))
        <==> TierRank(TierFromReputation(a)) == TierRank(TierFromReputation(b))
  {
  }

  // ---------------------------------------------------------------------------
  // Avatars

  const DefaultAvatar := "🤖"

  /** The `avatars` object literal of `getAvatarForSpecialty`. */
  const SpecialtyAvatars: map<string, string> := map[
    "coding" := "💻",
    "research" := "🔬",
    "writing" := "✍️",
    "design" := "🎨",
    "debug" := "🐛",
    "build" := "🏗️",
    "review" := "👀",
    "api" := "🔌"
  ]

  /** `specialty?.toLowerCase() || ""`: the key looked up for an optional specialty. */
  function AvatarKey(specialty: Option<string>): string {
    if specialty.Some? then ToLower(specialty.value) else ""
  }

  /**
   * `avatars[key] || "🤖"` as written: a specialty that lower-cases to a member of
   * `Object.prototype` ("constructor", "__proto__") finds that member instead of the robot.
   */
  function AvatarAsWritten(specialty: Option<string>): (p: Property<string>)
    ensures !p.Undefined?
  {
    match RecordGet(SpecialtyAvatars, AvatarKey(specialty))
    case Own(avatar) => Own(avatar)
    case Inherited(member) => Inherited(member)
    case Undefined => Own(DefaultAvatar)
  }

  /** The as-written lookup returns `Object`, not an emoji, for the specialty "Constructor". */
  lemma AvatarAsWrittenConstructor()
    ensures AvatarAsWritten(Some("Constructor")) == Inherited("constructor")
  {
    assert AvatarKey(Some("Constructor")) == "constructor";
  }

  /**
   * `getAvatarForSpecialty`: the emoji of the eight listed specialties, matched without
   * regard to case, and the robot for an absent or any other specialty.
   */
  function AvatarForSpecialty(specialty: Option<string>): (avatar: string)
    ensures AvatarKey(specialty) in SpecialtyAvatars ==> avatar == SpecialtyAvatars[AvatarKey(specialty)]
    ensures avatar == DefaultAvatar <==> AvatarKey(specialty) !in SpecialtyAvatars
  {
    var key := AvatarKey(specialty);
    if key == "coding" then "💻"
    else if key == "research" then "🔬"
    else if key == "writing" then "✍️"
    else if key == "design" then "🎨"
    else if key == "debug" then "🐛"
    else if key == "build" then "🏗️"
    else if key == "review" then "👀"
    else if key == "api" then "🔌"
    else DefaultAvatar
  }

  /** Only the letters' case is ignored: a specialty and its lower-case form share an avatar. */
  lemma AvatarIgnoresCase(specialty: string)
    ensures AvatarForSpecialty(Some(specialty)) == AvatarForSpecialty(Some(ToLower(specialty)))
  {
    ToLowerIdempotent(specialty);
  }

  /** The corrected avatar agrees with the as-written lookup exactly off the `Object.prototype` names. */
  lemma AvatarMatchesLookup(specialty: Option<string>)
    ensures AvatarAsWritten(specialty) == Own(AvatarForSpecialty(specialty))
        <==> AvatarKey(specialty) !in ObjectPrototypeKeys
  {
  }

  // ---------------------------------------------------------------------------
  // Record normalisation

  /** One agent object as the server sends it; absent JSON fields are `None`. */
  datatype RawAgent = RawAgent(
    id: string,
    name: string,
    walletAddress: Option<string>,
    reputation: Option<int>,
    jobsCompleted: Option<int>,
    totalEarnings: Option<int>,
    specialties: Option<seq<string>>,
    hourlyRate: Option<int>,
    available: Option<bool>,
    profile: Option<string>,
    description: Option<string>
  )

  /** `agent.specialties?.[0]`. */
  function FirstSpecialty(specialties: Option<seq<string>>): Option<string> {
    if specialties.Some? && |specialties.value| > 0 then Some(specialties.value[0]) else None
  }

  /**
   * What every record produced by the list mapping looks like: a non-zero reputation,
   * an address that is empty only when the id is, the tier and avatar derived from the
   * record's own reputation and first specialty, a specialties list, and no profile or
   * description.
   */
  predicate NormalForm(a: Agent) {
    && a.reputation != 0
    && (a.address != "" || a.id == "")
    && a.tier == TierFromReputation(a.reputation)
    && a.specialties.Some?
    && a.avatar == AvatarForSpecialty(FirstSpecialty(a.specialties))
    && a.profile.None?
    && a.description.None?
  }

  /** The `data.map` callback of `fetchAgents`. */
  function NormalizeAgent(raw: RawAgent): (a: Agent)
    ensures NormalForm(a)
    ensures a.id == raw.id && a.name == raw.name
    ensures TruthyString(raw.walletAddress) ==> a.address == raw.walletAddress.value
    ensures !TruthyString(raw.walletAddress) ==> a.address == raw.id
    ensures TruthyNumber(raw.reputation) ==> a.reputation == raw.reputation.value
    ensures !TruthyNumber(raw.reputation) ==> a.reputation == 50
    ensures a.jobsCompleted == raw.jobsCompleted.GetOr(0)
    ensures a.totalEarnings == raw.totalEarnings.GetOr(0)
    ensures a.specialties == Some(raw.specialties.GetOr([]))
    ensures a.hourlyRate == raw.hourlyRate && a.available == raw.available
  {
    Agent(
      id := raw.id,
      name := raw.name,
      address := StringOr(raw.walletAddress, raw.id),
      reputation := NumberOr(raw.reputation, 50),
      jobsCompleted := NumberOr(raw.jobsCompleted, 0),
      totalEarnings := NumberOr(raw.totalEarnings, 0),
      avatar := AvatarForSpecialty(FirstSpecialty(raw.specialties)),
      tier := TierFromReputation(NumberOr(raw.reputation, 50)),
      specialties := Some(if raw.specialties.Some? then raw.specialties.value else []),
      hourlyRate := raw.hourlyRate,
      available := raw.available,
      profile := None,
      description := None
    )
  }

  /** The server record that carries exactly the fields of `a`. */
  function ToRaw(a: Agent): RawAgent {
    RawAgent(
      a.id, a.name, Some(a.address), Some(a.reputation), Some(a.jobsCompleted),
      Some(a.totalEarnings), a.specialties, a.hourlyRate, a.available, a.profile, a.description)
  }

  /** Normalisation gives a record back unchanged exactly when it is already in normal form. */
  lemma NormalizeRoundTrip(a: Agent)
    ensures NormalizeAgent(ToRaw(a)) == a <==> NormalForm(a)
  {
  }

  /** Normalising a normalised record changes nothing. */
  lemma NormalizeIdempotent(raw: RawAgent)
    ensures NormalizeAgent(ToRaw(NormalizeAgent(raw))) == NormalizeAgent(raw)
  {
    NormalizeRoundTrip(NormalizeAgent(raw));
  }

  /** The avatar depends on nothing but the first specialty. */
  lemma AvatarFromFirstSpecialty(r1: RawAgent, r2: RawAgent)
    requires FirstSpecialty(r1.specialties) == FirstSpecialty(r2.specialties)
    ensures NormalizeAgent(r1).avatar == NormalizeAgent(r2).avatar
  {
  }

  /** The mapping of `fetchAgent`: the list mapping plus the profile and description. */
  function NormalizeAgentDetail(raw: RawAgent): (a: Agent)
    ensures a == NormalizeAgent(raw).(profile := raw.profile, description := raw.description)
  {
    Agent(
      id := raw.id,
      name := raw.name,
      address := StringOr(raw.walletAddress, raw.id),
      reputation := NumberOr(raw.reputation, 50),
      jobsCompleted := NumberOr(raw.jobsCompleted, 0),
      totalEarnings := NumberOr(raw.totalEarnings, 0),
      avatar := AvatarForSpecialty(FirstSpecialty(raw.specialties)),
      tier := TierFromReputation(NumberOr(raw.reputation, 50)),
      specialties := Some(if raw.specialties.Some? then raw.specialties.value else []),
      hourlyRate := raw.hourlyRate,
      available := raw.available,
      profile := raw.profile,
      description := raw.description
    )
  }

  /** The dashboard object as the server sends it. */
  datatype RawDashboard = RawDashboard(
    totalAgents: Option<int>,
    averageReputation: Option<int>,
    totalJobsCompleted: Option<int>,
    totalEarnings: Option<int>
  )

  /** The mapping of `fetchDashboard`: counts default to 0, the average reputation to 50. */
  function NormalizeDashboard(raw: RawDashboard): (stats: AgentStats)
    ensures stats.totalAgents == raw.totalAgents.GetOr(0)
    ensures stats.totalJobsCompleted == raw.totalJobsCompleted.GetOr(0)
    ensures stats.totalEarnings == raw.totalEarnings.GetOr(0)
    ensures stats.averageReputation != 0
    ensures TruthyNumber(raw.averageReputation) ==> stats.averageReputation == raw.averageReputation.value
    ensures !TruthyNumber(raw.averageReputation) ==> stats.averageReputation == 50
  {
    AgentStats(
      NumberOr(raw.totalAgents, 0),
      NumberOr(raw.averageReputation, 50),
      NumberOr(raw.totalJobsCompleted, 0),
      NumberOr(raw.totalEarnings, 0))
  }

  // ---------------------------------------------------------------------------
  // Formatting

  /**
   * `score + "/100"`: the decimal form of the score, followed by "/100". The
   * digits carry no leading zero, so (by `CanonicalDigitsUnique`) the text is the
   * only one of its form that reads back as the score.
   */
  function FormatReputation(score: int): (s: string)
    ensures |s| > 4 && s[|s| - 4..] == "/100"
    ensures var digits := s[..|s| - 4];
      && (digits[0] == '-' <==> score < 0)
      && (if digits[0] == '-' then CanonicalDigits(digits[1..]) else CanonicalDigits(digits))
      && ParseNumber(digits) == score
  {
    var digits := NumberToString(score);
    NumberToStringRoundTrip(score);
    assert (digits + "/100")[..|digits|] == digits;
    digits + "/100"
  }

  /**
   * `truncateAddress`: "" for the empty string, otherwise the first six characters,
   * "...", and the last four (which overlap the first six on addresses shorter than ten).
   */
  function TruncateAddress(address: string): (r: string)
    ensures address == "" ==> r == ""
    ensures address != "" ==> r == address[..Min(6, |address|)] + "..." + address[Max(|address| - 4, 0)..]
    ensures address != "" ==> |r| == Min(6, |address|) + 3 + Min(4, |address|)
    ensures |address| >= 10 ==> |r| == 13
  {
    if address == "" then "" else Slice(address, 0, 6) + "..." + SliceFrom(address, -4)
  }
}
