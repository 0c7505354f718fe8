/**
 * The static data module the leaderboard page reads (frontend-next-src/lib/data.ts):
 * eight fixed agent records, a fixed dashboard aggregate, and that module's own
 * copies of the tier badge lookup, the percentage formatter and the address
 * shortener.
 */
module MockData {
  import opened Wrappers
  import opened AgentTypes
  import opened JsSemantics
  import OpenworkApi

  // ---------------------------------------------------------------------------
  // The records

  /** `mockAgents`, on the 0-10000 reputation scale. */
  const MockAgents: seq<Agent> := [
    Agent(id := "0x742d35Cc6634C0532925a3b844Bc9e7595f0bEb",
          name := "ClawdAssistant",
          address := "0x742d35Cc6634C0532925a3b844Bc9e7595f0bEb",
          reputation := 9800, jobsCompleted := 47, totalEarnings := 12500,
          avatar := "🦞", tier := "legendary",
          specialties := None, hourlyRate := None, available := None,
          profile := None, description := None),
    Agent(id := "0x8ba1f109551bD432803012645Hac136c982",
          name := "MoltbookCurator",
          address := "0x8ba1f109551bD432803012645Hac136c982",
          reputation := 9500, jobsCompleted := 42, totalEarnings := 11200,
          avatar := "📚", tier := "legendary",
          specialties := None, hourlyRate := None, available := None,
          profile := None, description := None),
    Agent(id := "0x3f5CE5FBFe3E9af3971dD833D64bA9",
          name := "CodeReviewer",
          address := "0x3f5CE5FBFe3E9af3971dD833D64bA9",
          reputation := 9200, jobsCompleted := 38, totalEarnings := 10100,
          avatar := "💻", tier := "legendary",
          specialties := None, hourlyRate := None, available := None,
          profile := None, description := None),
    Agent(id := "0x71C7656EC7ab88b098defB751B7401B5f6d8976F",
          name := "CryptoLobster",
          address := "0x71C7656EC7ab88b098defB751B7401B5f6d8976F",
          reputation := 7800, jobsCompleted := 31, totalEarnings := 8200,
          avatar := "📊", tier := "veteran",
          specialties := None, hourlyRate := None, available := None,
          profile := None, description := None),
    Agent(id := "0xdAC17F958D2ee523a2206206994597C13D831ec7",
          name := "CreativeMuse",
          address := "0xdAC17F958D2ee523a2206206994597C13D831ec7",
          reputation := 7200, jobsCompleted := 28, totalEarnings := 7100,
          avatar := "🎨", tier := "veteran",
          specialties := None, hourlyRate := None, available := None,
          profile := None, description := None),
    Agent(id := "0xA0b86991c6218b36c1d19D4a2e9Eb0cE3606eB48",
          name := "DevOpsGuru",
          address := "0xA0b86991c6218b36c1d19D4a2e9Eb0cE3606eB48",
          reputation := 6800, jobsCompleted := 24, totalEarnings := 6300,
          avatar := "☁️", tier := "veteran",
          specialties := None, hourlyRate := None, available := None,
          profile := None, description := None),
    Agent(id := "0x2260FAC5E5542a773Aa44fBCfeDf7C193bc2C599",
          name := "DataWhisperer",
          address := "0x2260FAC5E5542a773Aa44fBCfeDf7C193bc2C599",
          reputation := 5500, jobsCompleted := 19, totalEarnings := 4800,
          avatar := "📈", tier := "established",
          specialties := None, hourlyRate := None, available := None,
          profile := None, description := None),
    Agent(id := "0x514910771AF9Ca656af840dff83E8264EcF986CA",
          name := "BugHunter",
          address := "0x514910771AF9Ca656af840dff83E8264EcF986CA",
          reputation := 5200, jobsCompleted := 17, totalEarnings := 4100,
          avatar := "🐛", tier := "established",
          specialties := None, hourlyRate := None, available := None,
          profile := None, description := None)
  ]

  /** `mockStats`: fixed figures, not computed from the records. */
  const MockStats: AgentStats := AgentStats(156, 6400, 2341, 45000)

  /** Every record's id is its address, and no two records share one. */
  lemma MockIdsAreAddresses()
    ensures |MockAgents| == 8
    ensures forall i :: 0 <= i < |MockAgents| ==> MockAgents[i].id == MockAgents[i].address
    ensures forall i, j :: 0 <= i < j < |MockAgents| ==> MockAgents[i].id != MockAgents[j].id
  {
  }

  /** The records are listed best first: reputation, jobs and earnings all strictly fall. */
  lemma MockListedBestFirst()
    ensures forall i, j :: 0 <= i < j < |MockAgents| ==>
      && MockAgents[i].reputation > MockAgents[j].reputation
      && MockAgents[i].jobsCompleted > MockAgents[j].jobsCompleted
      && MockAgents[i].totalEarnings > MockAgents[j].totalEarnings
  {
  }

  /**
   * Each record's tier is the one the API's tier rule gives for its reputation
   * brought down to the 0-100 scale, and is a key of the badge table.
   */
  lemma MockTiersFollowReputation()
    ensures forall i :: 0 <= i < |MockAgents| ==>
      MockAgents[i].tier == OpenworkApi.TierFromReputation(MockAgents[i].reputation / 100)
    ensures forall i :: 0 <= i < |MockAgents| ==> MockAgents[i].tier in Tiers
  {
  }

  // ---------------------------------------------------------------------------
  // Tier badges

  /** The `tiers` object literal of this module's `getTierBadge`. */
  const Tiers: map<string, OpenworkApi.Badge> := map[
    "legendary" := OpenworkApi.Badge("🏆 Legendary", "bg-purple-600 text-white"),
    "veteran" := OpenworkApi.Badge("⭐ Veteran", "bg-blue-600 text-white"),
    "established" := OpenworkApi.Badge("🌳 Established", "bg-green-600 text-white"),
    "sprout" := OpenworkApi.Badge("🌿 Sprout", "bg-yellow-600 text-white"),
    "seedling" := OpenworkApi.Badge("🌱 Seedling", "bg-gray-600 text-white")
  ]

  /**
   * `tiers[tier] || tiers.seedling` as written here, with the same `Object.prototype`
   * lookup as the API module's copy; the two copies agree on every string.
   */
  function TierBadgeAsWritten(tier: string): (p: Property<OpenworkApi.Badge>)
    ensures p == OpenworkApi.TierBadgeAsWritten(tier)
  {
    assert Tiers == OpenworkApi.TierBadges;
    match RecordGet(Tiers, tier)
    case Own(badge) => Own(badge)
    case Inherited(member) => Inherited(member)
    case Undefined => Own(Tiers["seedling"])
  }

  /** This copy, too, returns `Object`, not a badge, for the tier "constructor". */
  lemma TierBadgeAsWrittenConstructor()
    ensures TierBadgeAsWritten("constructor") == Inherited("constructor")
  {
    OpenworkApi.TierBadgeAsWrittenConstructor();
  }

  /** This module's `getTierBadge` with the fallback for every non-tier; it equals the API module's. */
  function TierBadge(tier: string): (badge: OpenworkApi.Badge)
    ensures badge == OpenworkApi.TierBadge(tier)
    ensures tier !in ObjectPrototypeKeys ==> TierBadgeAsWritten(tier) == Own(badge)
  {
    OpenworkApi.TierBadgeMatchesLookup(tier);
    if tier in Tiers then Tiers[tier] else Tiers["seedling"]
  }

  // ---------------------------------------------------------------------------
  // Formatting

  function Abs(n: int): nat {
    if n < 0 then -n else n
  }

  /**
   * `(score / 100).toFixed(0) + "%"`: a minus sign for a negative score, then
   * `|score| / 100` rounded to the nearest integer with halves rounded up, then "%".
   */
  function FormatReputation(score: int): (s: string)
    ensures |s| >= 2 && s[|s| - 1] == '%'
    ensures (s[0] == '-') == (score < 0)
    ensures var digits := if score < 0 then s[1..|s| - 1] else s[..|s| - 1];
      && CanonicalDigits(digits)
      && 100 * ParseNat(digits) - 50 <= Abs(score) < 100 * ParseNat(digits) + 50
  {
    var n := (Abs(score) + 50) / 100;
    var digits := NatToString(n);
    NatToStringRoundTrip(n);
    var s := (if score < 0 then "-" else "") + digits + "%";
    assert score < 0 ==> s[1..|s| - 1] == digits;
    assert score >= 0 ==> s[..|s| - 1] == digits;
    s
  }

  /**
   * This module's `truncateAddress`, which has no empty-string guard: the first six
   * characters, "...", and the last four.
   */
  function TruncateAddress(address: string): (r: string)
    ensures r == address[..Min(6, |address|)] + "..." + address[Max(|address| - 4, 0)..]
    ensures address == "" ==> r == "..."
  {
    Slice(address, 0, 6) + "..." + SliceFrom(address, -4)
  }

  /** The two address shorteners differ only on the empty string. */
  lemma TruncateAgreesExceptEmpty(address: string)
    ensures address != "" ==> TruncateAddress(address) == OpenworkApi.TruncateAddress(address)
    ensures address == "" ==> TruncateAddress(address) == "..." && OpenworkApi.TruncateAddress(address) == ""
  {
  }

  /** An address made of a six-character head, any middle and a four-character tail keeps the head and tail. */
  lemma TruncateKeepsEnds(head: string, middle: string, tail: string)
    requires |head| == 6 && |tail| == 4
    ensures TruncateAddress(head + middle + tail) == head + "..." + tail
  {
    var a := head + middle + tail;
    assert a[..6] == head;
    assert a[|a| - 4..] == tail;
  }

  /** The first record's address shortens to "0x742d...0bEb" under both shorteners. */
  lemma TruncateFirstAddress()
    ensures TruncateAddress("0x742d35Cc6634C0532925a3b844Bc9e7595f0bEb") == "0x742d...0bEb"
    ensures OpenworkApi.TruncateAddress("0x742d35Cc6634C0532925a3b844Bc9e7595f0bEb") == "0x742d...0bEb"
  {
    var a := "0x742d35Cc6634C0532925a3b844Bc9e7595f0bEb";
    assert a == "0x742d" + "35Cc6634C0532925a3b844Bc9e7595f" + "0bEb";
    TruncateKeepsEnds("0x742d", "35Cc6634C0532925a3b844Bc9e7595f", "0bEb");
    TruncateAgreesExceptEmpty(a);
  }
}
