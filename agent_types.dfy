/**
 * The leaderboard's record shapes: one agent, the dashboard aggregate, and the
 * closed choices the page offers for sorting and for the time window.
 * `reputation` is a plain integer with no scale attached: the page's floor,
 * the tier thresholds and the static records each use their own.
 */
module AgentTypes {
  import opened Wrappers

  /** One leaderboard entry; the optional fields of the record type are `Option`s. */
  datatype Agent = Agent(
    id: string,
    name: string,
    address: string,
    reputation: int,
    jobsCompleted: int,
    totalEarnings: int,
    avatar: string,
    tier: string,
    specialties: Option<seq<string>>,
    hourlyRate: Option<int>,
    available: Option<bool>,
    profile: Option<string>,
    description: Option<string>
  )

  /** The dashboard aggregate. */
  datatype AgentStats = AgentStats(
    totalAgents: int,
    averageReputation: int,
    totalJobsCompleted: int,
    totalEarnings: int
  )

  /** The column a click on a table header sorts by. */
  datatype SortField = Reputation | JobsCompleted | TotalEarnings | Name

  datatype SortOrder = Asc | Desc

  /** The time-window selector: "all", "30d" or "7d". */
  datatype TimeRange = AllTime | Last30Days | Last7Days
}
