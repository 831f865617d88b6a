/** Documents of the fraud engine (fraud-engine/internal/store/models.go). */
module FraudModels {
  import opened Seqs

  /** Instants and durations are in nanoseconds, as in Go's time package; a
      calendar day is taken as 86400 seconds. */
  const SECOND: int := 1_000_000_000
  const DAY: int := 86_400 * SECOND

  /** Go's `int64(d.Seconds())`: whole seconds, truncated toward zero. */
  function WholeSeconds(d: int): int {
    if d >= 0 then d / 1_000_000_000 else -((-d) / 1_000_000_000)
  }

  datatype Membership = Membership(
    userId: int,
    communityId: int,
    joinedAt: int,
    leftAt: Option<int>,
    durationSec: int,
    rejoinCount: nat)
  {
    /** Length of this membership in days; a negative stored duration means "still a member". */
    function DurationDays(now: int): real {
      if durationSec < 0 then (now - joinedAt) as real / DAY as real
      else durationSec as real / 86400.0
    }
  }

  datatype Profile = Profile(
    username: string,
    hasPhoto: bool,
    isBot: bool,
    trustScore: int,
    totalJoins: int,
    totalLeaves: int,
    totalCampaigns: int,
    adCompletions: int)

  datatype Stats = Stats(memberCount: int, activeMembers: int, totalJoins: int, totalLeaves: int) {
    function AfterJoin(): Stats {
      this.(totalJoins := totalJoins + 1, memberCount := memberCount + 1)
    }

    function AfterLeave(): Stats {
      this.(totalLeaves := totalLeaves + 1, memberCount := memberCount - 1)
    }

    /** What joins and leaves keep true of every statistics document. */
    predicate Ok() {
      && memberCount == totalJoins - totalLeaves
      && totalJoins >= 1 && totalLeaves >= 0
      && activeMembers == 0
    }
  }

  datatype ActivityDay = ActivityDay(messages: int, replies: int, reactions: int, updatedAt: int)

  datatype ScoreBreakdown = ScoreBreakdown(
    membershipDuration: real,
    joinLeaveRatio: real,
    activityScore: real,
    retentionScore: real,
    diversityScore: real,
    adQualityScore: real)

  datatype CommunityBreakdown = CommunityBreakdown(
    retentionRate: real,
    activityRate: real,
    avgMemberQuality: real,
    joinLeaveRate: real,
    adConversionRate: real)

  datatype UserSnapshot = UserSnapshot(userId: int, score: int, breakdown: ScoreBreakdown, calculatedAt: int)

  datatype RevenueStatus = Normal | Monitored | PartialHold | Frozen

  datatype CommunitySnapshot = CommunitySnapshot(
    communityId: int,
    score: int,
    breakdown: CommunityBreakdown,
    calculatedAt: int,
    revenueStatus: RevenueStatus)

  /** The only kind of fraud event any path records is the join/leave loop. */
  datatype FraudEvent = JoinLeaveLoop(userId: int, communityId: int, recentJoins: nat, detectedAt: int)

  /** A `community.score.updated` message. */
  datatype ScoreMessage = ScoreMessage(
    communityId: int, score: int, revenueStatus: RevenueStatus, multiplier: real)

  /** The messages `user.score.updated` and `fraud.detected`. */
  datatype Notice =
    | UserScoreUpdated(userId: int, score: int, breakdown: ScoreBreakdown)
    | FraudDetected(userId: int, communityId: int)

  function CommunityRevenueStatus(score: int): RevenueStatus {
    if score >= 80 then Normal
    else if score >= 50 then Monitored
    else if score >= 30 then PartialHold
    else Frozen
  }

  /** The source writes this table three times: in the scorer, in the request
      handler of the processor and in the revenue engine. */
  function RevenueMultiplier(score: int): real {
    if score >= 80 then 1.0
    else if score >= 50 then 0.8
    else if score >= 30 then 0.5
    else 0.0
  }

  predicate IsUser(m: Membership, u: int) { m.userId == u }

  predicate IsKey(m: Membership, u: int, c: int) { m.userId == u && m.communityId == c }

  predicate IsOpen(m: Membership) { m.leftAt.None? }

  // The query predicates used over and over, as function values.

  function OfKey(u: int, c: int): Membership -> bool { (m: Membership) => IsKey(m, u, c) }

  function InCommunity(c: int): Membership -> bool { (m: Membership) => m.communityId == c }

  function ClosedIn(c: int): Membership -> bool { (m: Membership) => m.communityId == c && !IsOpen(m) }

  function OpenIn(c: int): Membership -> bool { (m: Membership) => m.communityId == c && IsOpen(m) }

  function OpenOnly(): Membership -> bool { (m: Membership) => IsOpen(m) }

  function JoinedSince(u: int, since: int): Membership -> bool { (m: Membership) => IsUser(m, u) && m.joinedAt >= since }

  function JoinedAfter(u: int, c: int, cutoff: int): Membership -> bool {
    (m: Membership) => IsKey(m, u, c) && m.joinedAt > cutoff
  }
}
