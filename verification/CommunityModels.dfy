/** Rows of the community service (community-service/internal/store/models.go and
    the activity documents of store.go) and the messages its engine publishes. */
module CommunityModels {
  import opened Seqs
  import opened Numbers
  import opened FraudModels

  /** A UUID in its canonical text form, always 36 characters. */
  type Uuid = s: string | |s| == 36 witness seq(36, i => '0')

  datatype Kind = Group | Channel | Other

  datatype Status = Pending | Active | Suspended | Rejected

  /** Both parts carry a unique index of their own. */
  datatype Invite = Invite(link: string, hash: string)

  datatype Community = Community(
    id: Uuid,
    chatId: int,
    kind: Kind,
    invite: Invite,
    status: Status,
    ownerPercent: real,
    membersPercent: real,
    platformPercent: real,
    memberCount: int,
    qualityScore: int)
  {
    /** Owner, members and platform percentages; a custom split replaces the
        default of the kind as soon as its owner part is positive. */
    function Percentages(): (real, real, real) {
      if ownerPercent > 0.0 then (ownerPercent, membersPercent, platformPercent)
      else match kind
        case Group => (50.0, 40.0, 10.0)
        case Channel => (90.0, 0.0, 10.0)
        case Other => (80.0, 0.0, 20.0)
    }
  }

  datatype Participant = Participant(campaign: Uuid, community: Uuid, userId: int)

  datatype RevenueState = Undistributed | Distributed

  datatype Revenue = Revenue(community: Uuid, campaign: Uuid, total: real, validJoins: int, state: RevenueState)

  datatype Distribution = Distribution(revenue: Uuid, community: Uuid, userId: int, amount: real, activityScore: int)

  /** `activeDays` is read by the score and written by no path. */
  datatype Activity = Activity(messages: int, replies: int, reactions: int, activeDays: int, updatedAt: int)
  {
    function Score(): int {
      var s := MinInt(messages * 2, 40) + MinInt(replies * 3, 30) + MinInt(reactions, 15) + MinInt(activeDays * 5, 15);
      if s > 100 then 100 else s
    }
  }

  datatype Member = Member(userId: int, activity: Activity)

  /** The three `earning.created` messages and `community.revenue.distributed`. */
  datatype Message =
    | OwnerIncome(community: Uuid, amount: real)
    | MemberReward(userId: int, nano: int, refId: string)
    | Commission(amount: real)
    | RevenueDistributed(revenue: Uuid, community: Uuid, owner: real, members: real, platform: real)
  {
    /** TON this message pays out. */
    function Ton(): real {
      match this
      case OwnerIncome(_, amount) => amount
      case MemberReward(_, nano, _) => nano as real / 1_000_000_000.0
      case Commission(amount) => amount
      case RevenueDistributed(_, _, _, _, _) => 0.0
    }
  }

  function TonOf(): Message -> real { (m: Message) => m.Ton() }

  function TotalTon(ms: seq<Message>): real { Sum(ms, TonOf()) }
}
