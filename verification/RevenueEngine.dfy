/** The community engine and its message handlers, each as one atomic step
    (community-service/internal/engine/engine.go and nats_handler.go). */
module RevenueEngine {
  import opened Seqs
  import opened Numbers
  import opened FraudModels
  import opened CommunityModels
  import opened CommunityStore
  import opened Rewards
  import opened RefIds

  // ---- one distribution ---------------------------------------------------------------

  /** A revenue paid out: the rows read at that moment and the active members listed. */
  datatype Payment = Payment(revId: Uuid, revenue: Revenue, community: Community, members: seq<Member>)
  {
    function Multiplier(): real { RevenueMultiplier(community.qualityScore) }

    function Owner(): real { revenue.total * (community.Percentages().0 / 100.0) * Multiplier() }

    function Pool(): real { revenue.total * (community.Percentages().1 / 100.0) * Multiplier() }

    function Platform(): real { revenue.total * (community.Percentages().2 / 100.0) * Multiplier() }

    /** Only groups pay their members. */
    predicate PaysMembers() { Pool() > 0.0 && community.kind == Group }

    function MemberPayouts(): seq<Payout> { if PaysMembers() then Payouts(members, Pool()) else [] }

    /** The messages published, in order. */
    function Block(): seq<Message> {
      BlockOf(revId, revenue.community, Owner(), Pool(), Platform(), MemberPayouts())
    }

    /** The distribution rows written. */
    function Rows(): seq<Distribution> { DistributionRows(MemberPayouts(), revId, community.id) }
  }

  function RewardOf(revId: Uuid): Payout -> Message {
    (p: Payout) => MemberReward(p.userId, p.nano, RefId(revId, p.userId))
  }

  function RewardMessages(ps: seq<Payout>, revId: Uuid): seq<Message> { Map(ps, RewardOf(revId)) }

  function BlockOf(revId: Uuid, community: Uuid, owner: real, pool: real, platform: real, ps: seq<Payout>): seq<Message> {
    (if owner > 0.0 then [OwnerIncome(community, owner)] else [])
    + RewardMessages(ps, revId)
    + (if platform > 0.0 then [Commission(platform)] else [])
    + [RevenueDistributed(revId, community, owner, pool, platform)]
  }

  function RowOf(revId: Uuid, community: Uuid): Payout -> Distribution {
    (p: Payout) => Distribution(revId, community, p.userId, p.share, p.score)
  }

  function DistributionRows(ps: seq<Payout>, revId: Uuid, community: Uuid): seq<Distribution> {
    Map(ps, RowOf(revId, community))
  }

  // ---- the state machine -----------------------------------------------------------------

  /** `payments` is a history of what was paid; nothing reads it. */
  datatype State = State(db: CommunityDb, published: seq<Message>, payments: seq<Payment>)

  function Init(mongo: bool): State { State(Empty(mongo), [], []) }

  /** A community named by its id, by its chat, or by neither. */
  datatype Ref = ById(id: Uuid) | ByChatId(chat: int) | Unparsable

  /** `campaign` is None when the field of a revenue is malformed, and when that of a
      join is empty, malformed or the nil id. `members` is the answer of the active-members query, when it is made. */
  datatype Input =
    | Register(id: Uuid, chat: int, kind: Kind, invite: Invite)
    | SetStatus(id: Uuid, status: Status)
    | ScoreUpdated(chat: int, score: int)
    | ActivityUpdated(user: int, chat: int, messages: int, replies: int, reactions: int)
    | Joined(user: int, chat: int, campaign: Option<Uuid>)
    | Left(user: int, chat: int)
    | RevenueGenerated(ref: Ref, campaign: Option<Uuid>, amount: real, validJoins: int, revId: Uuid, members: seq<Member>)
    | AdminDistribute(id: Uuid, members: seq<Member>)

  datatype Event = Event(at: int, input: Input)

  ghost function Resolve(db: CommunityDb, ref: Ref): Option<Uuid> {
    match ref
    case ById(id) => if id in db.communities then Some(id) else None
    case ByChatId(chat) => ByChat(db.communities, chat)
    case Unparsable => None
  }

  predicate Payable(db: CommunityDb, id: Uuid) {
    id in db.revenues && db.revenues[id].state == Undistributed && db.revenues[id].community in db.communities
  }

  function PaymentFor(db: CommunityDb, id: Uuid, members: seq<Member>): Payment
    requires Payable(db, id)
  {
    var r := db.revenues[id];
    var p := Payment(id, r, db.communities[r.community], []);
    if p.PaysMembers() then p.(members := members) else p
  }

  function Distribute(s: State, id: Uuid, members: seq<Member>): State {
    if !Payable(s.db, id) then s
    else
      var p := PaymentFor(s.db, id, members);
      var db := s.db.(
        revenues := s.db.revenues[id := s.db.revenues[id].(state := Distributed)],
        distributions := s.db.distributions + p.Rows());
      State(db, s.published + p.Block(), s.payments + [p])
  }

  /** The members a distribution lists are an answer to its query. */
  ghost predicate MembersOk(db: CommunityDb, id: Uuid, members: seq<Member>, now: int) {
    Payable(db, id) && PaymentFor(db, id, members).PaysMembers() ==>
      ActiveList(db, db.communities[db.revenues[id].community].chatId, now - 30 * DAY, members)
  }

  /** The community a revenue event creates a revenue row for, if any. */
  ghost function Accepts(db: CommunityDb, i: Input): Option<(Uuid, Uuid)>
    requires i.RevenueGenerated?
  {
    var c := Resolve(db, i.ref);
    if i.amount <= 0.0 || i.validJoins < 0 || c.None? || i.campaign.None? then None
    else if HasRevenue(db, i.campaign.value, c.value) || i.revId in db.revenues then None
    else Some((i.campaign.value, c.value))
  }

  ghost function WithRevenue(db: CommunityDb, i: Input): CommunityDb
    requires i.RevenueGenerated? && Accepts(db, i).Some?
  {
    var (campaign, community) := Accepts(db, i).value;
    db.(revenues := db.revenues[i.revId := Revenue(community, campaign, i.amount, i.validJoins, Undistributed)])
  }

  ghost predicate Enabled(s: State, e: Event) {
    match e.input
    case RevenueGenerated(_, _, _, _, revId, members) =>
      Accepts(s.db, e.input).Some? ==> MembersOk(WithRevenue(s.db, e.input), revId, members, e.at)
    case AdminDistribute(id, members) => MembersOk(s.db, id, members, e.at)
    case _ => true
  }

  /** The community a join counts for: registered, active, with a campaign this
      user has not entered before. */
  ghost function EffectiveJoin(db: CommunityDb, user: int, chat: int, campaign: Option<Uuid>): Option<Uuid> {
    var c := ByChat(db.communities, chat);
    if c.None? || db.communities[c.value].status != Active || campaign.None?
       || HasParticipant(db, campaign.value, user)
    then None else c
  }

  /** The community row an event that moves no money writes, if any. */
  ghost function WrittenRow(db: CommunityDb, i: Input): Option<Community> {
    var cs := db.communities;
    match i
    case Register(id, chat, kind, invite) =>
      if CanInsert(cs, id, chat, invite) then Some(NewCommunity(id, chat, kind, invite)) else None
    case SetStatus(id, status) => if id in cs then Some(cs[id].(status := status)) else None
    case ScoreUpdated(chat, score) =>
      var c := ByChat(cs, chat);
      if c.Some? then Some(cs[c.value].(qualityScore := score)) else None
    case Joined(user, chat, campaign) =>
      var c := EffectiveJoin(db, user, chat, campaign);
      if c.Some? then Some(cs[c.value].(memberCount := cs[c.value].memberCount + 1)) else None
    case Left(user, chat) =>
      var c := ByChat(cs, chat);
      if c.Some? then Some(cs[c.value].(memberCount := MaxInt(cs[c.value].memberCount - 1, 0))) else None
    case _ => None
  }

  function PutRow(cs: map<Uuid, Community>, row: Option<Community>): map<Uuid, Community> {
    if row.Some? then cs[row.value.id := row.value] else cs
  }

  /** The participant row a join that counts adds. */
  ghost function AddedParticipants(db: CommunityDb, i: Input): seq<Participant> {
    if i.Joined? && EffectiveJoin(db, i.user, i.chat, i.campaign).Some?
    then [Participant(i.campaign.value, EffectiveJoin(db, i.user, i.chat, i.campaign).value, i.user)]
    else []
  }

  /** The activity of a group's member is counted, anything else is not. */
  ghost function ActivityAfter(db: CommunityDb, i: Input, at: int): map<(int, int), Activity> {
    if i.ActivityUpdated? && ByChat(db.communities, i.chat).Some?
       && db.communities[ByChat(db.communities, i.chat).value].kind == Group
    then AddActivity(db, i.user, i.chat, i.messages, i.replies, i.reactions, at).activity
    else db.activity
  }

  ghost function ApplyDb(db: CommunityDb, e: Event): CommunityDb
    requires !e.input.RevenueGenerated? && !e.input.AdminDistribute?
  {
    db.(communities := PutRow(db.communities, WrittenRow(db, e.input)),
        participants := db.participants + AddedParticipants(db, e.input),
        activity := ActivityAfter(db, e.input, e.at))
  }

  ghost function Apply(s: State, e: Event): State {
    match e.input
    case RevenueGenerated(_, _, _, _, revId, members) =>
      if Accepts(s.db, e.input).None? then s
      else Distribute(s.(db := WithRevenue(s.db, e.input)), revId, members)
    case AdminDistribute(id, members) => Distribute(s, id, members)
    case _ => s.(db := ApplyDb(s.db, e))
  }

  lemma NextPayScored(list: seq<Scored>, i: nat, total: real, pool: real)
    requires total != 0.0 && i < |list|
    ensures var ms, before := list[i], PayScored(list[..i], total, pool);
      var share := Share(ms.score, total, pool);
      PayScored(list[..i + 1], total, pool) ==
        if share < DUST then before else before + [Payout(ms.userId, ms.score, share, Trunc(share * NANO))]
  {
    PrefixSnoc(list, i);
    PayScoredSnoc(list[..i], list[i], total, pool);
  }

  lemma PayoutSnoc(before: seq<Payout>, p: Payout, revId: Uuid, community: Uuid)
    ensures RewardMessages(before + [p], revId) == RewardMessages(before, revId) + [RewardOf(revId)(p)]
    ensures DistributionRows(before + [p], revId, community)
      == DistributionRows(before, revId, community) + [RowOf(revId, community)(p)]
  {
    MapSnoc(before, p, RewardOf(revId));
    MapSnoc(before, p, RowOf(revId, community));
  }

  /** The messages and the rows after paying the first `i` members of a list. */
  ghost predicate PaidUpTo(pub: seq<Message>, rows: seq<Distribution>, pubStart: seq<Message>, rowsStart: seq<Distribution>,
                           list: seq<Scored>, i: nat, total: real, pool: real, revId: Uuid, community: Uuid)
    requires total != 0.0 && i <= |list|
  {
    && pub == pubStart + RewardMessages(PayScored(list[..i], total, pool), revId)
    && rows == rowsStart + DistributionRows(PayScored(list[..i], total, pool), revId, community)
  }

  lemma PayNext(pub: seq<Message>, rows: seq<Distribution>, pubStart: seq<Message>, rowsStart: seq<Distribution>,
                list: seq<Scored>, i: nat, total: real, pool: real, revId: Uuid, community: Uuid)
    requires total != 0.0 && i < |list|
    requires PaidUpTo(pub, rows, pubStart, rowsStart, list, i, total, pool, revId, community)
    ensures var ms := list[i];
      var share := Share(ms.score, total, pool);
      var p := Payout(ms.userId, ms.score, share, Trunc(share * NANO));
      if share < DUST then PaidUpTo(pub, rows, pubStart, rowsStart, list, i + 1, total, pool, revId, community)
      else PaidUpTo(pub + [RewardOf(revId)(p)], rows + [RowOf(revId, community)(p)], pubStart, rowsStart,
                    list, i + 1, total, pool, revId, community)
  {
    var ms, before := list[i], PayScored(list[..i], total, pool);
    var share := Share(ms.score, total, pool);
    var p := Payout(ms.userId, ms.score, share, Trunc(share * NANO));
    NextPayScored(list, i, total, pool);
    if share >= DUST {
      PayoutSnoc(before, p, revId, community);
      ConcatAssoc(pubStart, RewardMessages(before, revId), [RewardOf(revId)(p)]);
      ConcatAssoc(rowsStart, DistributionRows(before, revId, community), [RowOf(revId, community)(p)]);
    }
  }

  lemma AppendFour<T>(s: seq<T>, a: seq<T>, b: seq<T>, c: seq<T>, d: seq<T>)
    ensures s + a + b + c + d == s + (a + b + c + d)
  {
  }

  // ---- the engine ---------------------------------------------------------------------------

  datatype DistributeResult = Ok | RevenueNotFound | CommunityNotFound

  class Engine {
    const store: Store
    var published: seq<Message>
    ghost var payments: seq<Payment>

    ghost predicate Valid()
      reads this, store
    {
      store.Valid()
    }

    ghost function Now(): State
      reads this, store
    {
      State(store.Db(), published, payments)
    }

    constructor (mongo: bool)
      ensures Valid() && fresh(store) && Now() == Init(mongo)
    {
      store := new Store(mongo);
      published, payments := [], [];
    }

    method RegisterCommunity(id: Uuid, chat: int, kind: Kind, invite: Invite, now: int)
      requires Valid()
      modifies this, store
      ensures Valid() && Now() == Apply(old(Now()), Event(now, Register(id, chat, kind, invite)))
    {
      var existing := store.FindCommunityByChatID(chat);
      if existing.Some? {
        return;
      }
      var ok := store.CreateCommunity(NewCommunity(id, chat, kind, invite));
    }

    method SetCommunityStatus(id: Uuid, status: Status, now: int)
      requires Valid()
      modifies this, store
      ensures Valid() && Now() == Apply(old(Now()), Event(now, SetStatus(id, status)))
    {
      store.UpdateCommunityStatus(id, status);
    }

    method OnScoreUpdated(chat: int, score: int, now: int)
      requires Valid()
      modifies this, store
      ensures Valid() && Now() == Apply(old(Now()), Event(now, ScoreUpdated(chat, score)))
    {
      store.UpdateCommunityScore(chat, score);
    }

    method OnActivity(user: int, chat: int, messages: int, replies: int, reactions: int, now: int)
      requires Valid()
      modifies this, store
      ensures Valid() && Now() == Apply(old(Now()), Event(now, ActivityUpdated(user, chat, messages, replies, reactions)))
    {
      var c := store.FindCommunityByChatID(chat);
      if c.None? || store.communities[c.value].kind != Group {
        return;
      }
      store.UpdateMemberActivity(user, chat, messages, replies, reactions, now);
    }

    method HandleJoin(user: int, chat: int, campaign: Option<Uuid>, now: int)
      requires Valid()
      modifies this, store
      ensures Valid() && Now() == Apply(old(Now()), Event(now, Joined(user, chat, campaign)))
    {
      var c := store.FindCommunityByChatID(chat);
      if c.None? || store.communities[c.value].status != Active || campaign.None? {
        return;
      }
      var existing := store.FindParticipant(campaign.value, user);
      if existing {
        return;
      }
      store.RecordParticipant(Participant(campaign.value, c.value, user));
      store.IncrementMemberCount(c.value);
    }

    method HandleLeave(user: int, chat: int, now: int)
      requires Valid()
      modifies this, store
      ensures Valid() && Now() == Apply(old(Now()), Event(now, Left(user, chat)))
    {
      var c := store.FindCommunityByChatID(chat);
      if c.None? {
        return;
      }
      store.DecrementMemberCount(c.value);
    }

    /** Publishes one reward and writes its distribution row. */
    method PayMember(revId: Uuid, community: Uuid, ms: Scored, share: real)
      modifies this`published, store`distributions
      ensures var p := Payout(ms.userId, ms.score, share, Trunc(share * NANO));
        && published == old(published) + [RewardOf(revId)(p)]
        && store.distributions == old(store.distributions) + [RowOf(revId, community)(p)]
    {
      published := published + [MemberReward(ms.userId, Trunc(share * NANO), RefId(revId, ms.userId))];
      store.CreateDistribution(Distribution(revId, community, ms.userId, share, ms.score));
    }

    /** The body of the paying loop: member `i` is paid unless its share is dust. */
    method PayOrSkip(revId: Uuid, community: Uuid, list: seq<Scored>, i: nat, totalScore: int, pool: real,
                     ghost pub: seq<Message>, ghost rows: seq<Distribution>)
      requires totalScore != 0 && i < |list|
      requires PaidUpTo(published, store.distributions, pub, rows, list, i, totalScore as real, pool, revId, community)
      modifies this`published, store`distributions
      ensures PaidUpTo(published, store.distributions, pub, rows, list, i + 1, totalScore as real, pool, revId, community)
    {
      var ms := list[i];
      var share := Share(ms.score, totalScore as real, pool);
      PayNext(published, store.distributions, pub, rows, list, i, totalScore as real, pool, revId, community);
      if share < DUST {
        return;
      }
      PayMember(revId, community, ms, share);
    }

    /** The paying loop: every share above the dust limit, in list order. */
    method PayScores(revId: Uuid, community: Uuid, list: seq<Scored>, totalScore: int, pool: real)
      requires totalScore != 0
      modifies this`published, store`distributions
      ensures var ps := PayScored(list, totalScore as real, pool);
        && published == old(published) + RewardMessages(ps, revId)
        && store.distributions == old(store.distributions) + DistributionRows(ps, revId, community)
    {
      ghost var pub, rows := published, store.distributions;
      for i := 0 to |list|
        invariant PaidUpTo(published, store.distributions, pub, rows, list, i, totalScore as real, pool, revId, community)
      {
        PayOrSkip(revId, community, list, i, totalScore, pool, pub, rows);
      }
      assert list[..|list|] == list;
    }

    /** Collects the positive scores of the recently active members, then pays. */
    method DistributeMemberRewards(revId: Uuid, community: Community, pool: real, now: int)
      returns (members: seq<Member>)
      modifies this`published, store`distributions
      ensures ActiveList(old(store.Db()), community.chatId, now - 30 * DAY, members)
      ensures published == old(published) + RewardMessages(Payouts(members, pool), revId)
      ensures store.distributions == old(store.distributions) + DistributionRows(Payouts(members, pool), revId, community.id)
    {
      members := store.GetActiveMembers(community.chatId, now - 30 * DAY);
      if |members| == 0 {
        assert Payouts(members, pool) == [];
        return;
      }
      var list, totalScore := CollectScores(members);
      if totalScore == 0 {
        return;
      }
      PayScoredIsPayouts(members, totalScore as real, pool);
      PayScores(revId, community.id, list, totalScore, pool);
    }

    /** Publishes the three parts and the summary of one distribution. */
    method PublishParts(id: Uuid, revCommunity: Uuid, community: Community, owner: real, pool: real, platform: real, now: int)
      returns (ghost members: seq<Member>)
      modifies this`published, store`distributions
      ensures var pays := pool > 0.0 && community.kind == Group;
        var ps := if pays then Payouts(members, pool) else [];
        && (pays ==> ActiveList(old(store.Db()), community.chatId, now - 30 * DAY, members))
        && (!pays ==> members == [])
        && published == old(published) + BlockOf(id, revCommunity, owner, pool, platform, ps)
        && store.distributions == old(store.distributions) + DistributionRows(ps, id, community.id)
    {
      members := [];
      ghost var before, ps: seq<Payout> := published, [];
      ghost var first := if owner > 0.0 then [OwnerIncome(revCommunity, owner)] else [];
      ghost var third := if platform > 0.0 then [Commission(platform)] else [];
      if owner > 0.0 {
        published := published + [OwnerIncome(revCommunity, owner)];
      }
      assert published == before + first;
      if pool > 0.0 && community.kind == Group {
        members := DistributeMemberRewards(id, community, pool, now);
        ps := Payouts(members, pool);
      }
      assert published == before + first + RewardMessages(ps, id);
      if platform > 0.0 {
        published := published + [Commission(platform)];
      }
      assert published == before + first + RewardMessages(ps, id) + third;
      published := published + [RevenueDistributed(id, revCommunity, owner, pool, platform)];
      AppendFour(before, first, RewardMessages(ps, id), third, [RevenueDistributed(id, revCommunity, owner, pool, platform)]);
    }

    /** Computes the three parts, scaled by the multiplier, and publishes them. */
    method PayParts(id: Uuid, rev: Revenue, community: Community, now: int) returns (ghost p: Payment)
      modifies this`published, store`distributions
      ensures p.revId == id && p.revenue == rev && p.community == community
      ensures p.PaysMembers() ==> ActiveList(old(store.Db()), community.chatId, now - 30 * DAY, p.members)
      ensures !p.PaysMembers() ==> p.members == []
      ensures published == old(published) + p.Block()
      ensures store.distributions == old(store.distributions) + p.Rows()
    {
      var multiplier := RevenueMultiplier(community.qualityScore);
      var (ownerPct, membersPct, platformPct) := community.Percentages();
      var ownerAmt := rev.total * (ownerPct / 100.0) * multiplier;
      var membersAmt := rev.total * (membersPct / 100.0) * multiplier;
      var platformAmt := rev.total * (platformPct / 100.0) * multiplier;
      ghost var members := PublishParts(id, rev.community, community, ownerAmt, membersAmt, platformAmt, now);
      p := Payment(id, rev, community, members);
      assert ownerAmt == p.Owner() && membersAmt == p.Pool() && platformAmt == p.Platform();
    }

    /** Pays out one pending revenue; anything else is left alone. */
    method DistributeRevenue(id: Uuid, now: int) returns (ghost members: seq<Member>, result: DistributeResult)
      requires Valid()
      modifies this, store
      ensures Valid()
      ensures MembersOk(old(store.Db()), id, members, now)
      ensures Now() == Distribute(old(Now()), id, members)
      ensures result.RevenueNotFound? <==> id !in old(store.revenues)
      ensures result.CommunityNotFound? <==>
        && id in old(store.revenues) && old(store.revenues)[id].state == Undistributed
        && old(store.revenues)[id].community !in old(store.communities)
    {
      members := [];
      if id !in store.revenues {
        return [], RevenueNotFound;
      }
      var rev := store.revenues[id];
      if rev.state != Undistributed {
        return [], Ok;
      }
      if rev.community !in store.communities {
        return [], CommunityNotFound;
      }
      var community := store.communities[rev.community];
      ghost var p := PayParts(id, rev, community, now);
      members := p.members;
      assert p == PaymentFor(old(store.Db()), id, members);
      store.MarkRevenueDistributed(id);
      payments := payments + [p];
      result := Ok;
    }

    /** A community named by id or, failing that, by chat. */
    method FindCommunity(ref: Ref) returns (comm: Option<Uuid>)
      requires Valid()
      ensures comm == Resolve(store.Db(), ref)
    {
      comm := None;
      match ref {
        case ById(id) =>
          if id in store.communities {
            comm := Some(id);
          }
        case ByChatId(chat) => comm := store.FindCommunityByChatID(chat);
        case Unparsable =>
      }
    }

    method OnRevenueGenerated(ref: Ref, campaign: Option<Uuid>, amount: real, validJoins: int, revId: Uuid, now: int)
      returns (ghost members: seq<Member>)
      requires Valid()
      modifies this, store
      ensures Valid()
      ensures Enabled(old(Now()), Event(now, RevenueGenerated(ref, campaign, amount, validJoins, revId, members)))
      ensures Now() == Apply(old(Now()), Event(now, RevenueGenerated(ref, campaign, amount, validJoins, revId, members)))
    {
      members := [];
      if amount <= 0.0 || validJoins < 0 {
        return;
      }
      var comm := FindCommunity(ref);
      if comm.None? || campaign.None? {
        return;
      }
      var duplicate := store.FindRevenueByCampaignCommunity(campaign.value, comm.value);
      if duplicate {
        return;
      }
      var created := store.CreateRevenue(revId, Revenue(comm.value, campaign.value, amount, validJoins, Undistributed));
      if !created {
        return;
      }
      var result;
      members, result := DistributeRevenue(revId, now);
    }

    /** The admin route hands any id it is given to `DistributeRevenue`. */
    method TriggerDistribute(id: Uuid, now: int) returns (ghost members: seq<Member>)
      requires Valid()
      modifies this, store
      ensures Valid()
      ensures Enabled(old(Now()), Event(now, AdminDistribute(id, members)))
      ensures Now() == Apply(old(Now()), Event(now, AdminDistribute(id, members)))
    {
      var result;
      members, result := DistributeRevenue(id, now);
    }
  }
}
