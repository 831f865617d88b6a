/** The store of the community service (community-service/internal/store/store.go):
    SQL tables keyed by id, plus the activity documents when a document store is
    configured. */
module CommunityStore {
  import opened Seqs
  import opened Numbers
  import opened CommunityModels

  datatype CommunityDb = CommunityDb(
    mongo: bool,
    communities: map<Uuid, Community>,
    participants: seq<Participant>,
    revenues: map<Uuid, Revenue>,
    distributions: seq<Distribution>,
    activity: map<(int, int), Activity>)

  function Empty(mongo: bool): CommunityDb { CommunityDb(mongo, map[], [], map[], [], map[]) }

  /** Primary key and unique chat id. */
  ghost predicate KeysOk(cs: map<Uuid, Community>) {
    && (forall id :: id in cs ==> cs[id].id == id)
    && (forall a, b :: a in cs && b in cs && cs[a].chatId == cs[b].chatId ==> a == b)
  }

  ghost function ByChat(cs: map<Uuid, Community>, chat: int): Option<Uuid> {
    if exists id :: id in cs && cs[id].chatId == chat then
      var id :| id in cs && cs[id].chatId == chat;
      Some(id)
    else None
  }

  lemma ByChatIs(cs: map<Uuid, Community>, id: Uuid)
    requires KeysOk(cs) && id in cs
    ensures ByChat(cs, cs[id].chatId) == Some(id)
  {
  }

  // ---- single store calls ---------------------------------------------------------

  function PutCommunity(db: CommunityDb, c: Community): CommunityDb {
    db.(communities := db.communities[c.id := c])
  }

  function NewCommunity(id: Uuid, chat: int, kind: Kind, invite: Invite): Community {
    Community(id, chat, kind, invite, Pending, 0.0, 0.0, 0.0, 0, 50)
  }

  /** Neither the invite link nor the invite hash is taken. */
  ghost predicate InviteFree(cs: map<Uuid, Community>, invite: Invite) {
    forall id :: id in cs ==> cs[id].invite.link != invite.link && cs[id].invite.hash != invite.hash
  }

  /** No unique index stands in the way of inserting this row. */
  ghost predicate CanInsert(cs: map<Uuid, Community>, id: Uuid, chat: int, invite: Invite) {
    id !in cs && ByChat(cs, chat).None? && InviteFree(cs, invite)
  }

  ghost function SetScore(db: CommunityDb, chat: int, score: int): CommunityDb {
    match ByChat(db.communities, chat)
    case None => db
    case Some(id) => PutCommunity(db, db.communities[id].(qualityScore := score))
  }

  predicate HasParticipant(db: CommunityDb, campaign: Uuid, user: int) {
    exists i :: 0 <= i < |db.participants| && db.participants[i].campaign == campaign && db.participants[i].userId == user
  }

  predicate HasRevenue(db: CommunityDb, campaign: Uuid, community: Uuid) {
    exists id :: id in db.revenues && db.revenues[id].campaign == campaign && db.revenues[id].community == community
  }

  function AddActivity(db: CommunityDb, user: int, chat: int, messages: int, replies: int, reactions: int, now: int): CommunityDb {
    if !db.mongo then db
    else
      var a := if (user, chat) in db.activity then db.activity[(user, chat)] else Activity(0, 0, 0, 0, now);
      db.(activity := db.activity[(user, chat) := a.(
        messages := a.messages + messages, replies := a.replies + replies,
        reactions := a.reactions + reactions, updatedAt := now)])
  }

  /** `list` is an answer to the active-members query: every recent row of the chat,
      once, in some order (no row has the field the query sorts by). */
  ghost predicate ActiveList(db: CommunityDb, chat: int, since: int, list: seq<Member>) {
    if !db.mongo then list == []
    else
      && (forall i :: 0 <= i < |list| ==> InActive(db, chat, since, list[i]))
      && (forall i, j :: 0 <= i < j < |list| ==> list[i].userId != list[j].userId)
      && (forall u :: (u, chat) in db.activity && db.activity[(u, chat)].updatedAt >= since ==>
            Member(u, db.activity[(u, chat)]) in list)
  }

  predicate InActive(db: CommunityDb, chat: int, since: int, m: Member) {
    (m.userId, chat) in db.activity && db.activity[(m.userId, chat)] == m.activity && m.activity.updatedAt >= since
  }

  // ---- the store --------------------------------------------------------------------

  class Store {
    const mongo: bool
    var communities: map<Uuid, Community>
    var participants: seq<Participant>
    var revenues: map<Uuid, Revenue>
    var distributions: seq<Distribution>
    var activity: map<(int, int), Activity>

    ghost function Db(): CommunityDb
      reads this
    {
      CommunityDb(mongo, communities, participants, revenues, distributions, activity)
    }

    ghost predicate Valid()
      reads this
    {
      KeysOk(communities)
    }

    constructor (mongo: bool)
      ensures Valid() && Db() == Empty(mongo)
    {
      this.mongo := mongo;
      communities, participants, revenues, distributions, activity := map[], [], map[], [], map[];
    }

    method FindCommunityByChatID(chat: int) returns (id: Option<Uuid>)
      requires Valid()
      ensures id == ByChat(communities, chat)
      ensures id.Some? ==> id.value in communities && communities[id.value].chatId == chat
    {
      if i :| i in communities && communities[i].chatId == chat {
        ByChatIs(communities, i);
        id := Some(i);
      } else {
        id := None;
      }
    }

    /** Fails when the primary key, the chat id, the invite link or the invite hash is taken. */
    method CreateCommunity(c: Community) returns (ok: bool)
      requires Valid()
      modifies this
      ensures Valid()
      ensures ok <==> CanInsert(old(communities), c.id, c.chatId, c.invite)
      ensures Db() == if ok then PutCommunity(old(Db()), c) else old(Db())
    {
      var existing := FindCommunityByChatID(c.chatId);
      ok := c.id !in communities && existing.None? && forall id :: id in communities ==>
        communities[id].invite.link != c.invite.link && communities[id].invite.hash != c.invite.hash;
      if ok {
        communities := communities[c.id := c];
      }
    }

    method UpdateCommunityScore(chat: int, score: int)
      requires Valid()
      modifies this
      ensures Valid() && Db() == SetScore(old(Db()), chat, score)
    {
      var id := FindCommunityByChatID(chat);
      if id.Some? {
        communities := communities[id.value := communities[id.value].(qualityScore := score)];
      }
    }

    method UpdateCommunityStatus(id: Uuid, status: Status)
      requires Valid()
      modifies this
      ensures Valid()
      ensures Db() == if id in old(communities) then PutCommunity(old(Db()), old(communities)[id].(status := status)) else old(Db())
    {
      if id in communities {
        communities := communities[id := communities[id].(status := status)];
      }
    }

    method IncrementMemberCount(id: Uuid)
      requires Valid() && id in communities
      modifies this
      ensures Valid()
      ensures var c := old(communities)[id];
        Db() == PutCommunity(old(Db()), c.(memberCount := c.memberCount + 1))
    {
      communities := communities[id := communities[id].(memberCount := communities[id].memberCount + 1)];
    }

    /** `GREATEST(member_count - 1, 0)`. */
    method DecrementMemberCount(id: Uuid)
      requires Valid() && id in communities
      modifies this
      ensures Valid()
      ensures var c := old(communities)[id];
        Db() == PutCommunity(old(Db()), c.(memberCount := MaxInt(c.memberCount - 1, 0)))
    {
      communities := communities[id := communities[id].(memberCount := MaxInt(communities[id].memberCount - 1, 0))];
    }

    method FindParticipant(campaign: Uuid, user: int) returns (found: bool)
      ensures found == HasParticipant(Db(), campaign, user)
    {
      found := exists i :: 0 <= i < |participants| && participants[i].campaign == campaign && participants[i].userId == user;
    }

    method RecordParticipant(p: Participant)
      modifies this`participants
      ensures participants == old(participants) + [p]
    {
      participants := participants + [p];
    }

    method FindRevenueByCampaignCommunity(campaign: Uuid, community: Uuid) returns (found: bool)
      ensures found == HasRevenue(Db(), campaign, community)
    {
      found := exists id :: id in revenues && revenues[id].campaign == campaign && revenues[id].community == community;
    }

    /** Fails when the primary key is taken. */
    method CreateRevenue(id: Uuid, r: Revenue) returns (ok: bool)
      modifies this`revenues
      ensures ok <==> id !in old(revenues)
      ensures revenues == if ok then old(revenues)[id := r] else old(revenues)
    {
      ok := id !in revenues;
      if ok {
        revenues := revenues[id := r];
      }
    }

    method MarkRevenueDistributed(id: Uuid)
      requires id in revenues
      modifies this`revenues
      ensures revenues == old(revenues)[id := old(revenues)[id].(state := Distributed)]
    {
      revenues := revenues[id := revenues[id].(state := Distributed)];
    }

    method CreateDistribution(d: Distribution)
      modifies this`distributions
      ensures distributions == old(distributions) + [d]
    {
      distributions := distributions + [d];
    }

    method UpdateMemberActivity(user: int, chat: int, messages: int, replies: int, reactions: int, now: int)
      modifies this`activity
      ensures Db() == AddActivity(old(Db()), user, chat, messages, replies, reactions, now)
    {
      if !mongo {
        return;
      }
      var a := if (user, chat) in activity then activity[(user, chat)] else Activity(0, 0, 0, 0, now);
      activity := activity[(user, chat) := a.(
        messages := a.messages + messages, replies := a.replies + replies,
        reactions := a.reactions + reactions, updatedAt := now)];
    }

    method GetActiveMembers(chat: int, since: int) returns (list: seq<Member>)
      ensures ActiveList(Db(), chat, since, list)
    {
      list := [];
      if !mongo {
        return;
      }
      var todo := set k | k in activity && k.1 == chat && activity[k].updatedAt >= since;
      while todo != {}
        invariant forall i :: 0 <= i < |list| ==> InActive(Db(), chat, since, list[i])
        invariant forall k :: k in todo ==> k in activity && k.1 == chat && activity[k].updatedAt >= since
        invariant forall i :: 0 <= i < |list| ==> (list[i].userId, chat) !in todo
        invariant forall i, j :: 0 <= i < j < |list| ==> list[i].userId != list[j].userId
        invariant forall u :: (u, chat) in activity && activity[(u, chat)].updatedAt >= since ==>
          (u, chat) in todo || Member(u, activity[(u, chat)]) in list
        decreases |todo|
      {
        var k :| k in todo;
        assert k == (k.0, chat);
        list := list + [Member(k.0, activity[k])];
        todo := todo - {k};
      }
    }
  }
}
