/** Who can be registered. The only route that creates a community
    (community-service/internal/api/api.go:53-95) leaves the invite hash empty, and the
    hash carries a unique index (community-service/internal/store/models.go:39-40). */
module Registration {
  import opened Seqs
  import opened CommunityModels
  import opened CommunityStore
  import opened RevenueEngine
  import opened MoneySafety

  ghost predicate InvitesUnique(cs: map<Uuid, Community>) {
    && (forall a, b :: a in cs && b in cs && cs[a].invite.link == cs[b].invite.link ==> a == b)
    && (forall a, b :: a in cs && b in cs && cs[a].invite.hash == cs[b].invite.hash ==> a == b)
  }

  /** Every row kept its invite, and a new one carries this hash. */
  ghost predicate InvitesGrow(cs: map<Uuid, Community>, ct: map<Uuid, Community>, e: Event) {
    && (forall id :: id in cs ==> id in ct && ct[id].invite == cs[id].invite)
    && (forall id :: id in ct && id !in cs ==>
          e.input.Register? && ct[id].invite == e.input.invite && InviteFree(cs, e.input.invite) && ct.Keys == cs.Keys + {id})
  }

  lemma PutGrows(cs: map<Uuid, Community>, x: Community, e: Event)
    requires RowWrite(cs, x, e.input)
    ensures InvitesGrow(cs, cs[x.id := x], e)
  {
  }

  lemma EventGrows(s: State, e: Event)
    requires KeysOk(s.db.communities)
    ensures InvitesGrow(s.db.communities, Apply(s, e).db.communities, e)
  {
    if e.input.RevenueGenerated? || e.input.AdminDistribute? {
      MoneyEventFrame(s, e);
    } else {
      var row := WrittenRow(s.db, e.input);
      if row.Some? {
        WrittenRowOk(s.db, e.input);
        PutGrows(s.db.communities, row.value, e);
      }
    }
  }

  lemma GrowthKeepsUnique(cs: map<Uuid, Community>, ct: map<Uuid, Community>, e: Event)
    requires InvitesUnique(cs) && InvitesGrow(cs, ct, e)
    ensures InvitesUnique(ct)
  {
  }

  /** In every run no two communities share an invite link or an invite hash. */
  lemma {:induction false} InvitesUniqueAfterEveryRun(mongo: bool, es: seq<Event>)
    requires ValidRun(mongo, es)
    ensures InvitesUnique(Run(mongo, es).db.communities)
  {
    if |es| > 0 {
      var s, e := Run(mongo, es[..|es| - 1]), es[|es| - 1];
      InvitesUniqueAfterEveryRun(mongo, es[..|es| - 1]);
      InvAfterEveryRun(mongo, es[..|es| - 1]);
      EventGrows(s, e);
      GrowthKeepsUnique(s.db.communities, Apply(s, e).db.communities, e);
    }
  }

  /** Every registration of the run came through the route. */
  predicate RouteOnly(es: seq<Event>) {
    forall i :: 0 <= i < |es| && es[i].input.Register? ==> es[i].input.invite.hash == ""
  }

  ghost predicate HashesEmpty(cs: map<Uuid, Community>) {
    forall id :: id in cs ==> cs[id].invite.hash == ""
  }

  lemma {:induction false} RouteLeavesHashesEmpty(mongo: bool, es: seq<Event>)
    requires ValidRun(mongo, es) && RouteOnly(es)
    ensures HashesEmpty(Run(mongo, es).db.communities)
  {
    if |es| > 0 {
      RouteLeavesHashesEmpty(mongo, es[..|es| - 1]);
      InvAfterEveryRun(mongo, es[..|es| - 1]);
      EventGrows(Run(mongo, es[..|es| - 1]), es[|es| - 1]);
    }
  }

  /** Through the route alone at most one community is ever registered. */
  lemma RouteRegistersAtMostOne(mongo: bool, es: seq<Event>, a: Uuid, b: Uuid)
    requires ValidRun(mongo, es) && RouteOnly(es)
    requires a in Run(mongo, es).db.communities && b in Run(mongo, es).db.communities
    ensures a == b
  {
    InvitesUniqueAfterEveryRun(mongo, es);
    RouteLeavesHashesEmpty(mongo, es);
  }

  lemma RegisterChangesIff(s: State, at: int, id: Uuid, chat: int, kind: Kind, invite: Invite)
    ensures Apply(s, Event(at, Register(id, chat, kind, invite))) != s <==> CanInsert(s.db.communities, id, chat, invite)
  {
    var t := Apply(s, Event(at, Register(id, chat, kind, invite)));
    if CanInsert(s.db.communities, id, chat, invite) {
      assert id in t.db.communities && id !in s.db.communities;
    } else {
      assert s.db.participants + [] == s.db.participants;
    }
  }

  lemma EmptyHashFreeIff(cs: map<Uuid, Community>, id: Uuid, chat: int, link: string)
    requires HashesEmpty(cs)
    ensures CanInsert(cs, id, chat, Invite(link, "")) <==> cs == map[]
  {
    if cs != map[] {
      var other :| other in cs;
      assert !InviteFree(cs, Invite(link, ""));
    }
  }

  /** In such a run a registration takes effect if and only if it is the first one. */
  lemma RouteRegistrationIff(mongo: bool, es: seq<Event>, at: int, id: Uuid, chat: int, kind: Kind, link: string)
    requires ValidRun(mongo, es) && RouteOnly(es)
    ensures var s := Run(mongo, es);
      Apply(s, Event(at, Register(id, chat, kind, Invite(link, "")))) != s <==> s.db.communities == map[]
  {
    RouteLeavesHashesEmpty(mongo, es);
    EmptyHashFreeIff(Run(mongo, es).db.communities, id, chat, link);
    RegisterChangesIff(Run(mongo, es), at, id, chat, kind, Invite(link, ""));
  }
}
