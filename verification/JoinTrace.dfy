/** Which joins and leaves count for a community, from the events of the trace: the
    statuses set before them and the entries made before them. */
module JoinTrace {
  import opened Seqs
  import opened Numbers
  import opened CommunityModels
  import opened CommunityStore
  import opened RevenueEngine
  import opened MoneySafety
  import MC = MemberCounter

  ghost predicate Registered(mongo: bool, es: seq<Event>, id: Uuid) { id in Run(mongo, es).db.communities }

  /** The status last set since the community was registered, Pending if none was. */
  ghost function LastStatus(mongo: bool, es: seq<Event>, id: Uuid): Status {
    if |es| == 0 || !Registered(mongo, es[..|es| - 1], id) then Pending
    else
      var i := es[|es| - 1].input;
      if i.SetStatus? && i.id == id then i.status else LastStatus(mongo, es[..|es| - 1], id)
  }

  /** A join under this campaign to a community registered for the chat and active by then. */
  ghost predicate Welcomes(mongo: bool, before: seq<Event>, i: Input, campaign: Uuid, id: Uuid) {
    && i.Joined? && i.campaign == Some(campaign)
    && Registered(mongo, before, id) && Run(mongo, before).db.communities[id].chatId == i.chat
    && LastStatus(mongo, before, id) == Active
  }

  ghost predicate Entered(mongo: bool, es: seq<Event>, campaign: Uuid, user: int) {
    |es| > 0 &&
    (var rest, i := es[..|es| - 1], es[|es| - 1].input;
      || Entered(mongo, rest, campaign, user)
      || (i.Joined? && i.user == user && exists id :: Welcomes(mongo, rest, i, campaign, id)))
  }

  // ---- status -------------------------------------------------------------------------

  lemma PutStatus(cs: map<Uuid, Community>, x: Community, i: Input, id: Uuid)
    requires RowWrite(cs, x, i) && id in cs[x.id := x]
    requires x.id in cs ==> x.status == if i.SetStatus? && i.id == x.id then i.status else cs[x.id].status
    requires i.SetStatus? ==> i.id == x.id
    ensures cs[x.id := x][id].status ==
      if id !in cs then Pending else if i.SetStatus? && i.id == id then i.status else cs[id].status
  {
  }

  lemma WrittenStatus(db: CommunityDb, i: Input)
    requires KeysOk(db.communities) && WrittenRow(db, i).Some?
    ensures var x, cs := WrittenRow(db, i).value, db.communities;
      && (x.id in cs ==> x.status == if i.SetStatus? && i.id == x.id then i.status else cs[x.id].status)
      && (i.SetStatus? ==> i.id == x.id)
  {
  }

  lemma EventStatus(s: State, e: Event, id: Uuid)
    requires Inv(s) && id in Apply(s, e).db.communities
    ensures Apply(s, e).db.communities[id].status ==
      if id !in s.db.communities then Pending
      else if e.input.SetStatus? && e.input.id == id then e.input.status
      else s.db.communities[id].status
  {
    if e.input.RevenueGenerated? || e.input.AdminDistribute? {
      MoneyEventFrame(s, e);
    } else if WrittenRow(s.db, e.input).Some? {
      WrittenRowOk(s.db, e.input);
      WrittenStatus(s.db, e.input);
      PutStatus(s.db.communities, WrittenRow(s.db, e.input).value, e.input, id);
    }
  }

  /** In every run the status of a community is the last one set. */
  lemma {:induction false} StatusFromTrace(mongo: bool, es: seq<Event>, id: Uuid)
    requires ValidRun(mongo, es) && Registered(mongo, es, id)
    ensures Run(mongo, es).db.communities[id].status == LastStatus(mongo, es, id)
  {
    if |es| > 0 {
      InvAfterEveryRun(mongo, es[..|es| - 1]);
      if Registered(mongo, es[..|es| - 1], id) {
        StatusFromTrace(mongo, es[..|es| - 1], id);
      }
      EventStatus(Run(mongo, es[..|es| - 1]), es[|es| - 1], id);
    }
  }

  // ---- joins ----------------------------------------------------------------------------

  /** The community's state and the trace agree on who is welcome. */
  lemma WelcomeIs(mongo: bool, before: seq<Event>, i: Input, campaign: Uuid, id: Uuid)
    requires ValidRun(mongo, before)
    ensures var cs := Run(mongo, before).db.communities;
      Welcomes(mongo, before, i, campaign, id) <==>
        i.Joined? && i.campaign == Some(campaign) && ByChat(cs, i.chat) == Some(id) && cs[id].status == Active
  {
    InvAfterEveryRun(mongo, before);
    if Registered(mongo, before, id) {
      StatusFromTrace(mongo, before, id);
      ByChatIs(Run(mongo, before).db.communities, id);
    }
  }

  lemma AddedIs(db: CommunityDb, i: Input, campaign: Uuid, user: int)
    ensures HasParticipant(db.(participants := db.participants + AddedParticipants(db, i)), campaign, user) <==>
      || HasParticipant(db, campaign, user)
      || (i.Joined? && i.user == user && i.campaign == Some(campaign) && ByChat(db.communities, i.chat).Some?
          && db.communities[ByChat(db.communities, i.chat).value].status == Active)
  {
    var ps, added := db.participants, AddedParticipants(db, i);
    if HasParticipant(db, campaign, user) {
      var k :| 0 <= k < |ps| && ps[k].campaign == campaign && ps[k].userId == user;
      assert (ps + added)[k] == ps[k];
    }
    if added != [] {
      assert (ps + added)[|ps|] == added[0];
    }
  }

  lemma SomebodyWelcome(mongo: bool, before: seq<Event>, i: Input, campaign: Uuid)
    requires ValidRun(mongo, before)
    ensures var cs := Run(mongo, before).db.communities;
      (exists id :: Welcomes(mongo, before, i, campaign, id)) <==>
        i.Joined? && i.campaign == Some(campaign) && ByChat(cs, i.chat).Some?
        && cs[ByChat(cs, i.chat).value].status == Active
  {
    if id :| Welcomes(mongo, before, i, campaign, id) {
      WelcomeIs(mongo, before, i, campaign, id);
    }
    if i.Joined? && ByChat(Run(mongo, before).db.communities, i.chat).Some? {
      WelcomeIs(mongo, before, i, campaign, ByChat(Run(mongo, before).db.communities, i.chat).value);
    }
  }

  /** In every run a participant row exists exactly for the users and campaigns that
      entered an active community at some point of the trace. */
  lemma {:induction false} EnteredFromTrace(mongo: bool, es: seq<Event>, campaign: Uuid, user: int)
    requires ValidRun(mongo, es)
    ensures HasParticipant(Run(mongo, es).db, campaign, user) <==> Entered(mongo, es, campaign, user)
  {
    if |es| > 0 {
      var rest, e := es[..|es| - 1], es[|es| - 1];
      EnteredFromTrace(mongo, rest, campaign, user);
      MC.EventRows(Run(mongo, rest), e);
      AddedIs(Run(mongo, rest).db, e.input, campaign, user);
      SomebodyWelcome(mongo, rest, e.input, campaign);
    }
  }

  /** The join counts for this community. */
  ghost predicate Counts(mongo: bool, before: seq<Event>, i: Input, campaign: Uuid, id: Uuid) {
    Welcomes(mongo, before, i, campaign, id) && !Entered(mongo, before, campaign, i.user)
  }

  lemma CountsIs(mongo: bool, before: seq<Event>, i: Input, campaign: Uuid, id: Uuid)
    requires ValidRun(mongo, before)
    ensures Counts(mongo, before, i, campaign, id) <==>
      i.Joined? && i.campaign == Some(campaign)
      && EffectiveJoin(Run(mongo, before).db, i.user, i.chat, i.campaign) == Some(id)
  {
    WelcomeIs(mongo, before, i, campaign, id);
    if i.Joined? {
      EnteredFromTrace(mongo, before, campaign, i.user);
    }
  }

  lemma JoinedState(s: State, e: Event, id: Uuid)
    requires KeysOk(s.db.communities) && e.input.Joined?
    requires EffectiveJoin(s.db, e.input.user, e.input.chat, e.input.campaign) == Some(id)
    ensures var x := s.db.communities[id];
      Apply(s, e) == s.(db := s.db.(
        communities := s.db.communities[id := x.(memberCount := x.memberCount + 1)],
        participants := s.db.participants + [Participant(e.input.campaign.value, id, e.input.user)]))
  {
  }

  lemma IgnoredState(s: State, e: Event)
    requires e.input.Joined? && EffectiveJoin(s.db, e.input.user, e.input.chat, e.input.campaign).None?
    ensures Apply(s, e) == s
  {
    assert s.db.participants + [] == s.db.participants;
  }

  /** In every run a join does one of two things. If the chat belongs to a registered
      community whose last status is Active and the user has not entered the campaign
      before, that community gets one member more and the user one row; if not, nothing. */
  lemma JoinCountsIff(mongo: bool, es: seq<Event>)
    requires ValidRun(mongo, es) && |es| > 0 && es[|es| - 1].input.Joined?
    ensures var before, i := es[..|es| - 1], es[|es| - 1].input;
      var s, t := Run(mongo, before), Run(mongo, es);
      && (forall campaign, id :: Counts(mongo, before, i, campaign, id) ==>
            id in s.db.communities &&
            t == s.(db := s.db.(
              communities := s.db.communities[id := s.db.communities[id].(memberCount := s.db.communities[id].memberCount + 1)],
              participants := s.db.participants + [Participant(campaign, id, i.user)])))
      && ((forall campaign, id :: !Counts(mongo, before, i, campaign, id)) ==> t == s)
  {
    var before, e := es[..|es| - 1], es[|es| - 1];
    var s, i := Run(mongo, before), e.input;
    InvAfterEveryRun(mongo, before);
    var c := EffectiveJoin(s.db, i.user, i.chat, i.campaign);
    forall campaign, id | Counts(mongo, before, i, campaign, id)
      ensures c == Some(id) && i.campaign == Some(campaign)
    {
      CountsIs(mongo, before, i, campaign, id);
    }
    if c.Some? {
      JoinedState(s, e, c.value);
      CountsIs(mongo, before, i, i.campaign.value, c.value);
    } else {
      IgnoredState(s, e);
    }
  }

  // ---- leaves -----------------------------------------------------------------------------

  lemma LeftState(s: State, e: Event, id: Uuid)
    requires KeysOk(s.db.communities) && e.input.Left?
    requires id in s.db.communities && s.db.communities[id].chatId == e.input.chat
    ensures var x := s.db.communities[id];
      Apply(s, e) == s.(db := s.db.(communities :=
        s.db.communities[id := x.(memberCount := if x.memberCount > 0 then x.memberCount - 1 else 0)]))
  {
    ByChatIs(s.db.communities, id);
    assert s.db.participants + [] == s.db.participants;
  }

  ghost predicate NobodyFor(cs: map<Uuid, Community>, chat: int) {
    forall id :: id in cs ==> cs[id].chatId != chat
  }

  lemma StrangerState(s: State, e: Event)
    requires e.input.Left? && NobodyFor(s.db.communities, e.input.chat)
    ensures Apply(s, e) == s
  {
    assert s.db.participants + [] == s.db.participants;
  }

  /** In every run a leave takes one member from the community registered for its chat,
      whatever its status and whoever leaves, stopping at zero, and does nothing else. */
  lemma LeaveCounts(mongo: bool, es: seq<Event>, id: Uuid)
    requires ValidRun(mongo, es) && |es| > 0 && es[|es| - 1].input.Left?
    requires Registered(mongo, es[..|es| - 1], id)
    requires Run(mongo, es[..|es| - 1]).db.communities[id].chatId == es[|es| - 1].input.chat
    ensures var s := Run(mongo, es[..|es| - 1]);
      var x := s.db.communities[id];
      Run(mongo, es) == s.(db := s.db.(communities :=
        s.db.communities[id := x.(memberCount := if x.memberCount > 0 then x.memberCount - 1 else 0)]))
  {
    InvAfterEveryRun(mongo, es[..|es| - 1]);
    LeftState(Run(mongo, es[..|es| - 1]), es[|es| - 1], id);
  }

  /** A leave of a chat nobody registered does nothing. */
  lemma LeaveOfStranger(mongo: bool, es: seq<Event>)
    requires |es| > 0 && es[|es| - 1].input.Left?
    requires NobodyFor(Run(mongo, es[..|es| - 1]).db.communities, es[|es| - 1].input.chat)
    ensures Run(mongo, es) == Run(mongo, es[..|es| - 1])
  {
    StrangerState(Run(mongo, es[..|es| - 1]), es[|es| - 1]);
  }
}
