/** What the community route of the admin needs in order to part the two services: an
    accepted profile write. The write names one field in two update operators
    (fraud-engine/internal/store/store.go:69-82), so the store may well reject all. */
module AdminRoute {
  import opened Seqs
  import opened FraudModels
  import opened FraudStore
  import opened Processor
  import CS = CommunityScorer
  import SL = ScoreLink
  import LR = LinkRuns
  import CSt = CommunityStore

  predicate ProfileWrite(i: Input) {
    (i.ProfileUpdate? || i.CampaignComplete?) && i.applied
  }

  predicate NoProfileWrite(es: seq<Event>) {
    forall k :: 0 <= k < |es| ==> !ProfileWrite(es[k].input)
  }

  lemma {:induction false} NoProfilesNoTrust(ms: seq<Membership>, c: int)
    ensures MemberTrust(ms, map[], c) == []
  {
    if |ms| > 0 {
      NoProfilesNoTrust(ms[..|ms| - 1], c);
    }
  }

  /** The score of a community whose members have no profiles. */
  function BareScore(stats: map<int, Stats>, c: int): int {
    if c in stats then CS.Score(stats[c], 50.0) else 50
  }

  lemma BareScoreIs(db: FraudDb, c: int)
    requires db.profiles == map[]
    ensures CS.CommunityScore(db, c) == BareScore(db.stats, c)
  {
    NoProfilesNoTrust(db.memberships, c);
  }

  lemma OwnPartWithoutProfiles(db: FraudDb, e: Event)
    requires e.input.Leave? ==> ValidChoice(db.memberships, e.input.u, e.input.c, e.input.choice)
    requires db.profiles == map[] && !ProfileWrite(e.input)
    ensures OwnPart(db, e).profiles == map[]
  {
  }

  lemma OwnPartStats(db: FraudDb, e: Event, c: int)
    requires e.input.Leave? ==> ValidChoice(db.memberships, e.input.u, e.input.c, e.input.choice)
    requires !((e.input.Join? || e.input.Leave?) && e.input.c == c)
    ensures BareScore(OwnPart(db, e).stats, c) == BareScore(db.stats, c)
  {
  }

  lemma RescoreBare(db: FraudDb, user: Option<int>, community: Option<int>, now: int)
    requires db.profiles == map[]
    ensures var after := Rescore(db, user, community, now);
      && after.profiles == map[]
      && (community.Some? ==>
            |after.communityScores| > 0 && LastScore(after) == BareScore(db.stats, community.value))
  {
    if community.Some? {
      var scored := if user.Some? then RecalcUserDb(db, user.value, now) else db;
      BareScoreIs(scored, community.value);
    }
  }

  /** What one event does where nobody has a profile. */
  lemma BareEvent(db: FraudDb, e: Event, c: int)
    requires e.input.Leave? ==> ValidChoice(db.memberships, e.input.u, e.input.c, e.input.choice)
    requires db.profiles == map[] && !ProfileWrite(e.input)
    ensures var after := ApplyDb(db, e);
      && after.profiles == map[]
      && (RescoredCommunity(e.input).Some? ==>
            |after.communityScores| > 0 && LastScore(after) == BareScore(after.stats, RescoredCommunity(e.input).value))
      && (!((e.input.Join? || e.input.Leave?) && e.input.c == c) ==> BareScore(after.stats, c) == BareScore(db.stats, c))
  {
    OwnPartWithoutProfiles(db, e);
    RescoreBare(OwnPart(db, e), RescoredUser(db, e.input), RescoredCommunity(e.input), e.at);
    RescoreKeeps(OwnPart(db, e), RescoredUser(db, e.input), RescoredCommunity(e.input), e.at);
    if !((e.input.Join? || e.input.Leave?) && e.input.c == c) {
      OwnPartStats(db, e, c);
    }
  }

  /** Last snapshot, last message and the counters say one and the same score. */
  predicate InAgreement(s: State, c: int) {
    && s.db.profiles == map[]
    && SL.LastSnapshot(s.db.communityScores, c) == BareScore(s.db.stats, c)
    && SL.LastMessage(s.outbox, c) == BareScore(s.db.stats, c)
  }

  lemma EventKeepsAgreement(s: State, e: Event, c: int)
    requires Enabled(s, e) && InAgreement(s, c) && !ProfileWrite(e.input)
    ensures InAgreement(Apply(s, e), c)
  {
    var after := ApplyDb(s.db, e);
    BareEvent(s.db, e, c);
    SL.SnapshotEffect(s.db, e);
    var n := |s.db.communityScores|;
    if RescoredCommunity(e.input).Some? {
      SL.LastSnapshotSnoc(s.db.communityScores, after.communityScores[n], c);
    }
    if e.input.Join? || e.input.Leave? {
      SL.LastMessageSnoc(s.outbox, ScoreNews(e.input.c, LastScore(after)), c);
    }
  }

  /** Without an accepted profile write the last message about a community always
      carries its last snapshot's score, admin recalculations included. */
  lemma {:induction false} AdminRouteIsHarmless(es: seq<Event>, c: int)
    requires ValidRun(es) && NoProfileWrite(es)
    ensures InAgreement(Run(es), c)
  {
    if |es| > 0 {
      AdminRouteIsHarmless(es[..|es| - 1], c);
      EventKeepsAgreement(Run(es[..|es| - 1]), es[|es| - 1], c);
    }
  }

  /** So a drained, registered community stands at the multiplier of its latest
      snapshot, whoever stored it, exactly when it has heard a score of its own or the
      snapshot lies in the band of the initial 50. */
  lemma AgreementWithoutProfileWrites(mongo: bool, steps: seq<SL.Step>, c: int, k: int)
    requires SL.Valid(mongo, steps) && SL.Delivered(steps) == |SL.Outbox(steps)| && LR.Registered(mongo, steps, c)
    requires ValidRun(SL.FraudTrace(steps)) && NoProfileWrite(SL.FraudTrace(steps))
    requires SL.UniqueLatest(Run(SL.FraudTrace(steps)).db.communityScores, c, k)
    ensures var snap, cs := Run(SL.FraudTrace(steps)).db.communityScores[k], SL.Db(mongo, steps).communities;
      RevenueMultiplier(SL.HeldScore(cs, CSt.ByChat(cs, c).value)) == RevenueMultiplier(snap.score)
      <==> SL.Mentions(SL.Heard(mongo, steps, c), c) || 50 <= snap.score < 80
  {
    AdminRouteIsHarmless(SL.FraudTrace(steps), c);
    SL.LatestInRun(SL.FraudTrace(steps), c, k);
    SL.MultiplierAgreesIff(mongo, steps, c, k);
  }
}
