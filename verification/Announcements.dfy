/** What the fraud engine announces against what it stores: every detected loop and
    every computed user score goes out once, except for the admin route. */
module Announcements {
  import opened Seqs
  import opened FraudModels
  import opened FraudStore
  import opened Processor
  import US = UserScorer

  function IsLoop(): Notice -> bool { (n: Notice) => n.FraudDetected? }

  function IsScore(): Notice -> bool { (n: Notice) => n.UserScoreUpdated? }

  function LoopNotice(): FraudEvent -> Notice { (f: FraudEvent) => FraudDetected(f.userId, f.communityId) }

  function SnapshotNotice(): UserSnapshot -> Notice {
    (s: UserSnapshot) => UserScoreUpdated(s.userId, s.score, s.breakdown)
  }

  function ByAdmin(): Event -> bool { (e: Event) => e.input.AdminRecalcUser? }

  /** The loops and the user snapshots one event stores. */
  function LoopsOf(db: FraudDb, e: Event): seq<FraudEvent> {
    if !e.input.Join? then []
    else
      var (u, c, joined) := (e.input.u, e.input.c, JoinDb(db, e.input.u, e.input.c, e.at));
      if Loops(joined, u, c, e.at) then [JoinLeaveLoop(u, c, RecentJoins(joined, u, c, e.at), e.at)] else []
  }

  function SnapshotsOf(db: FraudDb, e: Event): seq<UserSnapshot>
    requires e.input.Leave? ==> ValidChoice(db.memberships, e.input.u, e.input.c, e.input.choice)
  {
    if RescoredUser(db, e.input).None? then []
    else
      var own := OwnPart(db, e);
      [UserSnapshot(e.input.u, US.UserScore(own, e.input.u, e.at), US.UserBreakdown(own, e.input.u, e.at), e.at)]
  }

  lemma OwnPartStores(db: FraudDb, e: Event)
    requires e.input.Leave? ==> ValidChoice(db.memberships, e.input.u, e.input.c, e.input.choice)
    ensures OwnPart(db, e).fraudEvents == db.fraudEvents + LoopsOf(db, e)
    ensures OwnPart(db, e).userScores == db.userScores
  {
  }

  lemma RescoreStores(db: FraudDb, user: Option<int>, community: Option<int>, now: int)
    ensures Rescore(db, user, community, now).userScores == db.userScores +
      (if user.Some? then [UserSnapshot(user.value, US.UserScore(db, user.value, now), US.UserBreakdown(db, user.value, now), now)]
       else [])
  {
  }

  lemma EventStores(db: FraudDb, e: Event)
    requires e.input.Leave? ==> ValidChoice(db.memberships, e.input.u, e.input.c, e.input.choice)
    ensures ApplyDb(db, e).fraudEvents == db.fraudEvents + LoopsOf(db, e)
    ensures ApplyDb(db, e).userScores == db.userScores + SnapshotsOf(db, e)
  {
    OwnPartStores(db, e);
    RescoreStores(OwnPart(db, e), RescoredUser(db, e.input), RescoredCommunity(e.input), e.at);
    RescoreKeeps(OwnPart(db, e), RescoredUser(db, e.input), RescoredCommunity(e.input), e.at);
  }

  lemma {:induction false} FilterAll<T>(s: seq<T>, p: T -> bool)
    requires forall k :: 0 <= k < |s| ==> p(s[k])
    ensures Filter(s, p) == s
  {
    if |s| > 0 {
      FilterAll(s[..|s| - 1], p);
      HeadAndLast(s);
    }
  }

  lemma {:induction false} FilterNone<T>(s: seq<T>, p: T -> bool)
    requires forall k :: 0 <= k < |s| ==> !p(s[k])
    ensures Filter(s, p) == []
  {
    if |s| > 0 {
      FilterNone(s[..|s| - 1], p);
    }
  }

  lemma TwoKinds(loops: seq<Notice>, scores: seq<Notice>)
    requires (forall k :: 0 <= k < |loops| ==> loops[k].FraudDetected?)
    requires (forall k :: 0 <= k < |scores| ==> scores[k].UserScoreUpdated?)
    ensures Filter(loops + scores, IsLoop()) == loops && Filter(loops + scores, IsScore()) == scores
  {
    FilterConcat(loops, scores, IsLoop());
    FilterConcat(loops, scores, IsScore());
    FilterAll(loops, IsLoop());
    FilterNone(scores, IsLoop());
    FilterNone(loops, IsScore());
    FilterAll(scores, IsScore());
  }

  lemma MapOne<T, U>(s: seq<T>, f: T -> U)
    requires |s| <= 1
    ensures Map(s, f) == if |s| == 0 then [] else [f(s[0])]
  {
  }

  lemma LoopNoticesAre(db: FraudDb, e: Event)
    ensures LoopNotices(db, e) == Map(LoopsOf(db, e), LoopNotice())
    ensures forall k :: 0 <= k < |LoopNotices(db, e)| ==> LoopNotices(db, e)[k].FraudDetected?
  {
    MapOne(LoopsOf(db, e), LoopNotice());
  }

  lemma ScoreNoticesAre(db: FraudDb, e: Event)
    requires e.input.Leave? ==> ValidChoice(db.memberships, e.input.u, e.input.c, e.input.choice)
    ensures ScoreNotices(db, e) == if e.input.AdminRecalcUser? then [] else Map(SnapshotsOf(db, e), SnapshotNotice())
    ensures forall k :: 0 <= k < |ScoreNotices(db, e)| ==> ScoreNotices(db, e)[k].UserScoreUpdated?
  {
    MapOne(SnapshotsOf(db, e), SnapshotNotice());
  }

  lemma EventAnnounces(db: FraudDb, e: Event)
    requires e.input.Leave? ==> ValidChoice(db.memberships, e.input.u, e.input.c, e.input.choice)
    ensures Filter(Notices(db, e), IsLoop()) == Map(LoopsOf(db, e), LoopNotice())
    ensures Filter(Notices(db, e), IsScore()) == if e.input.AdminRecalcUser? then [] else Map(SnapshotsOf(db, e), SnapshotNotice())
  {
    LoopNoticesAre(db, e);
    ScoreNoticesAre(db, e);
    TwoKinds(LoopNotices(db, e), ScoreNotices(db, e));
  }

  /** In every run the loops announced are, in order, exactly the fraud events stored. */
  lemma {:induction false} LoopsAreAnnounced(es: seq<Event>)
    requires ValidRun(es)
    ensures Filter(Run(es).notices, IsLoop()) == Map(Run(es).db.fraudEvents, LoopNotice())
  {
    if |es| > 0 {
      var e, before := es[|es| - 1], Run(es[..|es| - 1]);
      LoopsAreAnnounced(es[..|es| - 1]);
      EventStores(before.db, e);
      EventAnnounces(before.db, e);
      FilterConcat(before.notices, Notices(before.db, e), IsLoop());
      MapConcat(before.db.fraudEvents, LoopsOf(before.db, e), LoopNotice());
    }
  }

  lemma ScoresStep(notices: seq<Notice>, added: seq<Notice>, snaps: seq<UserSnapshot>, more: seq<UserSnapshot>, byAdmin: bool)
    requires Filter(added, IsScore()) == if byAdmin then [] else Map(more, SnapshotNotice())
    requires byAdmin ==> |more| == 1
    ensures Count(notices + added, IsScore()) == Count(notices, IsScore()) + |more| - Bit(byAdmin)
    ensures !byAdmin && Filter(notices, IsScore()) == Map(snaps, SnapshotNotice()) ==>
      Filter(notices + added, IsScore()) == Map(snaps + more, SnapshotNotice())
  {
    FilterConcat(notices, added, IsScore());
    MapConcat(snaps, more, SnapshotNotice());
    MapAt(more, SnapshotNotice());
  }

  /** One announcement is missing per use of the admin route, and none otherwise. */
  lemma {:induction false} ScoresMissing(es: seq<Event>)
    requires ValidRun(es)
    ensures |Run(es).db.userScores| == Count(Run(es).notices, IsScore()) + Count(es, ByAdmin())
    ensures Count(es, ByAdmin()) == 0 ==> Filter(Run(es).notices, IsScore()) == Map(Run(es).db.userScores, SnapshotNotice())
  {
    if |es| > 0 {
      var e, before := es[|es| - 1], Run(es[..|es| - 1]);
      ScoresMissing(es[..|es| - 1]);
      EventStores(before.db, e);
      EventAnnounces(before.db, e);
      ScoresStep(before.notices, Notices(before.db, e), before.db.userScores, SnapshotsOf(before.db, e), e.input.AdminRecalcUser?);
    }
  }

  /** The user scores announced in a run are, in order, exactly the snapshots stored if
      and only if nobody used the admin route. */
  lemma ScoresAreAnnouncedIff(es: seq<Event>)
    requires ValidRun(es)
    ensures Filter(Run(es).notices, IsScore()) == Map(Run(es).db.userScores, SnapshotNotice())
      <==> forall i :: 0 <= i < |es| ==> !es[i].input.AdminRecalcUser?
  {
    ScoresMissing(es);
    MapAt(Run(es).db.userScores, SnapshotNotice());
    if i :| 0 <= i < |es| && es[i].input.AdminRecalcUser? {
      CountPositive(es, i, ByAdmin());
    } else {
      CountZero(es, ByAdmin());
    }
  }
}
