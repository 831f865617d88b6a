/** Reachable states that show the conditions of other theorems at work: runs after
    which the two services disagree, a payment of a frozen community, and a leave that
    raises a community score. */
module Divergence {
  import opened Seqs
  import opened FraudModels
  import opened FraudStore
  import opened Processor
  import opened LinkRuns
  import US = UserScorer
  import CS = CommunityScorer
  import SL = ScoreLink
  import RE = RevenueEngine
  import MS = MoneySafety
  import AR = AdminRoute
  import SA = ScoreAnswers
  import CM = CommunityModels
  import CSt = CommunityStore

  // ---- runs of the fraud engine, one nanosecond apart ---------------------------------

  lemma Extend(es: seq<Event>, e: Event)
    requires ValidRun(es) && Enabled(Run(es), e)
    ensures ValidRun(es + [e]) && Run(es + [e]) == Apply(Run(es), e)
  {
    SnocFront(es, e);
  }

  /** `n` open records of user 1 in community 7, none older than ten nanoseconds. */
  predicate Records(ms: seq<Membership>, n: nat) {
    |ms| == n && forall i :: 0 <= i < n ==>
      ms[i].userId == 1 && ms[i].communityId == 7 && 0 <= ms[i].joinedAt <= 10 && IsOpen(ms[i]) && ms[i].durationSec == -1
  }

  predicate Base(db: FraudDb, n: nat, st: Stats) {
    Records(db.memberships, n) && db.profiles == map[] && db.activity == map[] && db.stats == map[7 := st]
  }

  /** A run over community 7 without profiles, at most ten nanoseconds long. */
  predicate BaseRun(es: seq<Event>, n: nat, st: Stats) {
    && ValidRun(es) && 0 <= Run(es).clock < 10
    && if n == 0 then es == [] && st == Stats(0, 0, 0, 0) else Base(Run(es).db, n, st)
  }

  lemma JoinStep(db: FraudDb, at: int, n: nat, st: Stats)
    requires 0 <= at <= 10
    requires (n == 0 && db == EMPTY && st == Stats(0, 0, 0, 0)) || Base(db, n, st)
    ensures Base(ApplyDb(db, Event(at, Join(1, 7))), n + 1, st.AfterJoin())
  {
    var after := ApplyDb(db, Event(at, Join(1, 7)));
    RescoreKeeps(OwnPart(db, Event(at, Join(1, 7))), Some(1), Some(7), at);
    assert after.stats == CountJoin(db.stats, 7);
    assert after.memberships == JoinDb(db, 1, 7, at).memberships;
  }

  /** A leave of a user nobody has seen: only the statistics move. */
  lemma LeaveStep(db: FraudDb, at: int, n: nat, st: Stats)
    requires Base(db, n, st)
    ensures ValidChoice(db.memberships, 2, 7, NothingOpen)
    ensures var after := ApplyDb(db, Event(at, Leave(2, 7, NothingOpen)));
      Base(after, n, st.AfterLeave()) && |after.communityScores| > 0 && LastScore(after) == CS.Score(st.AfterLeave(), 50.0)
  {
    AR.NoProfilesNoTrust(db.memberships, 7);
  }

  lemma JoinPart(es: seq<Event>, n: nat, st: Stats) returns (all: seq<Event>)
    requires BaseRun(es, n, st) && Run(es).clock < 9
    ensures BaseRun(all, n + 1, st.AfterJoin()) && Run(all).clock == Run(es).clock + 1
  {
    var join := Event(Run(es).clock + 1, Join(1, 7));
    JoinStep(Run(es).db, join.at, n, st);
    Extend(es, join);
    all := es + [join];
  }

  ghost predicate LatestOf(ss: seq<CommunitySnapshot>, score: int) {
    |ss| > 0 && SL.UniqueLatest(ss, 7, |ss| - 1) && ss[|ss| - 1].score == score
  }

  /** The query for the latest score of community 7 can only return this score. */
  ghost predicate LatestIs(es: seq<Event>, score: int) {
    ValidRun(es) && LatestOf(Run(es).db.communityScores, score)
  }

  lemma NewestIsUnique(ss: seq<CommunitySnapshot>, snap: CommunitySnapshot, clock: int)
    requires SL.SnapshotsOrdered(ss, clock) && snap.communityId == 7 && clock < snap.calculatedAt
    ensures LatestOf(ss + [snap], snap.score)
  {
  }

  lemma NewestStored(db: FraudDb, e: Event, clock: int)
    requires e.input.Leave? ==> ValidChoice(db.memberships, e.input.u, e.input.c, e.input.choice)
    requires (e.input.Join? || e.input.Leave? || e.input.AdminRecalcCommunity?) && e.input.c == 7
    requires SL.SnapshotsOrdered(db.communityScores, clock) && clock < e.at
    ensures |ApplyDb(db, e).communityScores| > 0
    ensures LatestOf(ApplyDb(db, e).communityScores, LastScore(ApplyDb(db, e)))
  {
    SL.SnapshotEffect(db, e);
    NewestIsUnique(db.communityScores, ApplyDb(db, e).communityScores[|db.communityScores|], clock);
  }

  /** A snapshot stored after the clock moved on is the only latest one. */
  lemma LastIsUnique(es: seq<Event>, e: Event)
    requires ValidRun(es) && Enabled(Run(es), e) && Run(es).clock < e.at
    requires (e.input.Join? || e.input.Leave? || e.input.AdminRecalcCommunity?) && e.input.c == 7
    ensures |ApplyDb(Run(es).db, e).communityScores| > 0
    ensures LatestIs(es + [e], LastScore(ApplyDb(Run(es).db, e)))
  {
    Extend(es, e);
    SL.SnapshotsInOrder(es);
    NewestStored(Run(es).db, e, Run(es).clock);
  }

  lemma LeaveAt(es: seq<Event>, n: nat, st: Stats, at: int) returns (all: seq<Event>)
    requires BaseRun(es, n, st) && n > 0 && Run(es).clock <= at < 10
    ensures BaseRun(all, n, st.AfterLeave()) && Run(all).clock == at
    ensures all == es + [Event(at, Leave(2, 7, NothingOpen))] && SL.LastSnapshotPublished(all, 7)
    ensures SL.LastMessage(Run(all).outbox, 7) == CS.Score(st.AfterLeave(), 50.0) && SL.Mentions(Run(all).outbox, 7)
    ensures var ss, st := Run(es).db.communityScores, Run(all).db.communityScores;
      |st| == |ss| + 1 && st[..|ss|] == ss && st[|ss|].communityId == 7 && st[|ss|].calculatedAt == at
    ensures LastScore(Run(all).db) == CS.Score(st.AfterLeave(), 50.0)
  {
    var leave, news := Event(at, Leave(2, 7, NothingOpen)), ScoreNews(7, CS.Score(st.AfterLeave(), 50.0));
    LeaveStep(Run(es).db, at, n, st);
    Extend(es, leave);
    all := es + [leave];
    SL.SnapshotEffect(Run(es).db, leave);
    SL.LastMessageSnoc(Run(es).outbox, news, 7);
    SL.MentionsSnoc(Run(es).outbox, news, 7);
    assert all[|all| - 1] == leave;
  }

  lemma LeavePart(es: seq<Event>, n: nat, st: Stats) returns (all: seq<Event>)
    requires BaseRun(es, n, st) && n > 0 && Run(es).clock < 9
    ensures BaseRun(all, n, st.AfterLeave()) && Run(all).clock == Run(es).clock + 1
    ensures all == es + [Event(Run(es).clock + 1, Leave(2, 7, NothingOpen))]
    ensures LatestIs(all, CS.Score(st.AfterLeave(), 50.0)) && SL.LastSnapshotPublished(all, 7)
    ensures SL.LastMessage(Run(all).outbox, 7) == CS.Score(st.AfterLeave(), 50.0) && SL.Mentions(Run(all).outbox, 7)
  {
    var leave := Event(Run(es).clock + 1, Leave(2, 7, NothingOpen));
    all := LeaveAt(es, n, st, leave.at);
    LeaveStep(Run(es).db, leave.at, n, st);
    LastIsUnique(es, leave);
  }

  lemma KnownScores()
    ensures CS.Score(Stats(2, 0, 3, 1), 50.0) == 50 && CS.Score(Stats(2, 0, 3, 1), 28.0) == 43
    ensures CS.Score(Stats(1, 0, 2, 1), 50.0) == 45 && CS.Score(Stats(-1, 0, 1, 2), 50.0) == 0
  {
    assert CS.Total(Stats(2, 0, 3, 1), 50.0) == 50.0;
    assert CS.Total(Stats(2, 0, 3, 1), 28.0) == 43.4;
    assert CS.Total(Stats(1, 0, 2, 1), 50.0) == 45.0;
    assert CS.Total(Stats(-1, 0, 1, 2), 50.0) == -10.0;
  }

  lemma EmptyRun()
    ensures BaseRun([], 0, Stats(0, 0, 0, 0)) && Run([]).clock == 0
  {
  }

  /** One join and two stray leaves: member count -1, score 0. */
  lemma LowRun() returns (es: seq<Event>)
    ensures LatestIs(es, 0) && SL.LastSnapshotPublished(es, 7)
    ensures SL.LastMessage(Run(es).outbox, 7) == 0 && SL.Mentions(Run(es).outbox, 7)
  {
    EmptyRun();
    es := JoinPart([], 0, Stats(0, 0, 0, 0));
    es := LeavePart(es, 1, Stats(1, 0, 1, 0));
    es := LeavePart(es, 1, Stats(0, 0, 1, 1));
    KnownScores();
  }

  lemma TiedPicks(ss: seq<CommunitySnapshot>, at: int, n: nat)
    requires SL.SnapshotsOrdered(ss, at) && |ss| == n + 2
    requires ss[n].communityId == ss[n + 1].communityId == 7 && ss[n].calculatedAt == ss[n + 1].calculatedAt == at
    ensures LatestAnswer(ss, 7, Some(n)) && LatestAnswer(ss, 7, Some(n + 1))
  {
  }

  /** Two leaves at one instant leave two latest snapshots: asked twice, the fraud engine
      may answer Monitored with 0.8 and Frozen with 0. */
  lemma TiedAnswersDisagree() returns (es: seq<Event>, p: Option<int>, q: Option<int>)
    ensures ValidRun(es)
    ensures var ss := Run(es).db.communityScores;
      && LatestAnswer(ss, 7, p) && LatestAnswer(ss, 7, q)
      && SA.RequestAnswer(ss, 7, p).known && SA.RouteAnswer(ss, 7, q).known
      && SA.RequestAnswer(ss, 7, p).multiplier == 0.8 && SA.RouteAnswer(ss, 7, q).multiplier == 0.0
  {
    EmptyRun();
    var joined := JoinPart([], 0, Stats(0, 0, 0, 0));
    var n := |Run(joined).db.communityScores|;
    var once := LeaveAt(joined, 1, Stats(1, 0, 1, 0), 1);
    es := LeaveAt(once, 1, Stats(0, 0, 1, 1), 1);
    KnownScores();
    SL.SnapshotsInOrder(es);
    var ss := Run(es).db.communityScores;
    assert ss[n] == Run(once).db.communityScores[n];
    TiedPicks(ss, 1, n);
    p, q := Some(n), Some(n + 1);
  }

  // ---- a profile that lowers the average -----------------------------------------------

  lemma ShortStay(m: Membership, now: int)
    requires 0 <= m.joinedAt <= 10 && m.durationSec == -1 && 0 <= now <= 10
    ensures US.DaysAt(now)(m) <= 0.1
  {
  }

  lemma {:induction false} ShortStays(ms: seq<Membership>, n: nat, now: int)
    requires Records(ms, n) && 0 <= now <= 10
    ensures Sum(ms, US.DaysAt(now)) <= 0.1 * n as real
  {
    if n > 0 {
      ShortStays(ms[..n - 1], n - 1, now);
      ShortStay(ms[n - 1], now);
    }
  }

  lemma {:induction false} AllRecent(ms: seq<Membership>, n: nat, now: int)
    requires Records(ms, n) && 0 <= now <= 10
    ensures Filter(ms, JoinedSince(1, now - 90 * DAY)) == ms && Count(ms, OpenOnly()) == n
  {
    if n > 0 {
      AllRecent(ms[..n - 1], n - 1, now);
    }
  }

  lemma {:induction false} SameTrust(ms: seq<Membership>, profiles: map<int, Profile>, n: nat)
    requires Records(ms, n) && 1 in profiles && profiles[1].trustScore == 28
    ensures |MemberTrust(ms, profiles, 7)| == n
    ensures Sum(MemberTrust(ms, profiles, 7), AsReal()) == 28.0 * n as real
  {
    if n > 0 {
      SameTrust(ms[..n - 1], profiles, n - 1);
      SumSnoc(MemberTrust(ms[..n - 1], profiles, 7), 28, AsReal());
    }
  }

  /** A fresh, incomplete profile with three open memberships scores 28. */
  lemma FreshScore(db: FraudDb, now: int)
    requires Records(db.memberships, 3) && db.activity == map[] && 0 <= now <= 10
    requires 1 in db.profiles && db.profiles[1] == FreshProfile("", false)
    ensures US.UserScore(db, 1, now) == 28
  {
    AllRecent(db.memberships, 3, now);
    ShortStays(db.memberships, 3, now);
    assert US.Communities(db.memberships) == {7} by {
      assert db.memberships[0] in db.memberships;
    }
    assert ActivityDays(db, 1, now - 30 * DAY) == 0;
    assert US.AvgDays(db.memberships, now) < 1.0;
    var b := US.UserBreakdown(db, 1, now);
    assert b == ScoreBreakdown(0.0, 10.0, 0.0, 20.0, 3.0, 0.0);
    assert US.Total(b) == 33.0;
  }

  lemma UpdateStep(db: FraudDb, at: int, st: Stats)
    requires Base(db, 3, st) && 0 <= at <= 10
    ensures var after := ApplyDb(db, Event(at, ProfileUpdate(1, "", false, true)));
      && after.memberships == db.memberships && after.stats == db.stats
      && 1 in after.profiles && after.profiles[1].trustScore == 28
  {
    FreshScore(UpsertProfileDb(db, 1, FreshProfile("", false), true), at);
  }

  predicate Lowered(db: FraudDb) {
    && Records(db.memberships, 3) && db.stats == map[7 := Stats(2, 0, 3, 1)]
    && 1 in db.profiles && db.profiles[1].trustScore == 28
  }

  lemma RecalcStep(db: FraudDb, at: int)
    requires Lowered(db)
    ensures var after := ApplyDb(db, Event(at, AdminRecalcCommunity(7)));
      |after.communityScores| > 0 && LastScore(after) == 43
  {
    SameTrust(db.memberships, db.profiles, 3);
    assert AvgTrust(db, 7) == 28.0;
    KnownScores();
  }

  lemma UpdatePart(es: seq<Event>) returns (all: seq<Event>)
    requires BaseRun(es, 3, Stats(2, 0, 3, 1)) && Run(es).clock < 8
    ensures ValidRun(all) && Lowered(Run(all).db) && Run(all).outbox == Run(es).outbox
  {
    var update := Event(Run(es).clock + 1, ProfileUpdate(1, "", false, true));
    UpdateStep(Run(es).db, update.at, Stats(2, 0, 3, 1));
    Extend(es, update);
    all := es + [update];
  }

  lemma AdminPart(es: seq<Event>) returns (all: seq<Event>)
    requires ValidRun(es) && Lowered(Run(es).db)
    ensures LatestIs(all, 43) && !SL.LastSnapshotPublished(all, 7)
    ensures Run(all).outbox == Run(es).outbox
  {
    var admin := Event(Run(es).clock + 1, AdminRecalcCommunity(7));
    RecalcStep(Run(es).db, admin.at);
    Extend(es, admin);
    LastIsUnique(es, admin);
    all := es + [admin];
    assert all[|all| - 1] == admin;
  }

  /** Three joins, a stray leave that publishes 50, a profile update that lowers the
      average trust, and an admin recalculation that stores 43. */
  lemma AdminRun() returns (es: seq<Event>)
    ensures LatestIs(es, 43) && !SL.LastSnapshotPublished(es, 7)
    ensures SL.LastMessage(Run(es).outbox, 7) == 50 && SL.Mentions(Run(es).outbox, 7)
  {
    EmptyRun();
    es := JoinPart([], 0, Stats(0, 0, 0, 0));
    es := JoinPart(es, 1, Stats(1, 0, 1, 0));
    es := JoinPart(es, 2, Stats(2, 0, 2, 0));
    es := LeavePart(es, 3, Stats(3, 0, 3, 0));
    KnownScores();
    es := UpdatePart(es);
    es := AdminPart(es);
  }

  // ---- what the two services make of these runs -----------------------------------------

  ghost function Held(mongo: bool, steps: seq<SL.Step>, c: int): int
    requires Registered(mongo, steps, c)
  {
    var cs := SL.Db(mongo, steps).communities;
    SL.HeldScore(cs, CSt.ByChat(cs, c).value)
  }

  lemma LatestSays(steps: seq<SL.Step>, score: int) returns (k: int)
    requires LatestIs(SL.FraudTrace(steps), score)
    ensures ValidRun(SL.FraudTrace(steps))
    ensures var ss := Run(SL.FraudTrace(steps)).db.communityScores;
      SL.UniqueLatest(ss, 7, k) && ss[k].score == score
  {
    k := |Run(SL.FraudTrace(steps)).db.communityScores| - 1;
  }

  /** A community that registers after its scores went by stands at 0.8 while its latest
      snapshot, a published one, says 0. */
  lemma LateRegistrationDiverges(mongo: bool, id: CM.Uuid, kind: CM.Kind, invite: CM.Invite) returns (steps: seq<SL.Step>, k: int)
    ensures SL.Valid(mongo, steps) && SL.Delivered(steps) == |SL.Outbox(steps)| && Registered(mongo, steps, 7)
    ensures ValidRun(SL.FraudTrace(steps)) && SL.LastSnapshotPublished(SL.FraudTrace(steps), 7)
    ensures var ss := Run(SL.FraudTrace(steps)).db.communityScores;
      && SL.UniqueLatest(ss, 7, k)
      && RevenueMultiplier(ss[k].score) == 0.0 && RevenueMultiplier(Held(mongo, steps, 7)) == 0.8
  {
    var es := LowRun();
    steps := NothingHeard(mongo, es, id, 7, kind, invite);
    k := LatestSays(steps, 0);
    SL.DrainedScore(mongo, steps, 7);
  }

  /** A community registered from the start hears everything and holds the last message. */
  lemma RegisteredFromTheStart(mongo: bool, es: seq<Event>, id: CM.Uuid, kind: CM.Kind, invite: CM.Invite) returns (steps: seq<SL.Step>)
    requires ValidRun(es)
    ensures SL.Valid(mongo, steps) && SL.FraudTrace(steps) == es && Registered(mongo, steps, 7)
    ensures SL.Delivered(steps) == |SL.Outbox(steps)| && SL.Heard(mongo, steps, 7) == SL.Outbox(steps) == Run(es).outbox
    ensures Held(mongo, steps, 7) == SL.LastMessage(Run(es).outbox, 7)
    ensures SL.Db(mongo, steps).revenues == map[]
  {
    steps := EverythingHeard(mongo, es, id, 7, kind, invite);
    SL.AlwaysInStep(mongo, steps, 7);
  }

  /** A community registered from the start hears every message and stands at 0.8 while
      its latest snapshot, stored by the admin route, says 0.5. */
  lemma AdminRecalcDiverges(mongo: bool, id: CM.Uuid, kind: CM.Kind, invite: CM.Invite) returns (steps: seq<SL.Step>, k: int)
    ensures SL.Valid(mongo, steps) && SL.Delivered(steps) == |SL.Outbox(steps)| && Registered(mongo, steps, 7)
    ensures SL.Heard(mongo, steps, 7) == SL.Outbox(steps) && SL.Mentions(SL.Heard(mongo, steps, 7), 7)
    ensures ValidRun(SL.FraudTrace(steps))
    ensures var ss := Run(SL.FraudTrace(steps)).db.communityScores;
      && SL.UniqueLatest(ss, 7, k)
      && RevenueMultiplier(ss[k].score) == 0.5 && RevenueMultiplier(Held(mongo, steps, 7)) == 0.8
  {
    var es := AdminRun();
    steps := RegisteredFromTheStart(mongo, es, id, kind, invite);
    k := LatestSays(steps, 43);
  }

  // ---- a frozen payment ---------------------------------------------------------------------

  lemma AcceptFrozen(s: RE.State, e: RE.Event)
    requires MS.Inv(s) && s.db.revenues == map[] && CSt.ByChat(s.db.communities, 7).Some?
    requires SL.HeldScore(s.db.communities, CSt.ByChat(s.db.communities, 7).value) < 30
    requires e.input.RevenueGenerated? && e.input.ref == RE.ByChatId(7) && e.input.campaign.Some?
    requires e.input.amount > 0.0 && e.input.validJoins >= 0
    ensures RE.Enabled(s, e)
    ensures var ps := RE.Apply(s, e).payments;
      |ps| == |s.payments| + 1 && ps[|s.payments|].community.qualityScore < 30 && ps[|s.payments|].revId == e.input.revId
  {
    var p := RE.PaymentFor(RE.WithRevenue(s.db, e.input), e.input.revId, e.input.members);
    assert p.Multiplier() == 0.0;
    assert !p.PaysMembers();
    MS.AcceptedState(s, e);
  }

  /** Both services together reach a payment at a score below 30: the published score 0
      is delivered to a registered community, then a revenue of it is accepted. */
  lemma FrozenPaymentIsReachable(mongo: bool, id: CM.Uuid, campaign: CM.Uuid, revId: CM.Uuid, kind: CM.Kind, invite: CM.Invite)
    returns (steps: seq<SL.Step>, k: int)
    ensures SL.Valid(mongo, steps)
    ensures var ps := MS.Run(mongo, SL.ServiceTrace(steps)).payments;
      0 <= k < |ps| && ps[k].revId == revId && ps[k].community.qualityScore < 30
  {
    var es := LowRun();
    var heard := RegisteredFromTheStart(mongo, es, id, kind, invite);
    SL.ValidParts(mongo, heard);
    MS.InvAfterEveryRun(mongo, SL.ServiceTrace(heard));
    var s := MS.Run(mongo, SL.ServiceTrace(heard));
    var e := RE.Event(0, RE.RevenueGenerated(RE.ByChatId(7), Some(campaign), 1.0, 0, revId, []));
    AcceptFrozen(s, e);
    AppendService(mongo, heard, e, 7);
    RunSnoc(mongo, SL.ServiceTrace(heard), e);
    steps, k := heard + [SL.Service(e)], |s.payments|;
  }

  // ---- a leave that raises a score ------------------------------------------------------------

  lemma BaseScore(db: FraudDb, n: nat, st: Stats)
    requires Base(db, n, st)
    ensures AvgTrust(db, 7) == 50.0 && 7 in db.stats && CS.CommunityScore(db, 7) == CS.Score(st, 50.0)
  {
    AR.NoProfilesNoTrust(db.memberships, 7);
  }

  /** Two joins and a stray leave score 45; the leave that follows finds the average
      trust unchanged and raises the score to 50. */
  lemma LeaveCanRaiseScore() returns (es: seq<Event>, leave: Event)
    ensures ValidRun(es + [leave]) && ValidRun(es) && leave.input.Leave? && leave.input.c == 7
    ensures var before, after := Run(es).db, Run(es + [leave]).db;
      && AvgTrust(before, 7) == AvgTrust(after, 7)
      && CS.CommunityScore(before, 7) == 45 && CS.CommunityScore(after, 7) == 50
  {
    EmptyRun();
    es := JoinPart([], 0, Stats(0, 0, 0, 0));
    es := JoinPart(es, 1, Stats(1, 0, 1, 0));
    es := LeavePart(es, 2, Stats(2, 0, 2, 0));
    KnownScores();
    BaseScore(Run(es).db, 2, Stats(1, 0, 2, 1));
    leave := Event(Run(es).clock + 1, Leave(2, 7, NothingOpen));
    var all := LeavePart(es, 2, Stats(1, 0, 2, 1));
    BaseScore(Run(all).db, 2, Stats(0, 0, 2, 2));
  }
}
