/** What holds in every state the fraud engine reaches when its handlers run one
    at a time, for every sequence of events and a clock that never goes back. */
module FraudRuns {
  import opened Seqs
  import opened FraudModels
  import opened FraudStore
  import opened Processor
  import US = UserScorer
  import CS = CommunityScorer
  import L = LedgerInterleaving

  // ---- atomic handlers are one of the interleavings ----------------------------

  lemma JoinCalls(db: FraudDb, ops: seq<L.Op>, clock: int, u: int, c: int, at: int)
    requires clock <= at && L.Reaches(L.START, L.Sys(db, ops, clock))
    ensures L.Reaches(L.START, L.Sys(JoinDb(db, u, c, at), ops + [L.Done], at))
  {
    var n := Count(db.memberships, OfKey(u, c));
    L.ReachStep(L.START, L.Sys(db, ops, clock), L.StartJoin(u, c, at));
    L.ReachNewest(L.START, db, ops, L.JoinCount(u, c, at), at, 0);
    L.ReachNewest(L.START, db, ops, L.JoinProfile(u, c, at, n), at, 0);
    var db1 := IncUserJoins(db, u);
    L.ReachNewest(L.START, db1, ops, L.JoinStats(u, c, at, n), at, 0);
    var db2 := db1.(stats := CountJoin(db1.stats, c));
    L.ReachNewest(L.START, db2, ops, L.JoinInsert(u, c, at, n), at, 0);
  }

  lemma LeaveCounterCalls(db: FraudDb, ops: seq<L.Op>, u: int, c: int, at: int, closed: bool)
    requires L.Reaches(L.START, L.Sys(db, ops + [L.LeaveProfile(u, c, at, closed)], at))
    ensures L.Reaches(L.START, L.Sys(IncUserLeaves(db, u).(stats := CountLeave(db.stats, c)), ops + [L.Done], at))
  {
    L.ReachNewest(L.START, db, ops, L.LeaveProfile(u, c, at, closed), at, 0);
    L.ReachNewest(L.START, IncUserLeaves(db, u), ops, L.LeaveStats(u, c, at, closed), at, 0);
  }

  lemma LeaveCalls(db: FraudDb, ops: seq<L.Op>, clock: int, u: int, c: int, at: int, choice: LeaveChoice)
    requires clock <= at && L.Reaches(L.START, L.Sys(db, ops, clock))
    requires ValidChoice(db.memberships, u, c, choice)
    ensures L.Reaches(L.START, L.Sys(LeaveDb(db, u, c, at, choice), ops + [L.Done], at))
  {
    L.ReachStep(L.START, L.Sys(db, ops, clock), L.StartLeave(u, c, at));
    match choice
    case NothingOpen =>
      L.ReachNewest(L.START, db, ops, L.LeaveFind(u, c, at), at, -1);
      LeaveCounterCalls(db, ops, u, c, at, false);
    case Picked(m, i) =>
      L.ReachNewest(L.START, db, ops, L.LeaveFind(u, c, at), at, m);
      var joinedAt := db.memberships[m].joinedAt;
      L.ReachNewest(L.START, db, ops, L.LeaveClose(u, c, at, joinedAt), at, i);
      var closed := db.(memberships := CloseAt(db.memberships, i, at, WholeSeconds(at - joinedAt)));
      LeaveCounterCalls(closed, ops, u, c, at, true);
  }

  /** The membership and statistics part of an event. */
  function LedgerPart(db: FraudDb, e: Event): FraudDb
    requires e.input.Leave? ==> ValidChoice(db.memberships, e.input.u, e.input.c, e.input.choice)
  {
    match e.input
    case Join(u, c) => JoinDb(db, u, c, e.at)
    case Leave(u, c, choice) => LeaveDb(db, u, c, e.at, choice)
    case _ => db
  }

  lemma OnlyLedgerPart(db: FraudDb, e: Event)
    requires e.input.Leave? ==> ValidChoice(db.memberships, e.input.u, e.input.c, e.input.choice)
    ensures ApplyDb(db, e).memberships == LedgerPart(db, e).memberships
    ensures ApplyDb(db, e).stats == LedgerPart(db, e).stats
  {
    RescoreKeeps(OwnPart(db, e), RescoredUser(db, e.input), RescoredCommunity(e.input), e.at);
  }

  /** The store calls of one event, one after another. */
  lemma LedgerCalls(s: L.Sys, e: Event) returns (t: L.Sys)
    requires L.Reaches(L.START, s) && L.Quiescent(s) && s.clock <= e.at
    requires e.input.Leave? ==> ValidChoice(s.db.memberships, e.input.u, e.input.c, e.input.choice)
    ensures L.Reaches(L.START, t) && L.Quiescent(t) && t.clock <= e.at
    ensures t.db == LedgerPart(s.db, e)
  {
    match e.input
    case Join(u, c) =>
      JoinCalls(s.db, s.ops, s.clock, u, c, e.at);
      t := L.Sys(JoinDb(s.db, u, c, e.at), s.ops + [L.Done], e.at);
    case Leave(u, c, choice) =>
      LeaveCalls(s.db, s.ops, s.clock, u, c, e.at, choice);
      t := L.Sys(LeaveDb(s.db, u, c, e.at, choice), s.ops + [L.Done], e.at);
    case _ => t := s;
  }

  lemma ThenOthers(s: L.Sys, db: FraudDb)
    requires L.Reaches(L.START, s) && db.memberships == s.db.memberships && db.stats == s.db.stats
    ensures L.Reaches(L.START, s.(db := db))
  {
    L.ReachStep(L.START, s, L.OtherHandler(db));
  }

  lemma EventCalls(s: L.Sys, before: State, e: Event) returns (t: L.Sys)
    requires L.Reaches(L.START, s) && L.Quiescent(s) && s.db == before.db && s.clock <= before.clock && Enabled(before, e)
    ensures L.Reaches(L.START, t) && L.Quiescent(t) && t.db == Apply(before, e).db && t.clock <= e.at
  {
    t := LedgerCalls(s, e);
    OnlyLedgerPart(before.db, e);
    ThenOthers(t, ApplyDb(before.db, e));
    t := t.(db := ApplyDb(before.db, e));
  }

  /** Handlers run one at a time produce only states the interleaving model also
      reaches, with nothing left in flight. */
  lemma {:induction false} AtomicRunIsInterleaving(es: seq<Event>) returns (s: L.Sys)
    requires ValidRun(es)
    ensures L.Reaches(L.START, s) && L.Quiescent(s)
    ensures s.db == Run(es).db && s.clock <= Run(es).clock
  {
    if |es| == 0 {
      L.ReachRefl(L.START);
      s := L.START;
    } else {
      s := AtomicRunIsInterleaving(es[..|es| - 1]);
      s := EventCalls(s, Run(es[..|es| - 1]), es[|es| - 1]);
    }
  }

  predicate StatsOk(db: FraudDb) {
    forall c :: c in db.stats ==> db.stats[c].Ok()
  }

  /** After every run: join counter = records, member count = joins - leaves, and
      at least member count many records are open. */
  lemma LedgerAfterEveryRun(es: seq<Event>, c: int)
    requires ValidRun(es)
    ensures var db := Run(es).db;
      && StatsOk(db)
      && L.Joins(db.stats, c) == Count(db.memberships, InCommunity(c))
      && (c in db.stats ==> Count(db.memberships, OpenIn(c)) >= db.stats[c].memberCount)
  {
    var s := AtomicRunIsInterleaving(es);
    L.LedgerWhenQuiescent(s, c);
    forall k | k in s.db.stats ensures s.db.stats[k].Ok() {
      L.ReachableBalanced(s, k);
    }
  }

  // ---- scores ------------------------------------------------------------------

  predicate ProfilesOk(db: FraudDb) {
    forall u :: u in db.profiles ==> US.ProfileOk(db.profiles[u])
  }

  predicate BreakdownOk(b: ScoreBreakdown) {
    && 0.0 <= b.membershipDuration <= 25.0 && 0.0 <= b.joinLeaveRatio <= 20.0
    && 0.0 <= b.activityScore <= 20.0 && 0.0 <= b.retentionScore <= 20.0
    && 0.0 <= b.diversityScore <= 10.0 && 0.0 <= b.adQualityScore <= 5.0
  }

  predicate UserSnapshotsOk(db: FraudDb) {
    forall k :: 0 <= k < |db.userScores| ==>
      0 <= db.userScores[k].score <= 100 && BreakdownOk(db.userScores[k].breakdown)
  }

  predicate CommunitySnapshotsOk(db: FraudDb) {
    forall k :: 0 <= k < |db.communityScores| ==>
      && 0 <= db.communityScores[k].score <= 75
      && db.communityScores[k].revenueStatus == CommunityRevenueStatus(db.communityScores[k].score)
  }

  predicate ScoresOk(db: FraudDb) {
    ProfilesOk(db) && UserSnapshotsOk(db) && CommunitySnapshotsOk(db)
  }

  lemma RecalcUserKeepsScores(db: FraudDb, u: int, now: int)
    requires ScoresOk(db)
    ensures ScoresOk(RecalcUserDb(db, u, now))
  {
    US.UserScoreInRange(db, u, now);
    if u in db.profiles {
      US.BreakdownInRange(db.profiles[u], US.Recent(db, u, now), ActivityDays(db, u, now - 30 * DAY), now);
    }
  }

  lemma RecalcCommunityKeepsScores(db: FraudDb, c: int, now: int)
    requires ScoresOk(db) && StatsOk(db)
    ensures ScoresOk(RecalcCommunityDb(db, c, now))
  {
    if c in db.stats {
      forall u | u in db.profiles ensures 0 <= db.profiles[u].trustScore <= 100 {
        assert US.ProfileOk(db.profiles[u]);
      }
      CS.AvgTrustInRange(db, c);
      CS.CommunityScoreInRange(db.stats[c], AvgTrust(db, c));
    }
  }

  lemma CountersKeepProfiles(db: FraudDb, u: int)
    requires ProfilesOk(db)
    ensures ProfilesOk(IncUserJoins(db, u)) && ProfilesOk(IncUserLeaves(db, u))
  {
  }

  lemma UpsertKeepsProfiles(db: FraudDb, u: int, p: Profile, applied: bool)
    requires ProfilesOk(db) && US.ProfileOk(p)
    ensures ProfilesOk(UpsertProfileDb(db, u, p, applied))
  {
  }

  lemma CampaignProfileOk(p: Profile, stayed: bool)
    requires US.ProfileOk(p)
    ensures US.ProfileOk(CampaignProfile(p, stayed))
  {
  }

  lemma OwnPartKeepsScores(db: FraudDb, e: Event)
    requires e.input.Leave? ==> ValidChoice(db.memberships, e.input.u, e.input.c, e.input.choice)
    requires ScoresOk(db)
    ensures ScoresOk(OwnPart(db, e))
  {
    match e.input
    case Join(u, _) => CountersKeepProfiles(db, u);
    case Leave(u, _, _) => CountersKeepProfiles(db, u);
    case ProfileUpdate(u, username, hasPhoto, applied) =>
      UpsertKeepsProfiles(db, u, FreshProfile(username, hasPhoto), applied);
    case CampaignComplete(u, stayed, applied) =>
      if u in db.profiles {
        CampaignProfileOk(db.profiles[u], stayed);
        UpsertKeepsProfiles(db, u, CampaignProfile(db.profiles[u], stayed), applied);
      }
    case _ =>
  }

  lemma EventKeepsScores(db: FraudDb, e: Event)
    requires e.input.Leave? ==> ValidChoice(db.memberships, e.input.u, e.input.c, e.input.choice)
    requires ScoresOk(db) && StatsOk(LedgerPart(db, e))
    ensures ScoresOk(ApplyDb(db, e))
  {
    var own, user, community := OwnPart(db, e), RescoredUser(db, e.input), RescoredCommunity(e.input);
    OwnPartKeepsScores(db, e);
    assert own.stats == LedgerPart(db, e).stats;
    var scored := if user.Some? then RecalcUserDb(own, user.value, e.at) else own;
    if user.Some? {
      RecalcUserKeepsScores(own, user.value, e.at);
    }
    if community.Some? {
      RecalcCommunityKeepsScores(scored, community.value, e.at);
    }
  }

  /** Every stored trust score, score snapshot and breakdown component is in its
      documented range, and no community ever scores above 75. */
  lemma {:induction false} ScoresInRangeAfterEveryRun(es: seq<Event>)
    requires ValidRun(es)
    ensures ScoresOk(Run(es).db)
  {
    if |es| > 0 {
      var e, before := es[|es| - 1], Run(es[..|es| - 1]);
      ScoresInRangeAfterEveryRun(es[..|es| - 1]);
      LedgerAfterEveryRun(es, 0);
      OnlyLedgerPart(before.db, e);
      EventKeepsScores(before.db, e);
    }
  }

  predicate BelowFullPayout(m: ScoreMessage) {
    0 <= m.score <= 75 && m.revenueStatus != Normal && m.multiplier <= 0.8
  }

  lemma NewsBelowFullPayout(c: int, score: int)
    requires 0 <= score <= 75
    ensures BelowFullPayout(ScoreNews(c, score))
  {
  }

  /** The full-payout band is out of reach: whatever the events, no message ever
      carries the status Normal or a multiplier above 0.8. */
  lemma {:induction false} FullPayoutIsNeverPublished(es: seq<Event>)
    requires ValidRun(es)
    ensures forall k :: 0 <= k < |Run(es).outbox| ==> BelowFullPayout(Run(es).outbox[k])
  {
    if |es| > 0 {
      FullPayoutIsNeverPublished(es[..|es| - 1]);
      ScoresInRangeAfterEveryRun(es);
      var before, after := Run(es[..|es| - 1]), Run(es);
      if after.outbox != before.outbox {
        assert after.outbox == before.outbox + [ScoreNews(es[|es| - 1].input.c, LastScore(after.db))];
        NewsBelowFullPayout(es[|es| - 1].input.c, LastScore(after.db));
      }
    }
  }

  // ---- retention and leave rate -----------------------------------------------------

  /** Retention and leave rate of a stored breakdown add up to 1, or the snapshot was
      taken of an empty or unknown community: the neutral 50 with nothing broken down. */
  predicate DualRates(s: CommunitySnapshot) {
    || s.breakdown.retentionRate + s.breakdown.joinLeaveRate == 1.0
    || (s.breakdown == CommunityBreakdown(0.0, 0.0, 0.0, 0.0, 0.0) && s.score == 50)
  }

  lemma RecalcIsDual(db: FraudDb, c: int)
    requires StatsOk(db)
    ensures c in db.stats && db.stats[c].memberCount != 0 ==>
      && CS.Breakdown(db, c).retentionRate + CS.Breakdown(db, c).joinLeaveRate == 1.0
      && CS.Breakdown(db, c).retentionRate <= 1.0 && db.stats[c].totalJoins > 0
    ensures c !in db.stats || db.stats[c].memberCount == 0 ==>
      CS.Breakdown(db, c) == CommunityBreakdown(0.0, 0.0, 0.0, 0.0, 0.0) && CS.CommunityScore(db, c) == 50
  {
    if c in db.stats && db.stats[c].memberCount != 0 {
      CS.RetentionPlusLeaveRateIsOne(db.stats[c], AvgTrust(db, c));
    }
  }

  /** The snapshot an event stores, and the store content it was computed from. */
  lemma StoredSnapshot(db: FraudDb, e: Event) returns (scored: FraudDb)
    requires e.input.Leave? ==> ValidChoice(db.memberships, e.input.u, e.input.c, e.input.choice)
    ensures scored.stats == ApplyDb(db, e).stats
    ensures ApplyDb(db, e).communityScores == db.communityScores +
      (if RescoredCommunity(e.input).Some? then
         var c := RescoredCommunity(e.input).value;
         [CommunitySnapshot(c, CS.CommunityScore(scored, c), CS.Breakdown(scored, c), e.at,
                            CommunityRevenueStatus(CS.CommunityScore(scored, c)))]
       else [])
  {
    var own, user := OwnPart(db, e), RescoredUser(db, e.input);
    scored := if user.Some? then RecalcUserDb(own, user.value, e.at) else own;
  }

  /** In every run: each stored snapshot has dual rates, and so has the breakdown
      computed next for any community with a nonzero count. */
  lemma {:induction false} DualRatesAfterEveryRun(es: seq<Event>)
    requires ValidRun(es)
    ensures forall k :: 0 <= k < |Run(es).db.communityScores| ==> DualRates(Run(es).db.communityScores[k])
    ensures forall c :: c in Run(es).db.stats && Run(es).db.stats[c].memberCount != 0 ==>
      CS.Breakdown(Run(es).db, c).retentionRate + CS.Breakdown(Run(es).db, c).joinLeaveRate == 1.0
  {
    LedgerAfterEveryRun(es, 0);
    forall c | c in Run(es).db.stats && Run(es).db.stats[c].memberCount != 0
      ensures CS.Breakdown(Run(es).db, c).retentionRate + CS.Breakdown(Run(es).db, c).joinLeaveRate == 1.0
    {
      RecalcIsDual(Run(es).db, c);
    }
    if |es| > 0 {
      var e, before := es[|es| - 1], Run(es[..|es| - 1]);
      DualRatesAfterEveryRun(es[..|es| - 1]);
      var scored := StoredSnapshot(before.db, e);
      if RescoredCommunity(e.input).Some? {
        RecalcIsDual(scored, RescoredCommunity(e.input).value);
      }
    }
  }

  // ---- stored durations and rejoin counts ----------------------------------------

  predicate RecordOk(m: Membership, clock: int) {
    && m.joinedAt <= clock
    && (IsOpen(m) <==> m.durationSec == -1)
    && (!IsOpen(m) ==> m.leftAt.value <= clock && 0 <= m.durationSec * SECOND <= m.leftAt.value - m.joinedAt)
  }

  predicate RecordsOk(ms: seq<Membership>, clock: int) {
    forall k :: 0 <= k < |ms| ==> RecordOk(ms[k], clock)
  }

  predicate RejoinsExact(ms: seq<Membership>) {
    forall k :: 0 <= k < |ms| ==> RejoinExact(ms, k)
  }

  predicate RejoinExact(ms: seq<Membership>, k: int)
    requires 0 <= k < |ms|
  {
    ms[k].rejoinCount == Count(ms[..k], OfKey(ms[k].userId, ms[k].communityId))
  }

  lemma JoinKeepsRecords(db: FraudDb, u: int, c: int, now: int, clock: int)
    requires RecordsOk(db.memberships, clock) && RejoinsExact(db.memberships) && clock <= now
    ensures RecordsOk(JoinDb(db, u, c, now).memberships, now) && RejoinsExact(JoinDb(db, u, c, now).memberships)
  {
    var ms, mt := db.memberships, JoinDb(db, u, c, now).memberships;
    forall k | 0 <= k < |mt| ensures RejoinExact(mt, k) && RecordOk(mt[k], now) {
      assert mt[..k] == ms[..k];
      if k < |ms| {
        assert RejoinExact(ms, k) && RecordOk(ms[k], clock);
      } else {
        assert ms[..k] == ms;
      }
    }
  }

  lemma LeaveKeepsRecords(ms: seq<Membership>, u: int, c: int, now: int, choice: LeaveChoice, clock: int)
    requires RecordsOk(ms, clock) && RejoinsExact(ms) && clock <= now && ValidChoice(ms, u, c, choice)
    ensures RecordsOk(CloseChosen(ms, u, c, now, choice), now) && RejoinsExact(CloseChosen(ms, u, c, now, choice))
  {
    var mt := CloseChosen(ms, u, c, now, choice);
    forall k | 0 <= k < |mt| ensures RejoinExact(mt, k) && RecordOk(mt[k], now) {
      assert RejoinExact(ms, k) && RecordOk(ms[k], clock);
      if choice.Picked? {
        var d := WholeSeconds(now - ms[choice.measured].joinedAt);
        L.CloseKeepsKeys(ms, choice.closed, now, d, k, ms[k].userId, ms[k].communityId);
        assert RecordOk(ms[choice.measured], clock);
      }
    }
  }

  /** In every run: a record is open exactly when its stored duration is -1; a closed
      one has 0 <= duration <= leftAt - joinedAt whichever open record the update
      picked; and the records of a key carry 0, 1, 2, ... in insertion order. */
  lemma {:induction false} RecordsAfterEveryRun(es: seq<Event>)
    requires ValidRun(es)
    ensures RecordsOk(Run(es).db.memberships, Run(es).clock)
    ensures RejoinsExact(Run(es).db.memberships)
  {
    if |es| > 0 {
      var e, before := es[|es| - 1], Run(es[..|es| - 1]);
      RecordsAfterEveryRun(es[..|es| - 1]);
      OnlyLedgerPart(before.db, e);
      match e.input
      case Join(u, c) => JoinKeepsRecords(before.db, u, c, e.at, before.clock);
      case Leave(u, c, choice) => LeaveKeepsRecords(before.db.memberships, u, c, e.at, choice, before.clock);
      case _ =>
    }
  }

  // ---- runs that never join while already a member ---------------------------------

  /** No join event comes for a key that still has an open record. */
  predicate NoJoinWhileOpen(es: seq<Event>)
    requires ValidRun(es)
  {
    |es| == 0 ||
    (var e := es[|es| - 1];
      && NoJoinWhileOpen(es[..|es| - 1])
      && (e.input.Join? ==> L.NoneOpen(Run(es[..|es| - 1]).db.memberships, e.input.u, e.input.c)))
  }

  predicate OneOpenPerKey(ms: seq<Membership>) {
    forall i, j :: 0 <= i < j < |ms| && IsOpen(ms[i]) && IsOpen(ms[j]) ==>
      ms[i].userId != ms[j].userId || ms[i].communityId != ms[j].communityId
  }

  /** The stored duration is the whole seconds that fit between joining and leaving. */
  predicate DurationExact(m: Membership) {
    !IsOpen(m) ==>
      m.durationSec * 1_000_000_000 <= m.leftAt.value - m.joinedAt < (m.durationSec + 1) * 1_000_000_000
  }

  predicate DurationsExact(ms: seq<Membership>) {
    forall k :: 0 <= k < |ms| ==> DurationExact(ms[k])
  }

  lemma JoinKeepsOneOpen(db: FraudDb, u: int, c: int, now: int)
    requires OneOpenPerKey(db.memberships) && L.NoneOpen(db.memberships, u, c)
    ensures OneOpenPerKey(JoinDb(db, u, c, now).memberships)
  {
    var ms := db.memberships;
    forall i | 0 <= i < |ms| && IsOpen(ms[i]) ensures ms[i].userId != u || ms[i].communityId != c {
      assert !OpenAt(ms, u, c, i);
    }
  }

  lemma LeaveKeepsExact(ms: seq<Membership>, u: int, c: int, now: int, choice: LeaveChoice)
    requires OneOpenPerKey(ms) && DurationsExact(ms) && ValidChoice(ms, u, c, choice)
    requires forall k :: 0 <= k < |ms| ==> ms[k].joinedAt <= now
    ensures OneOpenPerKey(CloseChosen(ms, u, c, now, choice)) && DurationsExact(CloseChosen(ms, u, c, now, choice))
  {
    if choice.Picked? {
      assert choice.measured == choice.closed;
    }
  }

  lemma JoinedBefore(es: seq<Event>, now: int)
    requires ValidRun(es) && Run(es).clock <= now
    ensures forall k :: 0 <= k < |Run(es).db.memberships| ==> Run(es).db.memberships[k].joinedAt <= now
  {
    RecordsAfterEveryRun(es);
    var ms := Run(es).db.memberships;
    forall k | 0 <= k < |ms| ensures ms[k].joinedAt <= now {
      assert RecordOk(ms[k], Run(es).clock);
    }
  }

  lemma LedgerKeepsExact(db: FraudDb, e: Event)
    requires e.input.Leave? ==> ValidChoice(db.memberships, e.input.u, e.input.c, e.input.choice)
    requires e.input.Join? ==> L.NoneOpen(db.memberships, e.input.u, e.input.c)
    requires OneOpenPerKey(db.memberships) && DurationsExact(db.memberships)
    requires forall k :: 0 <= k < |db.memberships| ==> db.memberships[k].joinedAt <= e.at
    ensures OneOpenPerKey(LedgerPart(db, e).memberships) && DurationsExact(LedgerPart(db, e).memberships)
  {
    match e.input
    case Join(u, c) => JoinKeepsOneOpen(db, u, c, e.at);
    case Leave(u, c, choice) => LeaveKeepsExact(db.memberships, u, c, e.at, choice);
    case _ =>
  }

  /** On runs that never join while already open, every stored duration is the whole
      number of seconds between joining and leaving. */
  lemma {:induction false} DurationsExactWithoutOverlap(es: seq<Event>)
    requires ValidRun(es) && NoJoinWhileOpen(es)
    ensures OneOpenPerKey(Run(es).db.memberships) && DurationsExact(Run(es).db.memberships)
  {
    if |es| > 0 {
      var e, before := es[|es| - 1], Run(es[..|es| - 1]);
      DurationsExactWithoutOverlap(es[..|es| - 1]);
      JoinedBefore(es[..|es| - 1], e.at);
      LedgerKeepsExact(before.db, e);
      OnlyLedgerPart(before.db, e);
    }
  }
}
