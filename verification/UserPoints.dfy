/** The user score as a table: which points each factor earns, read off the records,
    the profile and the activity documents, for the scorer and for every snapshot a run
    stores. */
module UserPoints {
  import opened Seqs
  import opened Numbers
  import opened FraudModels
  import opened FraudStore
  import opened UserScorer
  import P = Processor
  import T = ProfileTrace
  import FraudRuns

  // ---- what the factors look at ------------------------------------------------------

  /** Joined by this user in the last 90 days. */
  function JoinedLately(u: int, now: int): Membership -> bool {
    (m: Membership) => m.userId == u && now - m.joinedAt <= 7_776_000_000_000_000
  }

  /** Nanoseconds of membership: up to now for a record without a duration. */
  function Stay(m: Membership, now: int): int {
    if m.durationSec < 0 then now - m.joinedAt else m.durationSec * 1_000_000_000
  }

  function TotalStay(ms: seq<Membership>, now: int): int {
    if |ms| == 0 then 0 else TotalStay(ms[..|ms| - 1], now) + Stay(ms[|ms| - 1], now)
  }

  function NotLeft(): Membership -> bool { (m: Membership) => m.leftAt == None }

  /** Activity documents of the user touched in the last 30 days. */
  function ActiveLately(db: FraudDb, u: int, now: int): nat {
    |set k | k in db.activity && k.0 == u && now - db.activity[k].updatedAt <= 2_592_000_000_000_000|
  }

  // ---- the table ------------------------------------------------------------------------

  /** By the mean of `n` stays of `total` nanoseconds together. */
  predicate DurationPoints(points: real, total: int, n: nat) {
    var days := n * 86_400_000_000_000;
    && (points == 25.0 <==> n > 0 && total >= 30 * days)
    && (points == 20.0 <==> n > 0 && 14 * days <= total < 30 * days)
    && (points == 15.0 <==> n > 0 && 7 * days <= total < 14 * days)
    && (points == 10.0 <==> n > 0 && 3 * days <= total < 7 * days)
    && (points == 5.0 <==> n > 0 && days <= total < 3 * days)
    && (points == 0.0 <==> n == 0 || total < days)
  }

  predicate RatioPoints(points: real, joins: int, leaves: int) {
    if joins == 0 then points == 10.0
    else
      && (points == 0.0 <==> 10 * leaves > 9 * joins)
      && (points == 5.0 <==> 7 * joins < 10 * leaves <= 9 * joins)
      && (points == 10.0 <==> 5 * joins < 10 * leaves <= 7 * joins)
      && (points == 15.0 <==> 3 * joins < 10 * leaves <= 5 * joins)
      && (points == 20.0 <==> 10 * leaves <= 3 * joins)
  }

  predicate ActivityPoints(points: real, days: nat) {
    if days < 30 then points == 0.67 * days as real else points == 20.0
  }

  predicate RetentionPoints(points: real, open: nat, n: nat) {
    if n == 0 then points == 10.0 else points * n as real == 20.0 * open as real
  }

  predicate DiversityPoints(points: real, n: nat) {
    && (points == 0.0 <==> n == 0)
    && (points == 3.0 <==> 1 <= n <= 2 || n >= 21)
    && (points == 7.0 <==> 3 <= n <= 5)
    && (points == 10.0 <==> 6 <= n <= 20)
  }

  predicate AdPoints(points: real, completions: int, campaigns: int) {
    if campaigns == 0 then points == 0.0 else points * campaigns as real == 5.0 * completions as real
  }

  /** The sum, cut to an integer; 85 percent of it for a profile with neither photo nor
      name, half for a bot, cut again each time. */
  predicate FinalScore(score: int, b: ScoreBreakdown, p: Profile) {
    var whole := (b.membershipDuration + b.joinLeaveRatio + b.activityScore
                  + b.retentionScore + b.diversityScore + b.adQualityScore).Floor;
    var kept := if p.username == "" && !p.hasPhoto then 85 * whole / 100 else whole;
    score == if p.isBot then kept / 2 else kept
  }

  /** Score and breakdown of a user with this profile. */
  predicate Table(score: int, b: ScoreBreakdown, p: Profile, recent: seq<Membership>, active: nat, now: int) {
    && DurationPoints(b.membershipDuration, TotalStay(recent, now), |recent|)
    && RatioPoints(b.joinLeaveRatio, p.totalJoins, p.totalLeaves)
    && ActivityPoints(b.activityScore, active)
    && RetentionPoints(b.retentionScore, |Filter(recent, NotLeft())|, |recent|)
    && DiversityPoints(b.diversityScore, |set m | m in recent :: m.communityId|)
    && AdPoints(b.adQualityScore, p.adCompletions, p.totalCampaigns)
    && FinalScore(score, b, p)
  }

  /** Score and breakdown are what the store content says at an instant. */
  predicate Assessed(score: int, b: ScoreBreakdown, db: FraudDb, u: int, now: int) {
    if u !in db.profiles then score == 50 && b == ScoreBreakdown(0.0, 0.0, 0.0, 0.0, 0.0, 0.0)
    else Table(score, b, db.profiles[u], Filter(db.memberships, JoinedLately(u, now)), ActiveLately(db, u, now), now)
  }

  // ---- factor by factor --------------------------------------------------------------------

  lemma OneStay(m: Membership, now: int)
    ensures m.DurationDays(now) * 86_400_000_000_000.0 == Stay(m, now) as real
  {
  }

  lemma {:induction false} StaysAreDays(ms: seq<Membership>, now: int)
    ensures Sum(ms, DaysAt(now)) * 86_400_000_000_000.0 == TotalStay(ms, now) as real
  {
    if |ms| > 0 {
      var head, m := ms[..|ms| - 1], ms[|ms| - 1];
      StaysAreDays(head, now);
      OneStay(m, now);
      TimesSum(Sum(head, DaysAt(now)), m.DurationDays(now), 86_400_000_000_000.0);
    }
  }

  /** A mean of `k` days or more, in nanoseconds. */
  lemma MeanAtLeast(days: real, total: int, n: nat, k: int)
    requires n > 0 && days * 86_400_000_000_000.0 == total as real
    ensures days / n as real >= k as real <==> total >= k * (n * 86_400_000_000_000)
  {
    QuotientAtLeast(days, n as real, k as real);
    assert k as real * n as real == (k * n) as real;
    assert k * (n * 86_400_000_000_000) == (k * n) * 86_400_000_000_000;
  }

  lemma DurationByMean(ms: seq<Membership>, now: int)
    ensures DurationPoints(DurationBand(AvgDays(ms, now)), TotalStay(ms, now), |ms|)
  {
    if |ms| > 0 {
      var days, total, n := Sum(ms, DaysAt(now)), TotalStay(ms, now), |ms|;
      StaysAreDays(ms, now);
      MeanAtLeast(days, total, n, 30);
      MeanAtLeast(days, total, n, 14);
      MeanAtLeast(days, total, n, 7);
      MeanAtLeast(days, total, n, 3);
      MeanAtLeast(days, total, n, 1);
    }
  }

  lemma RatioByTenths(joins: int, leaves: int)
    requires joins >= 0
    ensures RatioPoints(JoinLeaveBand(joins, leaves), joins, leaves)
  {
    if joins > 0 {
      TenthsCompare(leaves, joins, 9);
      TenthsCompare(leaves, joins, 7);
      TenthsCompare(leaves, joins, 5);
      TenthsCompare(leaves, joins, 3);
    }
  }

  lemma ShareTimes(a: int, n: int, k: real)
    requires n > 0
    ensures a as real / n as real * k * n as real == k * a as real
  {
    var q := a as real / n as real;
    assert q * n as real == a as real;
    Commute(q, k, n as real);
  }

  lemma RetentionByShare(ms: seq<Membership>)
    ensures RetentionPoints(Retention(ms), |Filter(ms, NotLeft())|, |ms|)
  {
    FilterAgree(ms, OpenOnly(), NotLeft());
    if |ms| > 0 {
      ShareTimes(Count(ms, OpenOnly()), |ms|, 20.0);
    }
  }

  lemma AdsByShare(p: Profile)
    requires p.totalCampaigns >= 0
    ensures AdPoints(AdBand(p), p.adCompletions, p.totalCampaigns)
  {
    if p.totalCampaigns > 0 {
      ShareTimes(p.adCompletions, p.totalCampaigns, 5.0);
    }
  }

  lemma PercentFloor(whole: int)
    requires whole >= 0
    ensures Trunc(whole as real * 0.85) == 85 * whole / 100
    ensures Trunc(whole as real * 0.5) == whole / 2
  {
    assert whole as real * 0.85 == (85 * whole) as real / 100.0;
    assert whole as real * 0.5 == whole as real / 2.0;
  }

  lemma FinalByPenalty(b: ScoreBreakdown, p: Profile)
    requires 0.0 <= Total(b) <= 100.0
    ensures FinalScore(Penalized(Trunc(Total(b)), p), b, p)
  {
    var whole := Total(b).Floor;
    PercentFloor(whole);
    PercentFloor(85 * whole / 100);
  }

  lemma TableOfBreakdown(p: Profile, recent: seq<Membership>, active: nat, now: int)
    requires ProfileOk(p)
    ensures var b := Breakdown(p, recent, active, now);
      Table(Penalized(Trunc(Total(b)), p), b, p, recent, active, now)
  {
    DurationByMean(recent, now);
    RatioByTenths(p.totalJoins, p.totalLeaves);
    RetentionByShare(recent);
    AdsByShare(p);
    BreakdownInRange(p, recent, active, now);
    FinalByPenalty(Breakdown(p, recent, active, now), p);
  }

  lemma LatelyIsRecent(db: FraudDb, u: int, now: int)
    ensures Recent(db, u, now) == Filter(db.memberships, JoinedLately(u, now))
    ensures ActivityDays(db, u, now - 30 * DAY) == ActiveLately(db, u, now)
  {
    FilterAgree(db.memberships, JoinedSince(u, now - 90 * DAY), JoinedLately(u, now));
    assert (set k | k in db.activity && k.0 == u && db.activity[k].updatedAt >= now - 30 * DAY)
        == (set k | k in db.activity && k.0 == u && now - db.activity[k].updatedAt <= 2_592_000_000_000_000);
  }

  /** What the scorer returns, for every store content whose profiles the handlers can
      have written: each factor earns its points exactly under its own condition. */
  lemma ScoreByTable(db: FraudDb, u: int, now: int)
    requires u in db.profiles ==> ProfileOk(db.profiles[u])
    ensures Assessed(UserScore(db, u, now), UserBreakdown(db, u, now), db, u, now)
  {
    if u in db.profiles {
      LatelyIsRecent(db, u, now);
      TableOfBreakdown(db.profiles[u], Recent(db, u, now), ActivityDays(db, u, now - 30 * DAY), now);
      UserScoreInRange(db, u, now);
    }
  }

  // ---- every stored snapshot ------------------------------------------------------------------

  /** The events that score a user: all but the community recalculation and the
      campaigns of unknown users. */
  predicate Scores(before: seq<P.Event>, i: P.Input) {
    !i.AdminRecalcCommunity? && (i.CampaignComplete? ==> T.Known(before, i.u))
  }

  /** Their positions in a trace. */
  function Scorings(es: seq<P.Event>): seq<nat> {
    if |es| == 0 then []
    else Scorings(es[..|es| - 1]) + (if Scores(es[..|es| - 1], es[|es| - 1].input) then [|es| - 1] else [])
  }

  /** Event `i` stored this snapshot: of its user, at its time, by the table over the
      store it leaves. */
  ghost predicate StoredBy(es: seq<P.Event>, i: nat, s: UserSnapshot) {
    && i < |es| && P.ValidRun(es[..i + 1])
    && !es[i].input.AdminRecalcCommunity? && s.userId == es[i].input.u && s.calculatedAt == es[i].at
    && Assessed(s.score, s.breakdown, P.Run(es[..i + 1]).db, s.userId, s.calculatedAt)
  }

  ghost predicate AllStored(es: seq<P.Event>, at: seq<nat>, ss: seq<UserSnapshot>) {
    |ss| == |at| && forall k :: 0 <= k < |ss| ==> StoredBy(es, at[k], ss[k])
  }

  lemma StoredStays(es: seq<P.Event>, e: P.Event, at: seq<nat>, ss: seq<UserSnapshot>)
    requires AllStored(es, at, ss)
    ensures AllStored(es + [e], at, ss)
  {
    forall k | 0 <= k < |ss| ensures StoredBy(es + [e], at[k], ss[k]) {
      assert StoredBy(es, at[k], ss[k]);
      assert (es + [e])[..at[k] + 1] == es[..at[k] + 1];
    }
  }

  /** The trust score is not part of what is assessed. */
  lemma AssessedAfterRescore(score: int, b: ScoreBreakdown, db: FraudDb, user: Option<int>, community: Option<int>, now: int, u: int)
    requires Assessed(score, b, db, u, now)
    ensures Assessed(score, b, P.Rescore(db, user, community, now), u, now)
  {
    P.RescoreKeeps(db, user, community, now);
    T.RescoreProfile(db, user, community, now, u);
  }

  lemma EventStores(db: FraudDb, e: P.Event)
    requires e.input.Leave? ==> ValidChoice(db.memberships, e.input.u, e.input.c, e.input.choice)
    requires FraudRuns.ProfilesOk(P.OwnPart(db, e)) && P.RescoredUser(db, e.input).Some?
    ensures |P.ApplyDb(db, e).userScores| == |db.userScores| + 1
    ensures var s := P.ApplyDb(db, e).userScores[|db.userScores|];
      && P.ApplyDb(db, e).userScores == db.userScores + [s] && s.userId == e.input.u && s.calculatedAt == e.at
      && Assessed(s.score, s.breakdown, P.ApplyDb(db, e), s.userId, s.calculatedAt)
  {
    var own, u := P.OwnPart(db, e), e.input.u;
    T.OwnPartSnapshots(db, e);
    ScoreByTable(own, u, e.at);
    AssessedAfterRescore(UserScore(own, u, e.at), UserBreakdown(own, u, e.at), own,
      P.RescoredUser(db, e.input), P.RescoredCommunity(e.input), e.at, u);
  }

  lemma NothingStored(db: FraudDb, e: P.Event)
    requires e.input.Leave? ==> ValidChoice(db.memberships, e.input.u, e.input.c, e.input.choice)
    requires P.RescoredUser(db, e.input).None?
    ensures P.ApplyDb(db, e).userScores == db.userScores
  {
  }

  lemma StoredSnoc(es: seq<P.Event>, at: seq<nat>, ss: seq<UserSnapshot>, i: nat, s: UserSnapshot)
    requires AllStored(es, at, ss) && StoredBy(es, i, s)
    ensures AllStored(es, at + [i], ss + [s])
  {
    forall k | 0 <= k < |ss + [s]| ensures StoredBy(es, (at + [i])[k], (ss + [s])[k]) {
      if k < |ss| {
        assert StoredBy(es, at[k], ss[k]);
      }
    }
  }

  lemma KnownProfile(es: seq<P.Event>, u: int)
    requires P.ValidRun(es)
    ensures u in P.Run(es).db.profiles <==> T.Known(es, u)
  {
    T.ProfilesFromTrace(es, u);
  }

  lemma ScoringInput(db: FraudDb, before: seq<P.Event>, i: P.Input)
    requires !i.AdminRecalcCommunity? ==> (i.u in db.profiles <==> T.Known(before, i.u))
    ensures P.RescoredUser(db, i).Some? <==> Scores(before, i)
  {
  }

  lemma LastScoring(es: seq<P.Event>)
    requires P.ValidRun(es) && |es| > 0
    ensures var before, e := P.Run(es[..|es| - 1]), es[|es| - 1];
      P.RescoredUser(before.db, e.input).Some? <==> Scores(es[..|es| - 1], e.input)
  {
    var before, i := es[..|es| - 1], es[|es| - 1].input;
    if !i.AdminRecalcCommunity? {
      KnownProfile(before, i.u);
    }
    ScoringInput(P.Run(before).db, before, i);
  }

  lemma LastStores(es: seq<P.Event>) returns (s: UserSnapshot)
    requires P.ValidRun(es) && |es| > 0 && Scores(es[..|es| - 1], es[|es| - 1].input)
    ensures P.Run(es).db.userScores == P.Run(es[..|es| - 1]).db.userScores + [s]
    ensures StoredBy(es, |es| - 1, s)
  {
    var before, e := P.Run(es[..|es| - 1]), es[|es| - 1];
    LastScoring(es);
    FraudRuns.ScoresInRangeAfterEveryRun(es[..|es| - 1]);
    FraudRuns.OwnPartKeepsScores(before.db, e);
    EventStores(before.db, e);
    s := P.ApplyDb(before.db, e).userScores[|before.db.userScores|];
    assert es[..|es|] == es;
  }

  /** In every run the snapshots stored for users are, in order, one for each event that
      scores a user, of that user and time, with each factor's points and the score as
      the table has them for the store the event leaves. */
  lemma {:induction false} SnapshotsFromTrace(es: seq<P.Event>)
    requires P.ValidRun(es)
    ensures AllStored(es, Scorings(es), P.Run(es).db.userScores)
  {
    if |es| > 0 {
      var n, ss := |es| - 1, P.Run(es[..|es| - 1]).db.userScores;
      SnapshotsFromTrace(es[..n]);
      StoredStays(es[..n], es[n], Scorings(es[..n]), ss);
      HeadAndLast(es);
      if Scores(es[..n], es[n].input) {
        var s := LastStores(es);
        StoredSnoc(es, Scorings(es[..n]), ss, n, s);
      } else {
        LastScoring(es);
        NothingStored(P.Run(es[..n]).db, es[n]);
      }
    }
  }
}
