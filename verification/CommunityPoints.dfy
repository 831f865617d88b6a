/** The community score as a closed formula in joins, leaves and the trust of the open
    members, for the scorer and for every snapshot and message of a run, with joins and
    leaves counted in the trace. */
module CommunityPoints {
  import opened Seqs
  import opened Numbers
  import opened FraudModels
  import opened FraudStore
  import opened CommunityScorer
  import P = Processor
  import FraudRuns

  // ---- the formula ---------------------------------------------------------------------

  /** Points for the balance of joins and leaves. */
  predicate LeavePoints(points: real, joins: int, leaves: int) {
    && (points == 0.0 <==> 10 * leaves > 9 * joins)
    && (points == 3.0 <==> 7 * joins < 10 * leaves <= 9 * joins)
    && (points == 6.0 <==> 5 * joins < 10 * leaves <= 7 * joins)
    && (points == 10.0 <==> 10 * leaves <= 5 * joins)
  }

  /** The score: 30 for what stayed, 0.3 of the trust, the balance and a fixed 5, cut to
      an integer and not below 0. */
  predicate ScoreIs(score: int, joins: int, leaves: int, trust: real, points: real)
    requires joins > 0
  {
    var x := 30.0 * ((joins - leaves) as real / joins as real) + 0.3 * trust + points + 5.0;
    LeavePoints(points, joins, leaves) && score == if x < 0.0 then 0 else x.Floor
  }

  predicate BreakdownIs(b: CommunityBreakdown, joins: int, leaves: int, trust: real)
    requires joins > 0
  {
    && b.retentionRate == (joins - leaves) as real / joins as real
    && b.joinLeaveRate == leaves as real / joins as real
    && b.activityRate == 0.0 && b.avgMemberQuality == trust && b.adConversionRate == 0.5
  }

  /** Score and breakdown of a community after so many joins and leaves: neutral when
      nobody is left over, else by the formula. */
  ghost predicate Formula(score: int, b: CommunityBreakdown, joins: int, leaves: int, trust: real) {
    if joins <= 0 || joins == leaves then score == 50 && b == CommunityBreakdown(0.0, 0.0, 0.0, 0.0, 0.0)
    else BreakdownIs(b, joins, leaves, trust) && exists points :: ScoreIs(score, joins, leaves, trust, points)
  }

  /** The open memberships of a community whose user has a profile. */
  function Members(profiles: map<int, Profile>, c: int): Membership -> bool {
    (m: Membership) => m.communityId == c && m.leftAt == None && m.userId in profiles
  }

  function TrustOf(profiles: map<int, Profile>, m: Membership): int {
    if m.userId in profiles then profiles[m.userId].trustScore else 0
  }

  function TrustSum(profiles: map<int, Profile>, rows: seq<Membership>): int {
    if |rows| == 0 then 0 else TrustSum(profiles, rows[..|rows| - 1]) + TrustOf(profiles, rows[|rows| - 1])
  }

  predicate MeanIs(mean: real, total: real, n: nat) {
    if n == 0 then mean == 50.0 else mean * n as real == total
  }

  /** The mean trust score over these rows, one vote per row; 50 when there is none. */
  predicate TrustIs(ms: seq<Membership>, profiles: map<int, Profile>, c: int, trust: real) {
    var rows := Filter(ms, Members(profiles, c));
    MeanIs(trust, TrustSum(profiles, rows) as real, |rows|)
  }

  // ---- the scorer follows it --------------------------------------------------------------

  lemma PointsByTenths(st: Stats)
    requires st.totalJoins > 0
    ensures LeavePoints(LeaveBand(st), st.totalJoins, st.totalLeaves)
  {
    TenthsCompare(st.totalLeaves, st.totalJoins, 9);
    TenthsCompare(st.totalLeaves, st.totalJoins, 7);
    TenthsCompare(st.totalLeaves, st.totalJoins, 5);
  }

  lemma CutOff(x: real)
    requires x <= 100.0
    ensures MaxInt(Trunc(MinReal(x, 100.0)), 0) == if x < 0.0 then 0 else x.Floor
  {
    if x < 0.0 {
      TruncMonotone(x, 0.0);
      TruncInt(0);
    }
  }

  lemma TotalByFormula(st: Stats, trust: real)
    requires st.Ok() && st.memberCount != 0
    ensures Total(st, trust) ==
      30.0 * ((st.totalJoins - st.totalLeaves) as real / st.totalJoins as real) + 0.3 * trust + LeaveBand(st) + 5.0
  {
    RetentionPlusLeaveRateIsOne(st, trust);
  }

  /** For every statistics document joins and leaves can produce, and any trust. */
  lemma ScoreByFormula(st: Stats, trust: real)
    requires st.Ok() && 0.0 <= trust <= 100.0
    ensures Formula(Score(st, trust), StatsBreakdown(st, trust), st.totalJoins, st.totalLeaves, trust)
  {
    if st.memberCount != 0 {
      PointsByTenths(st);
      RetentionPlusLeaveRateIsOne(st, trust);
      CommunityScoreInRange(st, trust);
      TotalByFormula(st, trust);
      CutOff(Total(st, trust));
      assert ScoreIs(Score(st, trust), st.totalJoins, st.totalLeaves, trust, LeaveBand(st));
    }
  }

  lemma {:induction false} TrustRows(ms: seq<Membership>, profiles: map<int, Profile>, c: int)
    ensures var rows, scores := Filter(ms, Members(profiles, c)), MemberTrust(ms, profiles, c);
      |rows| == |scores| && TrustSum(profiles, rows) as real == Sum(scores, AsReal())
  {
    if |ms| > 0 {
      var head, m := ms[..|ms| - 1], ms[|ms| - 1];
      TrustRows(head, profiles, c);
      if Members(profiles, c)(m) {
        SnocFront(Filter(head, Members(profiles, c)), m);
        SumSnoc(MemberTrust(head, profiles, c), TrustOf(profiles, m), AsReal());
      } else {
        assert Filter(ms, Members(profiles, c)) == Filter(head, Members(profiles, c));
        assert MemberTrust(ms, profiles, c) == MemberTrust(head, profiles, c);
      }
    }
  }

  lemma MeanTimes(total: real, n: nat, mean: real)
    requires mean == if n == 0 then 50.0 else total / n as real
    ensures MeanIs(mean, total, n)
  {
  }

  /** What the average ranges over, in any store content. */
  lemma AverageOverMembers(db: FraudDb, c: int)
    ensures TrustIs(db.memberships, db.profiles, c, AvgTrust(db, c))
  {
    var scores := MemberTrust(db.memberships, db.profiles, c);
    MeanTimes(Sum(scores, AsReal()), |scores|, AvgTrust(db, c));
    TrustRows(db.memberships, db.profiles, c);
  }

  // ---- statistics no path of the engine writes ---------------------------------------------

  /** The rates of any statistics document, active members and counts out of step included. */
  predicate RatesAre(b: CommunityBreakdown, st: Stats, trust: real) {
    && (if st.totalJoins == 0 then b.retentionRate == 0.5
        else if st.memberCount >= st.totalJoins then b.retentionRate == 1.0
        else b.retentionRate * st.totalJoins as real == st.memberCount as real)
    && (if st.memberCount < 0 then b.activityRate == 0.0
        else b.activityRate * st.memberCount as real == st.activeMembers as real)
    && (if st.totalJoins == 0 then b.joinLeaveRate == 0.0
        else b.joinLeaveRate * st.totalJoins as real == st.totalLeaves as real)
    && b.avgMemberQuality == trust && b.adConversionRate == 0.5
  }

  /** The score from these rates: the activity part stops at 20, the whole at 0 and 100. */
  predicate ScoreFromRates(score: int, b: CommunityBreakdown, st: Stats, points: real) {
    var activity := if b.activityRate > 1.0 then 20.0 else 20.0 * b.activityRate;
    var x := 30.0 * b.retentionRate + activity + 0.3 * b.avgMemberQuality + points + 5.0;
    && (if st.totalJoins == 0 then points == 5.0 else LeavePoints(points, st.totalJoins, st.totalLeaves))
    && score == if x < 0.0 then 0 else if x > 100.0 then 100 else x.Floor
  }

  lemma RatesOf(st: Stats, trust: real)
    requires st.totalJoins >= 0 && st.memberCount != 0
    ensures RatesAre(StatsBreakdown(st, trust), st, trust)
  {
    if st.totalJoins > 0 {
      var (m, j) := (st.memberCount as real, st.totalJoins as real);
      QuotientAtLeast(m, j, 1.0);
      assert m / j * j == m && st.totalLeaves as real / j * j == st.totalLeaves as real;
    }
    if st.memberCount > 0 {
      assert st.activeMembers as real / st.memberCount as real * st.memberCount as real == st.activeMembers as real;
    }
  }

  lemma CutBoth(x: real)
    ensures MaxInt(Trunc(MinReal(x, 100.0)), 0) == if x < 0.0 then 0 else if x > 100.0 then 100 else x.Floor
  {
    CutOff(MinReal(x, 100.0));
    TruncInt(100);
  }

  /** The scorer over any statistics with a nonnegative number of joins. */
  lemma AnyScoreByFormula(st: Stats, trust: real)
    requires st.totalJoins >= 0
    ensures st.memberCount == 0 ==>
      Score(st, trust) == 50 && StatsBreakdown(st, trust) == CommunityBreakdown(0.0, 0.0, 0.0, 0.0, 0.0)
    ensures st.memberCount != 0 ==>
      && RatesAre(StatsBreakdown(st, trust), st, trust)
      && exists points :: ScoreFromRates(Score(st, trust), StatsBreakdown(st, trust), st, points)
  {
    if st.memberCount != 0 {
      RatesOf(st, trust);
      CutBoth(Total(st, trust));
      if st.totalJoins > 0 {
        PointsByTenths(st);
      }
      assert ScoreFromRates(Score(st, trust), StatsBreakdown(st, trust), st, LeaveBand(st));
    }
  }

  // ---- joins and leaves of the trace ---------------------------------------------------------

  function JoinsOf(es: seq<P.Event>, c: int): nat {
    if |es| == 0 then 0
    else JoinsOf(es[..|es| - 1], c) + Bit(es[|es| - 1].input.Join? && es[|es| - 1].input.c == c)
  }

  /** Leaves before the first join find no document to count in. */
  function LeavesOf(es: seq<P.Event>, c: int): nat {
    if |es| == 0 then 0
    else
      var rest, i := es[..|es| - 1], es[|es| - 1].input;
      LeavesOf(rest, c) + Bit(i.Leave? && i.c == c && JoinsOf(rest, c) > 0)
  }

  predicate Tallied(db: FraudDb, c: int, joins: nat, leaves: nat) {
    && (c in db.stats <==> joins > 0)
    && (c in db.stats ==> db.stats[c] == Stats(joins - leaves, 0, joins, leaves))
    && (joins == 0 ==> leaves == 0)
  }

  lemma LedgerTallied(db: FraudDb, e: P.Event, c: int, joins: nat, leaves: nat)
    requires e.input.Leave? ==> ValidChoice(db.memberships, e.input.u, e.input.c, e.input.choice)
    requires Tallied(db, c, joins, leaves)
    ensures Tallied(FraudRuns.LedgerPart(db, e), c,
                    joins + Bit(e.input.Join? && e.input.c == c),
                    leaves + Bit(e.input.Leave? && e.input.c == c && joins > 0))
  {
  }

  lemma EventTallied(db: FraudDb, e: P.Event, c: int, joins: nat, leaves: nat)
    requires e.input.Leave? ==> ValidChoice(db.memberships, e.input.u, e.input.c, e.input.choice)
    requires Tallied(db, c, joins, leaves)
    ensures Tallied(P.ApplyDb(db, e), c,
                    joins + Bit(e.input.Join? && e.input.c == c),
                    leaves + Bit(e.input.Leave? && e.input.c == c && joins > 0))
  {
    LedgerTallied(db, e, c, joins, leaves);
    FraudRuns.OnlyLedgerPart(db, e);
  }

  /** In every run the statistics of a community hold the joins of the trace, the leaves
      that came after a first join, and their difference as the member count. */
  lemma {:induction false} StatsFromTrace(es: seq<P.Event>, c: int)
    requires P.ValidRun(es)
    ensures Tallied(P.Run(es).db, c, JoinsOf(es, c), LeavesOf(es, c))
  {
    if |es| > 0 {
      var before, e := P.Run(es[..|es| - 1]), es[|es| - 1];
      StatsFromTrace(es[..|es| - 1], c);
      EventTallied(before.db, e, c, JoinsOf(es[..|es| - 1], c), LeavesOf(es[..|es| - 1], c));
    }
  }

  // ---- every stored snapshot --------------------------------------------------------------------

  predicate Banded(score: int, status: RevenueStatus) {
    && (status == Normal <==> 80 <= score) && (status == Monitored <==> 50 <= score < 80)
    && (status == PartialHold <==> 30 <= score < 50) && (status == Frozen <==> score < 30)
  }

  predicate ScoresCommunity(i: P.Input) { i.Join? || i.Leave? || i.AdminRecalcCommunity? }

  /** Positions of the events that score a community. */
  function Scorings(es: seq<P.Event>): seq<nat> {
    if |es| == 0 then []
    else Scorings(es[..|es| - 1]) + (if ScoresCommunity(es[|es| - 1].input) then [|es| - 1] else [])
  }

  /** Event `i` stored this snapshot: of its community, at its time, by the formula over
      the joins, leaves and members up to and including the event. */
  ghost predicate StoredBy(es: seq<P.Event>, i: nat, s: CommunitySnapshot) {
    && i < |es| && P.ValidRun(es[..i + 1]) && ScoresCommunity(es[i].input)
    && s.communityId == es[i].input.c && s.calculatedAt == es[i].at && Banded(s.score, s.revenueStatus)
    && Recorded(s, P.Run(es[..i + 1]).db, JoinsOf(es[..i + 1], s.communityId), LeavesOf(es[..i + 1], s.communityId))
  }

  /** A snapshot by the formula, over these counts and the members in this store. */
  ghost predicate Recorded(s: CommunitySnapshot, db: FraudDb, joins: nat, leaves: nat) {
    && Formula(s.score, s.breakdown, joins, leaves, s.breakdown.avgMemberQuality)
    && (joins > 0 && joins != leaves ==> TrustIs(db.memberships, db.profiles, s.communityId, s.breakdown.avgMemberQuality))
  }

  ghost predicate AllStored(es: seq<P.Event>, at: seq<nat>, ss: seq<CommunitySnapshot>) {
    |ss| == |at| && forall k :: 0 <= k < |ss| ==> StoredBy(es, at[k], ss[k])
  }

  lemma StoredStays(es: seq<P.Event>, e: P.Event, at: seq<nat>, ss: seq<CommunitySnapshot>)
    requires AllStored(es, at, ss)
    ensures AllStored(es + [e], at, ss)
  {
    forall k | 0 <= k < |ss| ensures StoredBy(es + [e], at[k], ss[k]) {
      assert StoredBy(es, at[k], ss[k]);
      assert (es + [e])[..at[k] + 1] == es[..at[k] + 1];
    }
  }

  lemma StoredSnoc(es: seq<P.Event>, at: seq<nat>, ss: seq<CommunitySnapshot>, i: nat, s: CommunitySnapshot)
    requires AllStored(es, at, ss) && StoredBy(es, i, s)
    ensures AllStored(es, at + [i], ss + [s])
  {
    forall k | 0 <= k < |ss + [s]| ensures StoredBy(es, (at + [i])[k], (ss + [s])[k]) {
      if k < |ss| {
        assert StoredBy(es, at[k], ss[k]);
      }
    }
  }

  /** Statistics of the trace, whatever the scorer then makes of them. */
  lemma ScoreOfTally(db: FraudDb, c: int, joins: nat, leaves: nat)
    requires Tallied(db, c, joins, leaves) && 0.0 <= AvgTrust(db, c) <= 100.0
    ensures Formula(CommunityScore(db, c), Breakdown(db, c), joins, leaves, AvgTrust(db, c))
  {
    if c in db.stats {
      ScoreByFormula(db.stats[c], AvgTrust(db, c));
    }
  }

  lemma TrustInRun(es: seq<P.Event>, c: int)
    requires P.ValidRun(es)
    ensures 0.0 <= AvgTrust(P.Run(es).db, c) <= 100.0
  {
    FraudRuns.ScoresInRangeAfterEveryRun(es);
    var profiles := P.Run(es).db.profiles;
    forall u | u in profiles ensures 0 <= profiles[u].trustScore <= 100 {
      assert FraudRuns.US.ProfileOk(profiles[u]);
    }
    AvgTrustInRange(P.Run(es).db, c);
  }

  lemma SnapshotOfTally(db: FraudDb, c: int, now: int, joins: nat, leaves: nat)
    requires Tallied(db, c, joins, leaves) && 0.0 <= AvgTrust(db, c) <= 100.0
    ensures var s := P.RecalcCommunityDb(db, c, now).communityScores[|db.communityScores|];
      && P.RecalcCommunityDb(db, c, now).communityScores == db.communityScores + [s]
      && s.communityId == c && s.calculatedAt == now && Banded(s.score, s.revenueStatus)
      && Recorded(s, db, joins, leaves)
  {
    ScoreOfTally(db, c, joins, leaves);
    AverageOverMembers(db, c);
  }

  /** The store a community is scored in; scoring it writes a snapshot only. */
  lemma ScoredStore(db: FraudDb, e: P.Event) returns (scored: FraudDb)
    requires e.input.Leave? ==> ValidChoice(db.memberships, e.input.u, e.input.c, e.input.choice)
    requires ScoresCommunity(e.input)
    ensures P.ApplyDb(db, e) == P.RecalcCommunityDb(scored, e.input.c, e.at)
    ensures scored.communityScores == db.communityScores
  {
    var own, user := P.OwnPart(db, e), P.RescoredUser(db, e.input);
    scored := if user.Some? then P.RecalcUserDb(own, user.value, e.at) else own;
  }

  lemma OnlySnapshot(db: FraudDb, c: int, now: int, s: CommunitySnapshot, joins: nat, leaves: nat)
    requires var after := P.RecalcCommunityDb(db, c, now);
      Tallied(after, c, joins, leaves) && 0.0 <= AvgTrust(after, c) <= 100.0
    ensures Tallied(db, c, joins, leaves) && 0.0 <= AvgTrust(db, c) <= 100.0
    ensures Recorded(s, db, joins, leaves) <==> Recorded(s, P.RecalcCommunityDb(db, c, now), joins, leaves)
  {
  }

  lemma NothingStored(db: FraudDb, e: P.Event)
    requires e.input.Leave? ==> ValidChoice(db.memberships, e.input.u, e.input.c, e.input.choice)
    requires !ScoresCommunity(e.input)
    ensures P.ApplyDb(db, e).communityScores == db.communityScores
  {
  }

  lemma EventStores(db: FraudDb, e: P.Event, joins: nat, leaves: nat) returns (s: CommunitySnapshot)
    requires e.input.Leave? ==> ValidChoice(db.memberships, e.input.u, e.input.c, e.input.choice)
    requires ScoresCommunity(e.input)
    requires var after := P.ApplyDb(db, e);
      Tallied(after, e.input.c, joins, leaves) && 0.0 <= AvgTrust(after, e.input.c) <= 100.0
    ensures P.ApplyDb(db, e).communityScores == db.communityScores + [s]
    ensures s.communityId == e.input.c && s.calculatedAt == e.at && Banded(s.score, s.revenueStatus)
    ensures Recorded(s, P.ApplyDb(db, e), joins, leaves)
  {
    var c := e.input.c;
    var scored := ScoredStore(db, e);
    s := P.RecalcCommunityDb(scored, c, e.at).communityScores[|db.communityScores|];
    OnlySnapshot(scored, c, e.at, s, joins, leaves);
    SnapshotOfTally(scored, c, e.at, joins, leaves);
  }

  lemma LastStores(es: seq<P.Event>) returns (s: CommunitySnapshot)
    requires P.ValidRun(es) && |es| > 0 && ScoresCommunity(es[|es| - 1].input)
    ensures P.Run(es).db.communityScores == P.Run(es[..|es| - 1]).db.communityScores + [s]
    ensures StoredBy(es, |es| - 1, s)
  {
    var db, e := P.Run(es[..|es| - 1]).db, es[|es| - 1];
    var joins, leaves := JoinsOf(es, e.input.c), LeavesOf(es, e.input.c);
    StatsFromTrace(es, e.input.c);
    TrustInRun(es, e.input.c);
    s := EventStores(db, e, joins, leaves);
    assert es[..|es|] == es;
  }

  /** In every run the snapshots stored for communities are, in order, one for each join,
      leave and community recalculation, of that community and time, with every rate, the
      score and its status as the formula has them. */
  lemma {:induction false} SnapshotsFromTrace(es: seq<P.Event>)
    requires P.ValidRun(es)
    ensures AllStored(es, Scorings(es), P.Run(es).db.communityScores)
  {
    if |es| > 0 {
      var n, ss := |es| - 1, P.Run(es[..|es| - 1]).db.communityScores;
      SnapshotsFromTrace(es[..n]);
      StoredStays(es[..n], es[n], Scorings(es[..n]), ss);
      HeadAndLast(es);
      if ScoresCommunity(es[n].input) {
        var s := LastStores(es);
        StoredSnoc(es, Scorings(es[..n]), ss, n, s);
      } else {
        NothingStored(P.Run(es[..n]).db, es[n]);
      }
    }
  }

  // ---- every message ------------------------------------------------------------------------------

  /** The multiplier announced with a score. */
  predicate Rated(m: ScoreMessage) {
    && Banded(m.score, m.revenueStatus)
    && (m.multiplier == 1.0 <==> 80 <= m.score) && (m.multiplier == 0.8 <==> 50 <= m.score < 80)
    && (m.multiplier == 0.5 <==> 30 <= m.score < 50) && (m.multiplier == 0.0 <==> m.score < 30)
  }

  lemma NewsRated(c: int, score: int)
    ensures Rated(P.ScoreNews(c, score))
  {
  }

  /** In every run each message carries the status and multiplier of its score. */
  lemma {:induction false} MessagesAreRated(es: seq<P.Event>)
    requires P.ValidRun(es)
    ensures forall k :: 0 <= k < |P.Run(es).outbox| ==> Rated(P.Run(es).outbox[k])
  {
    if |es| > 0 {
      MessagesAreRated(es[..|es| - 1]);
      var before, after, i := P.Run(es[..|es| - 1]), P.Run(es), es[|es| - 1].input;
      if after.outbox != before.outbox {
        assert after.outbox == before.outbox + [P.ScoreNews(i.c, P.LastScore(after.db))];
        NewsRated(i.c, P.LastScore(after.db));
      }
    }
  }
}
