/** The community quality score (fraud-engine/internal/scorer/community_scorer.go). */
module CommunityScorer {
  import opened Seqs
  import opened Numbers
  import opened FraudModels
  import opened FraudStore

  function RetentionRate(st: Stats): real {
    if st.totalJoins == 0 then 0.5
    else MinReal(st.memberCount as real / st.totalJoins as real, 1.0)
  }

  function ActivityRate(st: Stats): real {
    if st.memberCount > 0 then st.activeMembers as real / st.memberCount as real else 0.0
  }

  function LeaveRate(st: Stats): real {
    if st.totalJoins > 0 then st.totalLeaves as real / st.totalJoins as real else 0.0
  }

  function RatioBand(ratio: real): real {
    if ratio > 0.9 then 0.0 else if ratio > 0.7 then 3.0 else if ratio > 0.5 then 6.0 else 10.0
  }

  function LeaveBand(st: Stats): real {
    if st.totalJoins > 0 then RatioBand(LeaveRate(st)) else 5.0
  }

  function Total(st: Stats, avgTrust: real): real {
    RetentionRate(st) * 30.0 + MinReal(ActivityRate(st) * 20.0, 20.0) + avgTrust * 0.30 + LeaveBand(st) + 5.0
  }

  /** The score of a community with these statistics and this average trust. */
  function Score(st: Stats, avgTrust: real): int {
    if st.memberCount == 0 then 50 else MaxInt(Trunc(MinReal(Total(st, avgTrust), 100.0)), 0)
  }

  function StatsBreakdown(st: Stats, avgTrust: real): CommunityBreakdown {
    if st.memberCount == 0 then CommunityBreakdown(0.0, 0.0, 0.0, 0.0, 0.0)
    else CommunityBreakdown(RetentionRate(st), ActivityRate(st), avgTrust, LeaveRate(st), 0.5)
  }

  function CommunityScore(db: FraudDb, c: int): int {
    if c !in db.stats then 50 else Score(db.stats[c], AvgTrust(db, c))
  }

  function Breakdown(db: FraudDb, c: int): CommunityBreakdown {
    if c !in db.stats then CommunityBreakdown(0.0, 0.0, 0.0, 0.0, 0.0)
    else StatsBreakdown(db.stats[c], AvgTrust(db, c))
  }

  method JoinLeaveFactor(st: Stats) returns (score: real, rate: real)
    ensures score == LeaveBand(st) && rate == LeaveRate(st)
  {
    rate := 0.0;
    if st.totalJoins > 0 {
      rate := st.totalLeaves as real / st.totalJoins as real;
      if rate > 0.9 {
        score := 0.0;
      } else if rate > 0.7 {
        score := 3.0;
      } else if rate > 0.5 {
        score := 6.0;
      } else {
        score := 10.0;
      }
    } else {
      score := 5.0;
    }
  }

  method ActivityFactor(st: Stats) returns (score: real, rate: real)
    ensures rate == ActivityRate(st) && score == MinReal(rate * 20.0, 20.0)
  {
    rate := 0.0;
    if st.memberCount > 0 {
      rate := st.activeMembers as real / st.memberCount as real;
    }
    score := MinReal(rate * 20.0, 20.0);
  }

  class Scorer {
    const store: Store

    constructor (store: Store)
      ensures this.store == store
    {
      this.store := store;
    }

    method Calculate(c: int) returns (score: int, breakdown: CommunityBreakdown)
      ensures score == CommunityScore(store.Db(), c)
      ensures breakdown == Breakdown(store.Db(), c)
    {
      breakdown := CommunityBreakdown(0.0, 0.0, 0.0, 0.0, 0.0);
      var found := store.GetCommunityStats(c);
      if found.None? || found.value.memberCount == 0 {
        return 50, breakdown;
      }
      var stats := found.value;

      var retentionRate := RetentionRate(stats);
      var retentionScore := retentionRate * 30.0;
      breakdown := breakdown.(retentionRate := retentionRate);

      var activityScore, activityRate := ActivityFactor(stats);
      breakdown := breakdown.(activityRate := activityRate);

      var avgTrust := store.GetAvgTrustScore(c);
      var memberQualityScore := avgTrust * 0.30;
      breakdown := breakdown.(avgMemberQuality := avgTrust);

      var joinLeaveScore, leaveRate := JoinLeaveFactor(stats);
      breakdown := breakdown.(joinLeaveRate := leaveRate);

      var adConversionScore := 5.0;
      breakdown := breakdown.(adConversionRate := 0.5);

      var total := retentionScore + activityScore + memberQualityScore + joinLeaveScore + adConversionScore;
      score := MaxInt(Trunc(MinReal(total, 100.0)), 0);
    }
  }

  // ---- what the ledger invariant makes of the score -------------------------

  lemma PartAndRest(part: real, rest: real, whole: real)
    requires whole > 0.0 && part + rest == whole && rest >= 0.0
    ensures part / whole == 1.0 - rest / whole && rest / whole >= 0.0
  {
    AddQuotients(part, rest, whole);
    SelfQuotient(whole);
    QuotientSign(rest, whole);
  }

  lemma Shares(st: Stats)
    requires st.Ok()
    ensures st.memberCount as real / st.totalJoins as real == 1.0 - st.totalLeaves as real / st.totalJoins as real
    ensures st.totalLeaves as real / st.totalJoins as real >= 0.0
  {
    PartAndRest(st.memberCount as real, st.totalLeaves as real, st.totalJoins as real);
  }

  /** Retention and leave rate are one quantity: they add up to exactly 1 whenever
      a score is computed, the cap on retention never acts, and the two branches
      for a community without joins are never taken. */
  lemma RetentionPlusLeaveRateIsOne(st: Stats, avgTrust: real)
    requires st.Ok() && st.memberCount != 0
    ensures StatsBreakdown(st, avgTrust).retentionRate + StatsBreakdown(st, avgTrust).joinLeaveRate == 1.0
    ensures RetentionRate(st) == st.memberCount as real / st.totalJoins as real
    ensures st.totalJoins > 0
  {
    Shares(st);
  }

  /** The score is in range whatever the sign of the member count; and since no
      path ever counts an active member it stops at 75, below the full-payout band. */
  lemma CommunityScoreInRange(st: Stats, avgTrust: real)
    requires st.Ok() && 0.0 <= avgTrust <= 100.0
    ensures 0 <= Score(st, avgTrust) <= 75
    ensures st.memberCount != 0 ==> Total(st, avgTrust) <= 75.0
    ensures RevenueMultiplier(Score(st, avgTrust)) <= 0.8
  {
    Shares(st);
    if st.memberCount != 0 {
      assert RetentionRate(st) <= 1.0 && LeaveBand(st) <= 10.0;
      assert ActivityRate(st) == 0.0;
      var total := Total(st, avgTrust);
      assert total <= 75.0;
      TruncMonotone(MinReal(total, 100.0), 75.0);
      TruncInt(75);
    }
  }

  lemma LeaveLowersRates(st: Stats)
    requires st.Ok()
    ensures st.AfterLeave().Ok()
    ensures RetentionRate(st.AfterLeave()) <= RetentionRate(st)
    ensures LeaveBand(st.AfterLeave()) <= LeaveBand(st)
    ensures LeaveRate(st.AfterLeave()) >= LeaveRate(st)
  {
    Shares(st);
    Shares(st.AfterLeave());
    LeaveRateGrows(st.totalLeaves, st.totalJoins);
  }

  lemma LeaveRateGrows(l: int, j: int)
    requires j >= 1
    ensures (l + 1) as real / j as real >= l as real / j as real
  {
    QuotientMonotone(l as real, (l + 1) as real, j as real);
  }

  /** Below zero members the score is well under the neutral 50. */
  lemma NegativeCountScoresLow(st: Stats, avgTrust: real)
    requires st.Ok() && st.memberCount < 0 && avgTrust <= 100.0
    ensures Score(st, avgTrust) <= 35
  {
    Shares(st);
    NegativeShare(st.memberCount, st.totalJoins);
    assert RetentionRate(st) <= 0.0 && LeaveBand(st) == 0.0;
    assert Total(st, avgTrust) <= 35.0;
    TruncMonotone(MinReal(Total(st, avgTrust), 100.0), 35.0);
    TruncInt(35);
  }

  lemma NegativeShare(a: int, b: int)
    requires a < 0 && b >= 1
    ensures a as real / b as real <= 0.0
  {
    QuotientSign(a as real, b as real);
  }

  /** A community down to its last member after `totalJoins` joins scores below 50:
      certainly from four joins on, with fewer only below a bound on the trust. */
  predicate LastMemberScoresLow(totalJoins: int, avgTrust: real) {
    || totalJoins >= 4
    || (totalJoins == 3 && 3.0 * avgTrust < 290.0)
    || (totalJoins == 2 && 3.0 * avgTrust < 200.0)
    || (totalJoins == 1 && 3.0 * avgTrust < 50.0)
  }

  lemma LastMemberRates(st: Stats)
    requires st.Ok() && st.memberCount == 1
    ensures st.totalLeaves == st.totalJoins - 1 && ActivityRate(st) == 0.0
    ensures RetentionRate(st) == 1.0 / st.totalJoins as real
    ensures LeaveRate(st) == 1.0 - 1.0 / st.totalJoins as real
  {
    Shares(st);
  }

  lemma PartOfFour(j: real)
    requires j >= 4.0
    ensures 0.0 < 1.0 / j <= 0.25
  {
    QuotientSign(1.0, j);
    QuotientMonotone(1.0, j / 4.0, j);
    QuotientIs(j / 4.0, j, 0.25);
  }

  lemma SmallParts(j: int)
    requires 1 <= j <= 3
    ensures j == 1 ==> 1.0 / j as real == 1.0
    ensures j == 2 ==> 1.0 / j as real == 0.5
    ensures j == 3 ==> 1.0 / j as real == 1.0 / 3.0
  {
  }

  /** The total of a lone member whose share of the joins is `r`. */
  function LoneTotal(r: real, avgTrust: real): real {
    r * 30.0 + avgTrust * 0.30 + RatioBand(1.0 - r) + 5.0
  }

  lemma LoneTotalLow(j: int, r: real, avgTrust: real)
    requires 0.0 <= avgTrust <= 100.0
    requires (j == 1 && r == 1.0) || (j == 2 && r == 0.5) || (j == 3 && r == 1.0 / 3.0) || (j >= 4 && 0.0 < r <= 0.25)
    ensures 0.0 <= LoneTotal(r, avgTrust)
    ensures LoneTotal(r, avgTrust) < 50.0 <==> LastMemberScoresLow(j, avgTrust)
  {
  }

  lemma LoneShare(j: int, r: real)
    requires j >= 1 && r == 1.0 / j as real
    ensures (j == 1 && r == 1.0) || (j == 2 && r == 0.5) || (j == 3 && r == 1.0 / 3.0) || (j >= 4 && 0.0 < r <= 0.25)
  {
    if j <= 3 {
      SmallParts(j);
    } else {
      PartOfFour(j as real);
    }
  }

  lemma TotalOfLone(st: Stats, r: real, avgTrust: real)
    requires st.Ok() && st.memberCount == 1 && r == 1.0 / st.totalJoins as real
    ensures Total(st, avgTrust) == LoneTotal(r, avgTrust)
  {
    LastMemberRates(st);
  }

  lemma LastMemberTotal(st: Stats, avgTrust: real)
    requires st.Ok() && st.memberCount == 1 && 0.0 <= avgTrust <= 100.0
    ensures 0.0 <= Total(st, avgTrust)
    ensures Total(st, avgTrust) < 50.0 <==> LastMemberScoresLow(st.totalJoins, avgTrust)
  {
    var r := 1.0 / st.totalJoins as real;
    LoneShare(st.totalJoins, r);
    TotalOfLone(st, r, avgTrust);
    LoneTotalLow(st.totalJoins, r, avgTrust);
  }

  lemma LastMemberScore(st: Stats, avgTrust: real)
    requires st.Ok() && st.memberCount == 1 && 0.0 <= avgTrust <= 100.0
    ensures Score(st, avgTrust) < 50 <==> LastMemberScoresLow(st.totalJoins, avgTrust)
  {
    var total := Total(st, avgTrust);
    LastMemberTotal(st, avgTrust);
    CommunityScoreInRange(st, avgTrust);
    if total >= 50.0 {
      TruncMonotone(50.0, MinReal(total, 100.0));
      TruncInt(50);
    } else {
      assert total.Floor as real <= total;
    }
  }

  /** With the average trust held fixed a leave raises the community score in
      exactly one situation: the last member leaves, and the counters and the trust
      say that this member alone scores below the neutral 50. */
  lemma LeaveRaisesScoreIff(st: Stats, avgTrust: real)
    requires st.Ok() && 0.0 <= avgTrust <= 100.0
    ensures Score(st.AfterLeave(), avgTrust) > Score(st, avgTrust)
      <==> st.memberCount == 1 && LastMemberScoresLow(st.totalJoins, avgTrust)
  {
    var after := st.AfterLeave();
    LeaveLowersRates(st);
    if st.memberCount == 0 {
      NegativeCountScoresLow(after, avgTrust);
    } else if st.memberCount == 1 {
      LastMemberScore(st, avgTrust);
    } else {
      assert ActivityRate(st) == 0.0 == ActivityRate(after);
      assert Total(after, avgTrust) <= Total(st, avgTrust);
      TruncMonotone(MinReal(Total(after, avgTrust), 100.0), MinReal(Total(st, avgTrust), 100.0));
    }
  }

  // ---- the average ---------------------------------------------------------------

  lemma {:induction false} MemberTrustInRange(ms: seq<Membership>, profiles: map<int, Profile>, c: int)
    requires forall u :: u in profiles ==> 0 <= profiles[u].trustScore <= 100
    ensures var t := MemberTrust(ms, profiles, c);
      0.0 <= Sum(t, AsReal()) <= 100.0 * |t| as real
  {
    if |ms| > 0 {
      var m := ms[|ms| - 1];
      var t := MemberTrust(ms[..|ms| - 1], profiles, c);
      MemberTrustInRange(ms[..|ms| - 1], profiles, c);
      if m.communityId == c && IsOpen(m) && m.userId in profiles {
        SumSnoc(t, profiles[m.userId].trustScore, AsReal());
      } else {
        assert t + [] == t;
      }
    }
  }

  lemma AvgTrustInRange(db: FraudDb, c: int)
    requires forall u :: u in db.profiles ==> 0 <= db.profiles[u].trustScore <= 100
    ensures 0.0 <= AvgTrust(db, c) <= 100.0
  {
    MemberTrustInRange(db.memberships, db.profiles, c);
    var t := MemberTrust(db.memberships, db.profiles, c);
    if |t| > 0 {
      AverageBound(Sum(t, AsReal()), |t|);
    }
  }

  lemma AverageBound(total: real, n: nat)
    requires n > 0 && 0.0 <= total <= 100.0 * n as real
    ensures 0.0 <= total / n as real <= 100.0
  {
    QuotientSign(total, n as real);
    QuotientMonotone(total, 100.0 * n as real, n as real);
    QuotientIs(100.0 * n as real, n as real, 100.0);
  }
}
