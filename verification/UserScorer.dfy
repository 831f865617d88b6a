/** The user trust score (fraud-engine/internal/scorer/user_scorer.go). */
module UserScorer {
  import opened Seqs
  import opened Numbers
  import opened FraudModels
  import opened FraudStore

  // ---- what the helpers compute ---------------------------------------------

  function DaysAt(now: int): Membership -> real { (m: Membership) => m.DurationDays(now) }

  function AvgDays(ms: seq<Membership>, now: int): real {
    if |ms| == 0 then 0.0 else Sum(ms, DaysAt(now)) / |ms| as real
  }

  function Retention(ms: seq<Membership>): real {
    if |ms| == 0 then 10.0 else Count(ms, OpenOnly()) as real / |ms| as real * 20.0
  }

  function Communities(ms: seq<Membership>): set<int> {
    set m | m in ms :: m.communityId
  }

  // ---- bands ------------------------------------------------------------------

  function DurationBand(avg: real): real {
    if avg >= 30.0 then 25.0 else if avg >= 14.0 then 20.0 else if avg >= 7.0 then 15.0
    else if avg >= 3.0 then 10.0 else if avg >= 1.0 then 5.0 else 0.0
  }

  function JoinLeaveBand(joins: int, leaves: int): real {
    if joins == 0 then 10.0
    else
      var ratio := leaves as real / joins as real;
      if ratio > 0.9 then 0.0 else if ratio > 0.7 then 5.0 else if ratio > 0.5 then 10.0
      else if ratio > 0.3 then 15.0 else 20.0
  }

  function DiversityBand(n: nat): real {
    if n == 0 then 0.0 else if n <= 2 then 3.0 else if n <= 5 then 7.0 else if n > 20 then 3.0 else 10.0
  }

  function AdBand(p: Profile): real {
    if p.totalCampaigns > 0 then p.adCompletions as real / p.totalCampaigns as real * 5.0 else 0.0
  }

  // ---- the score ----------------------------------------------------------------

  function Breakdown(p: Profile, recent: seq<Membership>, activeDays: nat, now: int): ScoreBreakdown {
    ScoreBreakdown(
      DurationBand(AvgDays(recent, now)),
      JoinLeaveBand(p.totalJoins, p.totalLeaves),
      MinReal(activeDays as real * 0.67, 20.0),
      Retention(recent),
      DiversityBand(|Communities(recent)|),
      AdBand(p))
  }

  function Total(b: ScoreBreakdown): real {
    b.membershipDuration + b.joinLeaveRatio + b.activityScore + b.retentionScore + b.diversityScore + b.adQualityScore
  }

  /** The truncating reductions for incomplete profiles and bots. */
  function Penalized(score: int, p: Profile): int {
    var s := if !p.hasPhoto && p.username == "" then Trunc(score as real * 0.85) else score;
    if p.isBot then Trunc(s as real * 0.5) else s
  }

  function Recent(db: FraudDb, u: int, now: int): seq<Membership> {
    Filter(db.memberships, JoinedSince(u, now - 90 * DAY))
  }

  function UserBreakdown(db: FraudDb, u: int, now: int): ScoreBreakdown {
    if u !in db.profiles then ScoreBreakdown(0.0, 0.0, 0.0, 0.0, 0.0, 0.0)
    else Breakdown(db.profiles[u], Recent(db, u, now), ActivityDays(db, u, now - 30 * DAY), now)
  }

  function UserScore(db: FraudDb, u: int, now: int): int {
    if u !in db.profiles then 50
    else MaxInt(Penalized(Trunc(MinReal(Total(UserBreakdown(db, u, now)), 100.0)), db.profiles[u]), 0)
  }

  // ---- the scorer -----------------------------------------------------------------

  method AvgMembershipDays(ms: seq<Membership>, now: int) returns (avg: real)
    ensures avg == AvgDays(ms, now)
  {
    if |ms| == 0 {
      return 0.0;
    }
    var total := 0.0;
    for i := 0 to |ms|
      invariant total == Sum(ms[..i], DaysAt(now))
    {
      SumSnoc(ms[..i], ms[i], DaysAt(now));
      assert ms[..i + 1] == ms[..i] + [ms[i]];
      total := total + ms[i].DurationDays(now);
    }
    assert ms[..|ms|] == ms;
    avg := total / |ms| as real;
  }

  method CalcRetentionScore(ms: seq<Membership>) returns (score: real)
    ensures score == Retention(ms)
  {
    if |ms| == 0 {
      return 10.0;
    }
    var active := 0;
    for i := 0 to |ms|
      invariant active == Count(ms[..i], OpenOnly())
    {
      FilterSnoc(ms[..i], ms[i], OpenOnly());
      assert ms[..i + 1] == ms[..i] + [ms[i]];
      if ms[i].leftAt.None? {
        active := active + 1;
      }
    }
    assert ms[..|ms|] == ms;
    var ratio := active as real / |ms| as real;
    score := ratio * 20.0;
  }

  method UniqueCommunities(ms: seq<Membership>) returns (ids: set<int>)
    ensures ids == Communities(ms)
  {
    ids := {};
    for i := 0 to |ms|
      invariant ids == Communities(ms[..i])
    {
      assert ms[..i + 1] == ms[..i] + [ms[i]];
      ids := ids + {ms[i].communityId};
    }
    assert ms[..|ms|] == ms;
  }

  // Factors 1, 2, 5 and 6 and the final reductions of `Calculate`, each on its own.

  method DurationFactor(ms: seq<Membership>, now: int) returns (score: real)
    ensures score == DurationBand(AvgDays(ms, now))
  {
    var avg := AvgMembershipDays(ms, now);
    if avg >= 30.0 {
      score := 25.0;
    } else if avg >= 14.0 {
      score := 20.0;
    } else if avg >= 7.0 {
      score := 15.0;
    } else if avg >= 3.0 {
      score := 10.0;
    } else if avg >= 1.0 {
      score := 5.0;
    } else {
      score := 0.0;
    }
  }

  method DiversityFactor(ms: seq<Membership>) returns (score: real)
    ensures score == DiversityBand(|Communities(ms)|)
  {
    var ids := UniqueCommunities(ms);
    var n := |ids|;
    score :=
      if n == 0 then 0.0
      else if n == 1 || n == 2 then 3.0
      else if n == 3 || n == 4 || n == 5 then 7.0
      else if n > 20 then 3.0
      else 10.0;
  }

  method JoinLeaveFactor(p: Profile) returns (score: real)
    ensures score == JoinLeaveBand(p.totalJoins, p.totalLeaves)
  {
    if p.totalJoins == 0 {
      return 10.0;
    }
    var ratio := p.totalLeaves as real / p.totalJoins as real;
    if ratio > 0.9 {
      score := 0.0;
    } else if ratio > 0.7 {
      score := 5.0;
    } else if ratio > 0.5 {
      score := 10.0;
    } else if ratio > 0.3 {
      score := 15.0;
    } else {
      score := 20.0;
    }
  }

  method AdFactor(p: Profile) returns (score: real)
    ensures score == AdBand(p)
  {
    score := 0.0;
    if p.totalCampaigns > 0 {
      var completionRate := p.adCompletions as real / p.totalCampaigns as real;
      score := completionRate * 5.0;
    }
  }

  method Reduce(score: int, p: Profile) returns (reduced: int)
    ensures reduced == Penalized(score, p)
  {
    reduced := score;
    if !p.hasPhoto && p.username == "" {
      reduced := Trunc(reduced as real * 0.85);
    }
    if p.isBot {
      reduced := Trunc(reduced as real * 0.5);
    }
  }

  class Scorer {
    const store: Store

    constructor (store: Store)
      ensures this.store == store
    {
      this.store := store;
    }

    method Calculate(u: int, now: int) returns (score: int, breakdown: ScoreBreakdown)
      ensures score == UserScore(store.Db(), u, now)
      ensures breakdown == UserBreakdown(store.Db(), u, now)
    {
      breakdown := ScoreBreakdown(0.0, 0.0, 0.0, 0.0, 0.0, 0.0);
      var found := store.GetProfile(u);
      if found.None? {
        return 50, breakdown;
      }
      var profile := found.value;

      var memberships := store.GetRecentMemberships(u, now - 90 * DAY);
      var durationScore := DurationFactor(memberships, now);
      breakdown := breakdown.(membershipDuration := durationScore);

      var joinLeaveScore := JoinLeaveFactor(profile);
      breakdown := breakdown.(joinLeaveRatio := joinLeaveScore);

      var activeDays := store.GetActivityDays(u, now - 30 * DAY);
      var activityScore := MinReal(activeDays as real * 0.67, 20.0);
      breakdown := breakdown.(activityScore := activityScore);

      var retentionScore := CalcRetentionScore(memberships);
      breakdown := breakdown.(retentionScore := retentionScore);

      var diversityScore := DiversityFactor(memberships);
      breakdown := breakdown.(diversityScore := diversityScore);

      var adScore := AdFactor(profile);
      breakdown := breakdown.(adQualityScore := adScore);
      var total := durationScore + joinLeaveScore + activityScore + retentionScore + diversityScore + adScore;
      score := Trunc(MinReal(total, 100.0));
      score := Reduce(score, profile);
      score := MaxInt(score, 0);
    }
  }

  // ---- ranges -------------------------------------------------------------------

  predicate ProfileOk(p: Profile) {
    && 0 <= p.adCompletions <= p.totalCampaigns
    && 0 <= p.totalJoins && 0 <= p.totalLeaves
    && 0 <= p.trustScore <= 100
  }

  lemma ShareInUnit(a: int, b: int)
    requires 0 <= a <= b && b > 0
    ensures 0.0 <= a as real / b as real <= 1.0
  {
  }

  /** Every component respects its documented range, hence the total cannot pass 100. */
  lemma BreakdownInRange(p: Profile, recent: seq<Membership>, activeDays: nat, now: int)
    requires ProfileOk(p)
    ensures var b := Breakdown(p, recent, activeDays, now);
      && 0.0 <= b.membershipDuration <= 25.0 && 0.0 <= b.joinLeaveRatio <= 20.0
      && 0.0 <= b.activityScore <= 20.0 && 0.0 <= b.retentionScore <= 20.0
      && 0.0 <= b.diversityScore <= 10.0 && 0.0 <= b.adQualityScore <= 5.0
      && 0.0 <= Total(b) <= 100.0
  {
    CountAtMost(recent, OpenOnly());
    if |recent| > 0 {
      ShareInUnit(Count(recent, OpenOnly()), |recent|);
    }
    if p.totalCampaigns > 0 {
      ShareInUnit(p.adCompletions, p.totalCampaigns);
    }
  }

  lemma PenaltyMonotone(a: int, b: int, p: Profile)
    requires a <= b
    ensures Penalized(a, p) <= Penalized(b, p)
    ensures a >= 0 ==> 0 <= Penalized(a, p) <= a
  {
    TruncMonotone(a as real * 0.85, b as real * 0.85);
    var a1 := if !p.hasPhoto && p.username == "" then Trunc(a as real * 0.85) else a;
    var b1 := if !p.hasPhoto && p.username == "" then Trunc(b as real * 0.85) else b;
    TruncMonotone(a1 as real * 0.5, b1 as real * 0.5);
  }

  /** The score is in 0..100 and neither the cap at 100 nor the floor at 0 ever acts. */
  lemma UserScoreInRange(db: FraudDb, u: int, now: int)
    requires u in db.profiles ==> ProfileOk(db.profiles[u])
    ensures 0 <= UserScore(db, u, now) <= 100
    ensures u in db.profiles ==>
      UserScore(db, u, now) == Penalized(Trunc(Total(UserBreakdown(db, u, now))), db.profiles[u])
  {
    if u in db.profiles {
      BreakdownInRange(db.profiles[u], Recent(db, u, now), ActivityDays(db, u, now - 30 * DAY), now);
      var total := Total(UserBreakdown(db, u, now));
      TruncBounds(total, 0, 100);
      PenaltyMonotone(Trunc(total), Trunc(total), db.profiles[u]);
    }
  }
}
