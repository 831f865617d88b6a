/** A leave never helps the user who leaves, nor anyone else: comparing the trust
    score computed at any later instant with and without the leave. */
module LeaveMonotone {
  import opened Seqs
  import opened Numbers
  import opened FraudModels
  import opened FraudStore
  import opened Processor
  import opened UserScorer
  import R = FraudRuns

  /** `b` is `a`, or `a` closed so that it lasts no longer at any instant from `now` on. */
  ghost predicate Weaker(a: Membership, b: Membership, now: int) {
    || a == b
    || (&& IsOpen(a) && !IsOpen(b)
        && b.userId == a.userId && b.communityId == a.communityId && b.joinedAt == a.joinedAt
        && forall t :: t >= now ==> b.DurationDays(t) <= a.DurationDays(t))
  }

  ghost predicate AllWeaker(s: seq<Membership>, t: seq<Membership>, now: int) {
    |s| == |t| && forall i :: 0 <= i < |s| ==> Weaker(s[i], t[i], now)
  }

  /** Closing any open record with the duration measured on the latest one. */
  lemma ClosingWeakens(ms: seq<Membership>, u: int, c: int, now: int, choice: LeaveChoice)
    requires ValidChoice(ms, u, c, choice) && R.RecordsOk(ms, now)
    ensures AllWeaker(ms, CloseChosen(ms, u, c, now, choice), now)
  {
    if choice.Picked? {
      var m, a := ms[choice.measured], ms[choice.closed];
      var b := CloseChosen(ms, u, c, now, choice)[choice.closed];
      assert R.RecordOk(m, now) && R.RecordOk(a, now);
      assert a.joinedAt <= m.joinedAt;
      forall t | t >= now ensures b.DurationDays(t) <= a.DurationDays(t) {
        assert b.durationSec * SECOND <= t - a.joinedAt;
        DaysOfSeconds(b.durationSec, t - a.joinedAt);
      }
    }
  }

  lemma DaysOfSeconds(d: int, elapsed: int)
    requires d * SECOND <= elapsed
    ensures d as real / 86400.0 <= elapsed as real / DAY as real
  {
    assert d as real * SECOND as real <= elapsed as real;
  }

  lemma {:induction false} WeakerRecent(s: seq<Membership>, t: seq<Membership>, now: int, p: Membership -> bool)
    requires AllWeaker(s, t, now)
    requires forall a, b :: Weaker(a, b, now) ==> p(a) == p(b)
    ensures AllWeaker(Filter(s, p), Filter(t, p), now)
  {
    if |s| > 0 {
      var n := |s| - 1;
      WeakerRecent(s[..n], t[..n], now, p);
      assert Weaker(s[n], t[n], now);
    }
  }

  lemma {:induction false} WeakerSums(s: seq<Membership>, t: seq<Membership>, now: int, at: int)
    requires AllWeaker(s, t, now) && now <= at
    ensures Sum(t, DaysAt(at)) <= Sum(s, DaysAt(at))
    ensures Count(t, OpenOnly()) <= Count(s, OpenOnly())
  {
    if |s| > 0 {
      var n := |s| - 1;
      WeakerSums(s[..n], t[..n], now, at);
      assert Weaker(s[n], t[n], now);
    }
  }

  lemma WeakerCommunities(s: seq<Membership>, t: seq<Membership>, now: int)
    requires AllWeaker(s, t, now)
    ensures Communities(s) == Communities(t)
  {
    forall c | c in Communities(s) ensures c in Communities(t) {
      var i :| 0 <= i < |s| && s[i].communityId == c;
      assert Weaker(s[i], t[i], now) && t[i] in t;
    }
    forall c | c in Communities(t) ensures c in Communities(s) {
      var i :| 0 <= i < |t| && t[i].communityId == c;
      assert Weaker(s[i], t[i], now) && s[i] in s;
    }
  }

  lemma LeaveBandFalls(joins: int, leaves: int)
    requires joins >= 0
    ensures JoinLeaveBand(joins, leaves + 1) <= JoinLeaveBand(joins, leaves)
  {
    if joins > 0 {
      QuotientMonotone(leaves as real, (leaves + 1) as real, joins as real);
    }
  }

  /** Factor by factor: duration, ratio and retention can only fall, the rest stays. */
  lemma WeakerBreakdown(p: Profile, q: Profile, s: seq<Membership>, t: seq<Membership>, days: nat, now: int, at: int)
    requires AllWeaker(s, t, now) && now <= at && p.totalJoins >= 0
    requires q == p || q == p.(totalLeaves := p.totalLeaves + 1)
    ensures var a, b := Breakdown(p, s, days, at), Breakdown(q, t, days, at);
      && b.membershipDuration <= a.membershipDuration && b.joinLeaveRatio <= a.joinLeaveRatio
      && b.retentionScore <= a.retentionScore && b.diversityScore == a.diversityScore
      && b.activityScore == a.activityScore && b.adQualityScore == a.adQualityScore
  {
    WeakerSums(s, t, now, at);
    WeakerCommunities(s, t, now);
    LeaveBandFalls(p.totalJoins, p.totalLeaves);
    if |s| > 0 {
      QuotientMonotone(Sum(t, DaysAt(at)), Sum(s, DaysAt(at)), |s| as real);
      QuotientMonotone(Count(t, OpenOnly()) as real, Count(s, OpenOnly()) as real, |s| as real);
    }
  }

  lemma LowerTotalLowerScore(x: real, y: real, p: Profile, q: Profile)
    requires x <= y && q.hasPhoto == p.hasPhoto && q.username == p.username && q.isBot == p.isBot
    ensures MaxInt(Penalized(Trunc(MinReal(x, 100.0)), q), 0) <= MaxInt(Penalized(Trunc(MinReal(y, 100.0)), p), 0)
  {
    TruncMonotone(MinReal(x, 100.0), MinReal(y, 100.0));
    PenaltyMonotone(Trunc(MinReal(x, 100.0)), Trunc(MinReal(y, 100.0)), p);
  }

  /** A leave of `u` processed at `now`, matched or spurious and whichever open
      record the update closes, raises no user's trust score at any `at >= now`. */
  lemma LeaveNeverRaisesTrust(db: FraudDb, u: int, c: int, now: int, choice: LeaveChoice, v: int, at: int)
    requires R.RecordsOk(db.memberships, now) && R.ProfilesOk(db)
    requires ValidChoice(db.memberships, u, c, choice) && now <= at
    ensures UserScore(LeaveDb(db, u, c, now, choice), v, at) <= UserScore(db, v, at)
  {
    var after := LeaveDb(db, u, c, now, choice);
    ClosingWeakens(db.memberships, u, c, now, choice);
    WeakerRecent(db.memberships, after.memberships, now, JoinedSince(v, at - 90 * DAY));
    if v in db.profiles {
      var p, q := db.profiles[v], after.profiles[v];
      assert ProfileOk(p);
      var days := ActivityDays(db, v, at - 30 * DAY);
      assert ActivityDays(after, v, at - 30 * DAY) == days;
      WeakerBreakdown(p, q, Recent(db, v, at), Recent(after, v, at), days, now, at);
      LowerTotalLowerScore(Total(UserBreakdown(after, v, at)), Total(UserBreakdown(db, v, at)), p, q);
    }
  }

  /** The same on whole runs: in every reachable state, for every leave. */
  lemma LeaveNeverRaisesTrustInAnyRun(es: seq<Event>, u: int, c: int, now: int, choice: LeaveChoice, v: int, at: int)
    requires ValidRun(es) && Enabled(Run(es), Event(now, Leave(u, c, choice))) && now <= at
    ensures UserScore(LeaveDb(Run(es).db, u, c, now, choice), v, at) <= UserScore(Run(es).db, v, at)
  {
    R.RecordsAfterEveryRun(es);
    R.ScoresInRangeAfterEveryRun(es);
    var ms := Run(es).db.memberships;
    forall k | 0 <= k < |ms| ensures R.RecordOk(ms[k], now) {
      assert R.RecordOk(ms[k], Run(es).clock);
    }
    LeaveNeverRaisesTrust(Run(es).db, u, c, now, choice, v, at);
  }
}
