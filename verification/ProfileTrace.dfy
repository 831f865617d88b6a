/** Every field of a stored profile, and the activity documents, from the events of the
    trace. */
module ProfileTrace {
  import opened Seqs
  import opened FraudModels
  import opened FraudStore
  import opened Processor
  import US = UserScorer

  // ---- what the trace says -------------------------------------------------------------

  /** An accepted profile update of this user; the first one creates the profile. */
  predicate Updates(i: Input, u: int) { i.ProfileUpdate? && i.u == u && i.applied }

  predicate Known(es: seq<Event>, u: int) { exists k :: 0 <= k < |es| && Updates(es[k].input, u) }

  /** An accepted campaign write; a user without a profile is left alone. */
  predicate Campaigns(before: seq<Event>, i: Input, u: int) {
    i.CampaignComplete? && i.u == u && i.applied && Known(before, u)
  }

  /** Events of one kind since the last accepted profile write of a user. */
  function SinceWrite(es: seq<Event>, u: int, p: Event -> bool): nat {
    if |es| == 0 then 0
    else
      var rest, e := es[..|es| - 1], es[|es| - 1];
      if Updates(e.input, u) || Campaigns(rest, e.input, u) then 0 else SinceWrite(rest, u, p) + Bit(p(e))
  }

  function JoinBy(u: int): Event -> bool { (e: Event) => e.input.Join? && e.input.u == u }

  function LeaveBy(u: int): Event -> bool { (e: Event) => e.input.Leave? && e.input.u == u }

  /** Accepted campaign writes since the last accepted profile update. */
  function CampaignCount(es: seq<Event>, u: int): nat {
    if |es| == 0 then 0
    else
      var rest, e := es[..|es| - 1], es[|es| - 1];
      if Updates(e.input, u) then 0 else CampaignCount(rest, u) + Bit(Campaigns(rest, e.input, u))
  }

  /** How many of them, counted from the last one back, ended with the user staying. */
  function StayStreak(es: seq<Event>, u: int): nat {
    if |es| == 0 then 0
    else
      var rest, e := es[..|es| - 1], es[|es| - 1];
      if Updates(e.input, u) then 0
      else if Campaigns(rest, e.input, u) then (if e.input.stayed then StayStreak(rest, u) + 1 else 0)
      else StayStreak(rest, u)
  }

  /** The name and photo the last accepted write left; a campaign write leaves none. */
  function Face(es: seq<Event>, u: int): (string, bool) {
    if |es| == 0 then ("", false)
    else
      var rest, e := es[..|es| - 1], es[|es| - 1];
      if Updates(e.input, u) then (e.input.username, e.input.hasPhoto)
      else if Campaigns(rest, e.input, u) then ("", false)
      else Face(rest, u)
  }

  /** The score of the user's last snapshot. */
  function LastUserScore(ss: seq<UserSnapshot>, u: int): int {
    if |ss| == 0 then 0
    else if ss[|ss| - 1].userId == u then ss[|ss| - 1].score
    else LastUserScore(ss[..|ss| - 1], u)
  }

  // ---- one event ------------------------------------------------------------------------

  /** Equal up to the trust score. */
  predicate SameButTrust(p: Profile, q: Profile) { p.(trustScore := 0) == q.(trustScore := 0) }

  lemma RescoreProfile(db: FraudDb, user: Option<int>, community: Option<int>, now: int, u: int)
    ensures u in Rescore(db, user, community, now).profiles <==> u in db.profiles
    ensures u in db.profiles ==> SameButTrust(Rescore(db, user, community, now).profiles[u], db.profiles[u])
  {
  }

  lemma JoinedProfile(db: FraudDb, e: Event, u: int)
    requires e.input.Join? && u in db.profiles
    ensures u in OwnPart(db, e).profiles
    ensures OwnPart(db, e).profiles[u] ==
      db.profiles[u].(totalJoins := db.profiles[u].totalJoins + Bit(e.input.u == u))
  {
  }

  lemma LeftProfile(db: FraudDb, e: Event, u: int)
    requires e.input.Leave? && ValidChoice(db.memberships, e.input.u, e.input.c, e.input.choice) && u in db.profiles
    ensures u in OwnPart(db, e).profiles
    ensures OwnPart(db, e).profiles[u] ==
      db.profiles[u].(totalLeaves := db.profiles[u].totalLeaves + Bit(e.input.u == u))
  {
  }

  lemma WrittenProfile(db: FraudDb, e: Event, u: int)
    requires (e.input.ProfileUpdate? || e.input.CampaignComplete?) && e.input.u == u && e.input.applied
    requires e.input.CampaignComplete? ==> u in db.profiles
    ensures u in OwnPart(db, e).profiles
    ensures var p := OwnPart(db, e).profiles[u];
      if e.input.ProfileUpdate? then p == Profile(e.input.username, e.input.hasPhoto, false, 0, 0, 0, 0, 0)
      else p == Profile("", false, false, 0, 0, 0, db.profiles[u].totalCampaigns + 1,
                        if e.input.stayed then db.profiles[u].adCompletions + 1 else 0)
  {
  }

  lemma UntouchedProfile(db: FraudDb, e: Event, u: int)
    requires !e.input.Join? && !e.input.Leave?
    requires !((e.input.ProfileUpdate? || e.input.CampaignComplete?) && e.input.u == u && e.input.applied
               && (e.input.CampaignComplete? ==> u in db.profiles))
    ensures u in OwnPart(db, e).profiles <==> u in db.profiles
    ensures u in db.profiles ==> OwnPart(db, e).profiles[u] == db.profiles[u]
  {
  }

  lemma NobodyJoins(db: FraudDb, e: Event, u: int)
    requires (e.input.Leave? ==> ValidChoice(db.memberships, e.input.u, e.input.c, e.input.choice)) && (e.input.Join? || e.input.Leave?)
    ensures u in OwnPart(db, e).profiles <==> u in db.profiles
  {
  }

  /** The profile is the one the trace describes. */
  predicate Described(db: FraudDb, es: seq<Event>, u: int) {
    && (u in db.profiles <==> Known(es, u))
    && (u in db.profiles ==>
          var p := db.profiles[u];
          && p.totalJoins == SinceWrite(es, u, JoinBy(u)) && p.totalLeaves == SinceWrite(es, u, LeaveBy(u))
          && p.totalCampaigns == CampaignCount(es, u) && p.adCompletions == StayStreak(es, u)
          && (p.username, p.hasPhoto) == Face(es, u) && !p.isBot)
  }

  lemma KnownSnoc(es: seq<Event>, e: Event, u: int)
    ensures Known(es + [e], u) <==> Known(es, u) || Updates(e.input, u)
  {
    assert (es + [e])[|es|] == e;
    if Known(es, u) {
      var k :| 0 <= k < |es| && Updates(es[k].input, u);
      assert Updates((es + [e])[k].input, u);
    }
  }

  lemma OwnPartDescribed(db: FraudDb, es: seq<Event>, e: Event, u: int)
    requires e.input.Leave? ==> ValidChoice(db.memberships, e.input.u, e.input.c, e.input.choice)
    requires Described(db, es, u)
    ensures Described(OwnPart(db, e), es + [e], u)
  {
    KnownSnoc(es, e, u);
    SnocFront(es, e);
    if e.input.Join? || e.input.Leave? {
      NobodyJoins(db, e, u);
      if u in db.profiles {
        if e.input.Join? {
          JoinedProfile(db, e, u);
        } else {
          LeftProfile(db, e, u);
        }
      }
    } else if Updates(e.input, u) || Campaigns(es, e.input, u) {
      WrittenProfile(db, e, u);
    } else {
      UntouchedProfile(db, e, u);
    }
  }

  lemma EventDescribed(db: FraudDb, es: seq<Event>, e: Event, u: int)
    requires e.input.Leave? ==> ValidChoice(db.memberships, e.input.u, e.input.c, e.input.choice)
    requires Described(db, es, u)
    ensures Described(ApplyDb(db, e), es + [e], u)
  {
    OwnPartDescribed(db, es, e, u);
    RescoreProfile(OwnPart(db, e), RescoredUser(db, e.input), RescoredCommunity(e.input), e.at, u);
  }

  /** In every run a user has a profile exactly when a profile update of it was accepted,
      and since its last accepted profile write the counters hold exactly the joins and
      leaves of the user, the campaign counters the campaigns since the last update and
      the last streak of stays, and the name and photo are those last written. */
  lemma {:induction false} ProfilesFromTrace(es: seq<Event>, u: int)
    requires ValidRun(es)
    ensures Described(Run(es).db, es, u)
  {
    if |es| > 0 {
      ProfilesFromTrace(es[..|es| - 1], u);
      EventDescribed(Run(es[..|es| - 1]).db, es[..|es| - 1], es[|es| - 1], u);
      HeadAndLast(es);
    }
  }

  // ---- the stored trust score -----------------------------------------------------------------

  predicate TrustIsLast(db: FraudDb, u: int) {
    u in db.profiles ==> db.profiles[u].trustScore == LastUserScore(db.userScores, u)
  }

  lemma LastUserScoreSnoc(ss: seq<UserSnapshot>, s: UserSnapshot, u: int)
    ensures LastUserScore(ss + [s], u) == if s.userId == u then s.score else LastUserScore(ss, u)
  {
    SnocFront(ss, s);
  }

  lemma RescoreTrust(db: FraudDb, v: int, now: int, u: int)
    requires u != v ==> TrustIsLast(db, u)
    ensures TrustIsLast(RecalcUserDb(db, v, now), u)
  {
    LastUserScoreSnoc(db.userScores, UserSnapshot(v, US.UserScore(db, v, now), US.UserBreakdown(db, v, now), now), u);
  }

  lemma OwnPartSnapshots(db: FraudDb, e: Event)
    requires e.input.Leave? ==> ValidChoice(db.memberships, e.input.u, e.input.c, e.input.choice)
    ensures OwnPart(db, e).userScores == db.userScores
  {
  }

  lemma OwnPartTrust(db: FraudDb, e: Event, u: int)
    requires e.input.Leave? ==> ValidChoice(db.memberships, e.input.u, e.input.c, e.input.choice)
    requires TrustIsLast(db, u)
    ensures RescoredUser(db, e.input) == Some(u) || TrustIsLast(OwnPart(db, e), u)
  {
  }

  /** In every run the stored trust score is that of the user's last snapshot. */
  lemma {:induction false} TrustFromSnapshots(es: seq<Event>, u: int)
    requires ValidRun(es)
    ensures TrustIsLast(Run(es).db, u)
  {
    if |es| > 0 {
      TrustFromSnapshots(es[..|es| - 1], u);
      EventTrust(Run(es[..|es| - 1]).db, es[|es| - 1], u);
    }
  }

  lemma EventTrust(db: FraudDb, e: Event, u: int)
    requires e.input.Leave? ==> ValidChoice(db.memberships, e.input.u, e.input.c, e.input.choice)
    requires TrustIsLast(db, u)
    ensures TrustIsLast(ApplyDb(db, e), u)
  {
    OwnPartTrust(db, e, u);
    OwnPartSnapshots(db, e);
    if RescoredUser(db, e.input).Some? {
      RescoreTrust(OwnPart(db, e), RescoredUser(db, e.input).value, e.at, u);
    }
  }

  // ---- activity documents --------------------------------------------------------------------------

  /** An activity event of a user in a community on a day (of 86400 seconds). */
  predicate ActiveOn(e: Event, key: (int, int, int)) {
    e.input.Activity? && e.input.u == key.0 && e.input.c == key.1 && e.at / 86_400_000_000_000 == key.2
  }

  predicate ActiveSince(es: seq<Event>, key: (int, int, int), since: int) {
    exists k :: 0 <= k < |es| && ActiveOn(es[k], key) && es[k].at >= since
  }

  predicate Recorded(db: FraudDb, key: (int, int, int), since: int) {
    key in db.activity && db.activity[key].updatedAt >= since
  }

  lemma ActiveSinceSnoc(es: seq<Event>, e: Event, key: (int, int, int), since: int)
    ensures ActiveSince(es + [e], key, since) <==> ActiveSince(es, key, since) || (ActiveOn(e, key) && e.at >= since)
  {
    assert (es + [e])[|es|] == e;
    if ActiveSince(es, key, since) {
      var k :| 0 <= k < |es| && ActiveOn(es[k], key) && es[k].at >= since;
      assert (es + [e])[k] == es[k];
    }
  }

  predicate ActivityDatesOk(db: FraudDb, clock: int) {
    forall key :: key in db.activity ==> db.activity[key].updatedAt <= clock
  }

  lemma EventRecords(db: FraudDb, e: Event, clock: int, key: (int, int, int), since: int)
    requires e.input.Leave? ==> ValidChoice(db.memberships, e.input.u, e.input.c, e.input.choice)
    requires ActivityDatesOk(db, clock) && clock <= e.at
    ensures ActivityDatesOk(ApplyDb(db, e), e.at)
    ensures Recorded(ApplyDb(db, e), key, since) <==> Recorded(db, key, since) || (ActiveOn(e, key) && e.at >= since)
  {
    RescoreKeeps(OwnPart(db, e), RescoredUser(db, e.input), RescoredCommunity(e.input), e.at);
    OwnPartActivity(db, e);
  }

  lemma OwnPartActivity(db: FraudDb, e: Event)
    requires e.input.Leave? ==> ValidChoice(db.memberships, e.input.u, e.input.c, e.input.choice)
    ensures !e.input.Activity? ==> OwnPart(db, e).activity == db.activity
    ensures e.input.Activity? ==>
      var key := (e.input.u, e.input.c, e.at / 86_400_000_000_000);
      && OwnPart(db, e).activity.Keys == db.activity.Keys + {key} && OwnPart(db, e).activity[key].updatedAt == e.at
      && forall k :: k in db.activity && k != key ==> OwnPart(db, e).activity[k] == db.activity[k]
  {
  }

  /** In every run a document of a user, community and day was touched since an instant
      exactly when an activity event of them on that day came at or after it. */
  lemma {:induction false} ActivityFromTrace(es: seq<Event>, key: (int, int, int), since: int)
    requires ValidRun(es)
    ensures ActivityDatesOk(Run(es).db, Run(es).clock)
    ensures Recorded(Run(es).db, key, since) <==> ActiveSince(es, key, since)
  {
    if |es| > 0 {
      var before, e := Run(es[..|es| - 1]), es[|es| - 1];
      ActivityFromTrace(es[..|es| - 1], key, since);
      EventRecords(before.db, e, before.clock, key, since);
      ActiveSinceSnoc(es[..|es| - 1], e, key, since);
      HeadAndLast(es);
    }
  }

  /** Messages, replies and reactions of the activity events of a key. */
  function DayTotals(es: seq<Event>, key: (int, int, int)): (int, int, int) {
    if |es| == 0 then (0, 0, 0)
    else
      var t, e := DayTotals(es[..|es| - 1], key), es[|es| - 1];
      if ActiveOn(e, key) then (t.0 + e.input.messages, t.1 + e.input.replies, t.2 + e.input.reactions) else t
  }

  predicate Totalled(db: FraudDb, key: (int, int, int), t: (int, int, int)) {
    if key !in db.activity then t == (0, 0, 0)
    else (db.activity[key].messages, db.activity[key].replies, db.activity[key].reactions) == t
  }

  lemma EventTotals(db: FraudDb, e: Event, key: (int, int, int), t: (int, int, int))
    requires e.input.Leave? ==> ValidChoice(db.memberships, e.input.u, e.input.c, e.input.choice)
    requires Totalled(db, key, t)
    ensures Totalled(ApplyDb(db, e), key,
      if ActiveOn(e, key) then (t.0 + e.input.messages, t.1 + e.input.replies, t.2 + e.input.reactions) else t)
  {
    RescoreKeeps(OwnPart(db, e), RescoredUser(db, e.input), RescoredCommunity(e.input), e.at);
    if !e.input.Activity? {
      OwnPartActivity(db, e);
    }
  }

  /** In every run a document holds the totals of its day's activity events. */
  lemma {:induction false} ActivityTotalsFromTrace(es: seq<Event>, key: (int, int, int))
    requires ValidRun(es)
    ensures Totalled(Run(es).db, key, DayTotals(es, key))
  {
    if |es| > 0 {
      ActivityTotalsFromTrace(es[..|es| - 1], key);
      EventTotals(Run(es[..|es| - 1]).db, es[|es| - 1], key, DayTotals(es[..|es| - 1], key));
    }
  }
}
