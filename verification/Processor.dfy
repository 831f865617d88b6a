/** The message handlers of the fraud engine (fraud-engine/internal/processor/processor.go),
    each run as one atomic step. */
module Processor {
  import opened Seqs
  import opened FraudModels
  import opened FraudStore
  import US = UserScorer
  import CS = CommunityScorer

  /** Everything a handler can read or write; `outbox` is what was published on
      `community.score.updated`, `notices` what went out on the two other subjects,
      each in order. */
  datatype State = State(db: FraudDb, outbox: seq<ScoreMessage>, notices: seq<Notice>, clock: int)

  const INIT := State(EMPTY, [], [], 0)

  /** `RecalcUser` is one visit of the periodic batch; the two admin inputs are HTTP
      routes. `applied` says whether the store accepted a profile write; `choice` is which
      open records a leave measured and closed. */
  datatype Input =
    | Join(u: int, c: int)
    | Leave(u: int, c: int, choice: LeaveChoice)
    | Activity(u: int, c: int, messages: int, replies: int, reactions: int)
    | ProfileUpdate(u: int, username: string, hasPhoto: bool, applied: bool)
    | CampaignComplete(u: int, stayed: bool, applied: bool)
    | RecalcUser(u: int)
    | AdminRecalcUser(u: int)
    | AdminRecalcCommunity(c: int)

  datatype Event = Event(at: int, input: Input)

  // ---- what the handlers do -----------------------------------------------------

  function RecalcUserDb(db: FraudDb, u: int, now: int): FraudDb {
    TrustScoreDb(db, u, US.UserScore(db, u, now), US.UserBreakdown(db, u, now), now)
  }

  function RecalcCommunityDb(db: FraudDb, c: int, now: int): FraudDb {
    CommunityScoreDb(db, c, CS.CommunityScore(db, c), CS.Breakdown(db, c), now)
  }

  function ScoreNews(c: int, score: int): ScoreMessage {
    ScoreMessage(c, score, CommunityRevenueStatus(score), RevenueMultiplier(score))
  }

  function RecentJoins(db: FraudDb, u: int, c: int, now: int): nat {
    Count(db.memberships, JoinedAfter(u, c, now - 7 * DAY))
  }

  predicate Loops(db: FraudDb, u: int, c: int, now: int) { RecentJoins(db, u, c, now) >= 3 }

  function DetectDb(db: FraudDb, u: int, c: int, now: int): FraudDb {
    var n := RecentJoins(db, u, c, now);
    if Loops(db, u, c, now) then db.(fraudEvents := db.fraudEvents + [JoinLeaveLoop(u, c, n, now)]) else db
  }

  function FreshProfile(username: string, hasPhoto: bool): Profile {
    Profile(username, hasPhoto, false, 0, 0, 0, 0, 0)
  }

  function CampaignProfile(p: Profile, stayed: bool): Profile {
    FreshProfile("", false).(
      totalCampaigns := p.totalCampaigns + 1,
      adCompletions := if stayed then p.adCompletions + 1 else 0)
  }

  predicate Enabled(s: State, e: Event) {
    && s.clock <= e.at
    && (e.input.Leave? ==> ValidChoice(s.db.memberships, e.input.u, e.input.c, e.input.choice))
  }

  /** What an event writes before anything is rescored. */
  function OwnPart(db: FraudDb, e: Event): FraudDb
    requires e.input.Leave? ==> ValidChoice(db.memberships, e.input.u, e.input.c, e.input.choice)
  {
    match e.input
    case Join(u, c) => DetectDb(JoinDb(db, u, c, e.at), u, c, e.at)
    case Leave(u, c, choice) => LeaveDb(db, u, c, e.at, choice)
    case Activity(u, c, messages, replies, reactions) => ActivityDb(db, u, c, messages, replies, reactions, e.at)
    case ProfileUpdate(u, username, hasPhoto, applied) => UpsertProfileDb(db, u, FreshProfile(username, hasPhoto), applied)
    case CampaignComplete(u, stayed, applied) =>
      if u !in db.profiles then db else UpsertProfileDb(db, u, CampaignProfile(db.profiles[u], stayed), applied)
    case RecalcUser(u) => db
    case AdminRecalcUser(u) => db
    case AdminRecalcCommunity(c) => db
  }

  /** The user an event rescores; a completed campaign of an unknown user is dropped. */
  function RescoredUser(db: FraudDb, i: Input): Option<int> {
    if i.AdminRecalcCommunity? || (i.CampaignComplete? && i.u !in db.profiles) then None else Some(i.u)
  }

  function RescoredCommunity(i: Input): Option<int> {
    if i.Join? || i.Leave? || i.AdminRecalcCommunity? then Some(i.c) else None
  }

  function Rescore(db: FraudDb, user: Option<int>, community: Option<int>, now: int): FraudDb {
    var scored := if user.Some? then RecalcUserDb(db, user.value, now) else db;
    if community.Some? then RecalcCommunityDb(scored, community.value, now) else scored
  }

  /** The store after an event: its own writes, then the user, then the community. */
  function ApplyDb(db: FraudDb, e: Event): FraudDb
    requires e.input.Leave? ==> ValidChoice(db.memberships, e.input.u, e.input.c, e.input.choice)
  {
    Rescore(OwnPart(db, e), RescoredUser(db, e.input), RescoredCommunity(e.input), e.at)
  }

  /** Rescoring writes trust scores and snapshots, nothing else. */
  lemma RescoreKeeps(db: FraudDb, user: Option<int>, community: Option<int>, now: int)
    ensures var after := Rescore(db, user, community, now);
      && after.memberships == db.memberships && after.stats == db.stats && after.activity == db.activity
      && after.fraudEvents == db.fraudEvents && after.profiles.Keys == db.profiles.Keys
      && |after.communityScores| == |db.communityScores| + Bit(community.Some?)
  {
  }

  function ScoreNotice(db: FraudDb, u: int, now: int): Notice {
    UserScoreUpdated(u, US.UserScore(db, u, now), US.UserBreakdown(db, u, now))
  }

  function DetectNotices(db: FraudDb, u: int, c: int, now: int): seq<Notice> {
    if Loops(db, u, c, now) then [FraudDetected(u, c)] else []
  }

  function LoopNotices(db: FraudDb, e: Event): seq<Notice> {
    if e.input.Join? then DetectNotices(JoinDb(db, e.input.u, e.input.c, e.at), e.input.u, e.input.c, e.at) else []
  }

  function ScoreNotices(db: FraudDb, e: Event): seq<Notice>
    requires e.input.Leave? ==> ValidChoice(db.memberships, e.input.u, e.input.c, e.input.choice)
  {
    if RescoredUser(db, e.input).Some? && !e.input.AdminRecalcUser? then [ScoreNotice(OwnPart(db, e), e.input.u, e.at)] else []
  }

  /** What an event announces besides a community score: the loop it detects, then the
      user score it computes; the admin route announces nothing. */
  function Notices(db: FraudDb, e: Event): seq<Notice>
    requires e.input.Leave? ==> ValidChoice(db.memberships, e.input.u, e.input.c, e.input.choice)
  {
    LoopNotices(db, e) + ScoreNotices(db, e)
  }

  function LastScore(db: FraudDb): int
    requires |db.communityScores| > 0
  {
    db.communityScores[|db.communityScores| - 1].score
  }

  function Apply(s: State, e: Event): State
    requires Enabled(s, e)
  {
    var db := ApplyDb(s.db, e);
    var outbox :=
      if e.input.Join? || e.input.Leave? then s.outbox + [ScoreNews(e.input.c, LastScore(db))] else s.outbox;
    State(db, outbox, s.notices + Notices(s.db, e), e.at)
  }

  predicate ValidRun(es: seq<Event>)
    decreases |es|, 0
  {
    |es| == 0 || (ValidRun(es[..|es| - 1]) && Enabled(Run(es[..|es| - 1]), es[|es| - 1]))
  }

  function Run(es: seq<Event>): State
    requires ValidRun(es)
    decreases |es|, 1
  {
    if |es| == 0 then INIT else Apply(Run(es[..|es| - 1]), es[|es| - 1])
  }

  /** The loop of `detectJoinLoopFraud`; it looks at the dates only. */
  method CountRecent(history: seq<Membership>, ghost u: int, ghost c: int, cutoff: int) returns (recentJoins: int)
    requires forall m :: m in history ==> IsKey(m, u, c)
    ensures recentJoins == Count(history, JoinedAfter(u, c, cutoff))
  {
    ghost var recent := JoinedAfter(u, c, cutoff);
    recentJoins := 0;
    for i := 0 to |history|
      invariant recentJoins == Count(history[..i], recent)
    {
      FilterSnoc(history[..i], history[i], recent);
      assert history[..i + 1] == history[..i] + [history[i]];
      assert history[i] in history;
      if history[i].joinedAt > cutoff {
        recentJoins := recentJoins + 1;
      }
    }
    assert history[..|history|] == history;
  }

  /** A join handled call by call. */
  lemma JoinInSteps(s: State, u: int, c: int, now: int)
    requires s.clock <= now
    ensures var joined := JoinDb(s.db, u, c, now);
      var detected := DetectDb(joined, u, c, now);
      var rescored := RecalcCommunityDb(RecalcUserDb(detected, u, now), c, now);
      Apply(s, Event(now, Join(u, c))) == State(
        rescored, s.outbox + [ScoreNews(c, LastScore(rescored))],
        s.notices + DetectNotices(joined, u, c, now) + [ScoreNotice(detected, u, now)], now)
  {
    var joined := JoinDb(s.db, u, c, now);
    ConcatAssoc(s.notices, DetectNotices(joined, u, c, now), [ScoreNotice(DetectDb(joined, u, c, now), u, now)]);
  }

  // ---- the processor --------------------------------------------------------------

  class Processor {
    const store: Store
    const userScorer: US.Scorer
    const communityScorer: CS.Scorer
    var outbox: seq<ScoreMessage>
    var notices: seq<Notice>
    ghost var clock: int

    ghost predicate Valid()
      reads this
    {
      userScorer.store == store && communityScorer.store == store
    }

    ghost function Now(): State
      reads this, store
    {
      State(store.Db(), outbox, notices, clock)
    }

    constructor ()
      ensures Valid() && fresh(store) && Now() == INIT
    {
      var st := new Store();
      store := st;
      userScorer := new US.Scorer(st);
      communityScorer := new CS.Scorer(st);
      outbox, notices := [], [];
      clock := 0;
    }

    method RecalcUserScore(u: int, now: int)
      requires Valid()
      modifies store, this`notices
      ensures store.Db() == RecalcUserDb(old(store.Db()), u, now)
      ensures notices == old(notices) + [ScoreNotice(old(store.Db()), u, now)]
    {
      var score, breakdown := userScorer.Calculate(u, now);
      store.UpdateTrustScore(u, score, breakdown, now);
      notices := notices + [UserScoreUpdated(u, score, breakdown)];
    }

    method RecalcCommunityScore(c: int, now: int)
      requires Valid()
      modifies store, this`outbox
      ensures store.Db() == RecalcCommunityDb(old(store.Db()), c, now)
      ensures outbox == old(outbox) + [ScoreNews(c, LastScore(store.Db()))]
    {
      var score, breakdown := communityScorer.Calculate(c);
      store.UpdateCommunityScore(c, score, breakdown, now);
      var multiplier := RevenueMultiplier(score);
      outbox := outbox + [ScoreMessage(c, score, CommunityRevenueStatus(score), multiplier)];
    }

    /** Counts the recent rows of the user's history with this community; histories
        of fewer than three rows are not looked at. */
    method DetectJoinLoopFraud(u: int, c: int, now: int)
      modifies store, this`notices
      ensures store.Db() == DetectDb(old(store.Db()), u, c, now)
      ensures notices == old(notices) + DetectNotices(old(store.Db()), u, c, now)
    {
      var history := store.GetMembershipHistory(u, c);
      HistoryCount(store.memberships, history, u, c, now - 7 * DAY);
      if |history| < 3 {
        return;
      }
      var recentJoins := CountRecent(history, u, c, now - 7 * DAY);
      if recentJoins >= 3 {
        store.RecordFraudEvent(JoinLeaveLoop(u, c, recentJoins, now));
        notices := notices + [FraudDetected(u, c)];
      }
    }

    method HandleJoin(u: int, c: int, now: int)
      requires Valid() && clock <= now
      modifies store, this
      ensures Now() == Apply(old(Now()), Event(now, Join(u, c)))
    {
      ghost var before := Now();
      store.RecordJoin(u, c, now);
      DetectJoinLoopFraud(u, c, now);
      RecalcUserScore(u, now);
      RecalcCommunityScore(c, now);
      clock := now;
      JoinInSteps(before, u, c, now);
    }

    method HandleLeave(u: int, c: int, now: int) returns (ghost choice: LeaveChoice)
      requires Valid() && clock <= now
      modifies store, this
      ensures Enabled(old(Now()), Event(now, Leave(u, c, choice)))
      ensures Now() == Apply(old(Now()), Event(now, Leave(u, c, choice)))
    {
      choice := store.RecordLeave(u, c, now);
      RecalcUserScore(u, now);
      RecalcCommunityScore(c, now);
      clock := now;
    }

    method HandleActivity(u: int, c: int, messages: int, replies: int, reactions: int, now: int)
      requires Valid() && clock <= now
      modifies store, this
      ensures Now() == Apply(old(Now()), Event(now, Activity(u, c, messages, replies, reactions)))
    {
      store.RecordActivity(u, c, messages, replies, reactions, now);
      RecalcUserScore(u, now);
      clock := now;
    }

    method HandleProfileUpdate(u: int, username: string, hasPhoto: bool, applied: bool, now: int)
      requires Valid() && clock <= now
      modifies store, this
      ensures Now() == Apply(old(Now()), Event(now, ProfileUpdate(u, username, hasPhoto, applied)))
    {
      store.UpsertProfile(u, FreshProfile(username, hasPhoto), applied);
      RecalcUserScore(u, now);
      clock := now;
    }

    method HandleCampaignComplete(u: int, stayed: bool, applied: bool, now: int)
      requires Valid() && clock <= now
      modifies store, this
      ensures Now() == Apply(old(Now()), Event(now, CampaignComplete(u, stayed, applied)))
    {
      clock := now;
      var found := store.GetProfile(u);
      if found.None? {
        return;
      }
      var update := FreshProfile("", false).(totalCampaigns := found.value.totalCampaigns + 1);
      if stayed {
        update := update.(adCompletions := found.value.adCompletions + 1);
      }
      store.UpsertProfile(u, update, applied);
      RecalcUserScore(u, now);
    }

    /** One visit of the periodic batch. */
    method HandleRecalc(u: int, now: int)
      requires Valid() && clock <= now
      modifies store, this
      ensures Now() == Apply(old(Now()), Event(now, RecalcUser(u)))
    {
      RecalcUserScore(u, now);
      clock := now;
    }

    /** The admin routes store a snapshot and publish nothing. */
    method AdminRecalcUserScore(u: int, now: int)
      requires Valid() && clock <= now
      modifies store, this
      ensures Now() == Apply(old(Now()), Event(now, AdminRecalcUser(u)))
    {
      var score, breakdown := userScorer.Calculate(u, now);
      store.UpdateTrustScore(u, score, breakdown, now);
      clock := now;
    }

    method AdminRecalc(c: int, now: int)
      requires Valid() && clock <= now
      modifies store, this
      ensures Now() == Apply(old(Now()), Event(now, AdminRecalcCommunity(c)))
    {
      var score, breakdown := communityScorer.Calculate(c);
      store.UpdateCommunityScore(c, score, breakdown, now);
      clock := now;
    }
  }

  /** A history query sees exactly the recent joins of its key, and a history of
      fewer than three rows cannot hold three of them. */
  lemma HistoryCount(ms: seq<Membership>, history: seq<Membership>, u: int, c: int, cutoff: int)
    requires multiset(history) == multiset(Filter(ms, OfKey(u, c)))
    ensures Count(history, JoinedAfter(u, c, cutoff)) == Count(ms, JoinedAfter(u, c, cutoff))
    ensures |history| < 3 ==> Count(ms, JoinedAfter(u, c, cutoff)) < 3
    ensures forall m :: m in history ==> IsKey(m, u, c)
  {
    var rows, p := Filter(ms, OfKey(u, c)), JoinedAfter(u, c, cutoff);
    FilterPermutes(history, rows, p);
    assert |multiset(Filter(history, p))| == |Filter(history, p)|;
    assert |multiset(Filter(rows, p))| == |Filter(rows, p)|;
    CountFilter(ms, OfKey(u, c), p);
    CountAtMost(history, p);
    FilterIn(ms, OfKey(u, c));
    forall m | m in history ensures IsKey(m, u, c) {
      assert m in multiset(history);
      assert m in rows;
    }
  }
}
