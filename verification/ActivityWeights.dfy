/** Whose activity earns what: member scores, the list of the recently active and the
    shares of a distribution, from the activity events of the trace. */
module ActivityWeights {
  import opened Seqs
  import opened Numbers
  import opened CommunityModels
  import opened CommunityStore
  import opened Rewards
  import opened RevenueEngine
  import opened MoneySafety
  import opened MemberCounter

  // ---- what increments are worth ------------------------------------------------------

  function Capped(x: real, cap: real): real { if x <= cap then x else cap }

  /** 2 for a message up to 40, 3 for a reply up to 30, 1 for a reaction up to 15. */
  function Worth(incs: seq<Increment>): real {
    Capped(2.0 * Sum(incs, Messages()), 40.0) + Capped(3.0 * Sum(incs, Replies()), 30.0) + Capped(Sum(incs, Reactions()), 15.0)
  }

  /** The score of any counters, day counts included: 5 for an active day up to 15. */
  lemma ScoreByCounters(a: Activity)
    ensures a.Score() as real ==
      Capped(2.0 * a.messages as real, 40.0) + Capped(3.0 * a.replies as real, 30.0)
      + Capped(a.reactions as real, 15.0) + Capped(5.0 * a.activeDays as real, 15.0)
  {
  }

  lemma CountersWorth(a: Activity, m: real, r: real, x: real)
    requires a.messages as real == m && a.replies as real == r && a.reactions as real == x && a.activeDays == 0
    ensures a.Score() as real == Capped(2.0 * m, 40.0) + Capped(3.0 * r, 30.0) + Capped(x, 15.0)
  {
    ScoreByCounters(a);
  }

  /** In every run a member's activity score is what the trace's increments are worth. */
  lemma ScoreFromTrace(mongo: bool, es: seq<Event>, user: int, chat: int)
    requires ValidRun(mongo, es) && (user, chat) in Run(mongo, es).db.activity
    ensures Run(mongo, es).db.activity[(user, chat)].Score() as real == Worth(Increments(mongo, es, user, chat))
  {
    var incs := Increments(mongo, es, user, chat);
    ActivityIsTotal(mongo, es, user, chat);
    CountersWorth(Run(mongo, es).db.activity[(user, chat)], Sum(incs, Messages()), Sum(incs, Replies()), Sum(incs, Reactions()));
  }

  // ---- when a member was last active --------------------------------------------------------

  /** The time of the last event that reached the activity row of a user in a chat. */
  ghost function LastActive(mongo: bool, es: seq<Event>, user: int, chat: int): Option<int> {
    if |es| == 0 then None
    else if Added(Run(mongo, es[..|es| - 1]).db, es[|es| - 1].input, user, chat) != [] then Some(es[|es| - 1].at)
    else LastActive(mongo, es[..|es| - 1], user, chat)
  }

  ghost predicate Dated(rows: map<(int, int), Activity>, user: int, chat: int, last: Option<int>) {
    if last.None? then (user, chat) !in rows else (user, chat) in rows && rows[(user, chat)].updatedAt == last.value
  }

  lemma PlainDates(db: CommunityDb, i: Input, at: int, user: int, chat: int, last: Option<int>)
    requires Dated(db.activity, user, chat, last)
    ensures Dated(ActivityAfter(db, i, at), user, chat, if Added(db, i, user, chat) != [] then Some(at) else last)
  {
  }

  lemma {:induction false} DatesFromTrace(mongo: bool, es: seq<Event>, user: int, chat: int)
    requires ValidRun(mongo, es)
    ensures Dated(Run(mongo, es).db.activity, user, chat, LastActive(mongo, es, user, chat))
  {
    if |es| > 0 {
      var s, e := Run(mongo, es[..|es| - 1]), es[|es| - 1];
      DatesFromTrace(mongo, es[..|es| - 1], user, chat);
      EventActivity(s, e);
      PlainDates(s.db, e.input, e.at, user, chat, LastActive(mongo, es[..|es| - 1], user, chat));
    }
  }

  // ---- one distribution ---------------------------------------------------------------------------

  /** An event of a run that pays: it is accepted and its members are divided a pool.
      `Inv` holds after every run (`InvAfterEveryRun`). */
  ghost predicate Pays(mongo: bool, es: seq<Event>, e: Event) {
    && ValidRun(mongo, es) && Inv(Run(mongo, es)) && e.input.RevenueGenerated?
    && Enabled(Run(mongo, es), e) && Accepts(Run(mongo, es).db, e.input).Some?
    && PaymentOf(Run(mongo, es), e.input).PaysMembers()
  }

  ghost predicate RecentListed(db: CommunityDb, chat: int, since: int, members: seq<Member>) {
    forall u :: (u, chat) in db.activity && db.activity[(u, chat)].updatedAt >= since ==>
      Member(u, db.activity[(u, chat)]) in members
  }

  lemma PaidList(s: State, e: Event)
    requires Inv(s) && e.input.RevenueGenerated? && Enabled(s, e) && Accepts(s.db, e.input).Some?
    requires PaymentOf(s, e.input).PaysMembers()
    ensures var p := PaymentOf(s, e.input);
      && DistinctUsers(p.members)
      && (!s.db.mongo ==> p.members == [])
      && (forall k :: 0 <= k < |p.members| ==>
            InActive(s.db, p.community.chatId, e.at - 2_592_000_000_000_000, p.members[k]))
      && (s.db.mongo ==> RecentListed(s.db, p.community.chatId, e.at - 2_592_000_000_000_000, p.members))
  {
    var db := WithRevenue(s.db, e.input);
    assert Payable(db, e.input.revId);
    var p := PaymentFor(db, e.input.revId, e.input.members);
    assert ActiveList(db, p.community.chatId, e.at - 2_592_000_000_000_000, p.members);
    forall k | 0 <= k < |p.members| ensures InActive(s.db, p.community.chatId, e.at - 2_592_000_000_000_000, p.members[k]) {
      assert InActive(db, p.community.chatId, e.at - 2_592_000_000_000_000, p.members[k]);
    }
  }

  ghost predicate Lists(members: seq<Member>, user: int) {
    exists k :: 0 <= k < |members| && members[k].userId == user
  }

  lemma {:induction false} NoDocumentsNoRows(mongo: bool, es: seq<Event>, user: int, chat: int)
    requires ValidRun(mongo, es) && !mongo
    ensures LastActive(mongo, es, user, chat) == None
  {
    if |es| > 0 {
      ActivityIsTotal(mongo, es[..|es| - 1], user, chat);
      NoDocumentsNoRows(mongo, es[..|es| - 1], user, chat);
    }
  }

  /** The members a pool is divided among are exactly those whose last activity event in
      the group is at most thirty days old. */
  lemma ListedIff(mongo: bool, es: seq<Event>, e: Event, user: int)
    requires Pays(mongo, es, e)
    ensures var p := PaymentOf(Run(mongo, es), e.input);
      var last := LastActive(mongo, es, user, p.community.chatId);
      Lists(p.members, user) <==> last.Some? && last.value >= e.at - 2_592_000_000_000_000
  {
    var s := Run(mongo, es);
    var p := PaymentOf(s, e.input);
    var chat := p.community.chatId;
    PaidList(s, e);
    ActivityIsTotal(mongo, es, user, chat);
    DatesFromTrace(mongo, es, user, chat);
    if !mongo {
      NoDocumentsNoRows(mongo, es, user, chat);
    } else if (user, chat) in s.db.activity && s.db.activity[(user, chat)].updatedAt >= e.at - 2_592_000_000_000_000 {
      var m := Member(user, s.db.activity[(user, chat)]);
      var k :| 0 <= k < |p.members| && p.members[k] == m;
    }
    if Lists(p.members, user) {
      var k :| 0 <= k < |p.members| && p.members[k].userId == user;
      assert InActive(s.db, chat, e.at - 2_592_000_000_000_000, p.members[k]);
    }
  }

  lemma ListedWorth(mongo: bool, es: seq<Event>, e: Event, m: Member)
    requires Pays(mongo, es, e) && m in PaymentOf(Run(mongo, es), e.input).members
    ensures var chat := PaymentOf(Run(mongo, es), e.input).community.chatId;
      m.activity.Score() as real == Worth(Increments(mongo, es, m.userId, chat))
  {
    var s := Run(mongo, es);
    var p := PaymentOf(s, e.input);
    PaidList(s, e);
    var k :| 0 <= k < |p.members| && p.members[k] == m;
    assert InActive(s.db, p.community.chatId, e.at - 2_592_000_000_000_000, p.members[k]);
    ScoreFromTrace(mongo, es, m.userId, p.community.chatId);
  }

  lemma PayoutWorth(mongo: bool, es: seq<Event>, e: Event, i: int)
    requires Pays(mongo, es, e) && 0 <= i < |PaymentOf(Run(mongo, es), e.input).MemberPayouts()|
    ensures var p := PaymentOf(Run(mongo, es), e.input);
      p.MemberPayouts()[i].score as real == Worth(Increments(mongo, es, p.MemberPayouts()[i].userId, p.community.chatId))
  {
    var p := PaymentOf(Run(mongo, es), e.input);
    var m := ListedIsPaid(p.members, TotalScore(p.members), p.Pool(), p.MemberPayouts()[i]);
    ListedWorth(mongo, es, e, m);
  }

  /** Shares in the proportion of the weights, pair by pair. */
  predicate Proportional(ps: seq<Payout>, ws: seq<real>)
    requires |ps| == |ws|
  {
    forall i, j :: 0 <= i < |ps| && 0 <= j < |ps| ==> ps[i].share * ws[j] == ps[j].share * ws[i]
  }

  function ScoresAsReals(ps: seq<Payout>): (ws: seq<real>)
    ensures |ws| == |ps|
  {
    seq(|ps|, k requires 0 <= k < |ps| => ps[k].score as real)
  }

  lemma PayoutsProportional(members: seq<Member>, pool: real)
    ensures Proportional(Payouts(members, pool), ScoresAsReals(Payouts(members, pool)))
  {
    var ps := Payouts(members, pool);
    forall i, j | 0 <= i < |ps| && 0 <= j < |ps| ensures ps[i].share * ps[j].score as real == ps[j].share * ps[i].score as real {
      SharesProportional(members, pool, i, j);
    }
  }

  lemma PaymentProportional(p: Payment)
    ensures Proportional(p.MemberPayouts(), ScoresAsReals(p.MemberPayouts()))
  {
    if p.PaysMembers() {
      PayoutsProportional(p.members, p.Pool());
    }
  }

  /** One weight for each payout: what the user's activity in the chat is worth. */
  ghost predicate WorthOfEach(mongo: bool, es: seq<Event>, chat: int, ps: seq<Payout>, ws: seq<real>) {
    |ws| == |ps| && forall k :: 0 <= k < |ps| ==> ws[k] == Worth(Increments(mongo, es, ps[k].userId, chat))
  }

  lemma ScoresAreWorth(mongo: bool, es: seq<Event>, e: Event)
    requires Pays(mongo, es, e)
    ensures var p := PaymentOf(Run(mongo, es), e.input);
      WorthOfEach(mongo, es, p.community.chatId, p.MemberPayouts(), ScoresAsReals(p.MemberPayouts()))
  {
    var p := PaymentOf(Run(mongo, es), e.input);
    forall k | 0 <= k < |p.MemberPayouts()|
      ensures p.MemberPayouts()[k].score as real == Worth(Increments(mongo, es, p.MemberPayouts()[k].userId, p.community.chatId))
    {
      PayoutWorth(mongo, es, e, k);
    }
  }

  /** The members one distribution pays are paid in the proportion of what their
      activity in the group is worth. */
  lemma PaidByWorth(mongo: bool, es: seq<Event>, e: Event) returns (ws: seq<real>)
    requires Pays(mongo, es, e)
    ensures var p := PaymentOf(Run(mongo, es), e.input);
      WorthOfEach(mongo, es, p.community.chatId, p.MemberPayouts(), ws) && Proportional(p.MemberPayouts(), ws)
  {
    ws := ScoresAsReals(PaymentOf(Run(mongo, es), e.input).MemberPayouts());
    ScoresAreWorth(mongo, es, e);
    PaymentProportional(PaymentOf(Run(mongo, es), e.input));
  }

  /** The row of a payout: the claim's revenue and the paid community, the payout's user
      and amount, and what the user's activity is worth. */
  ghost predicate RowOfPayout(mongo: bool, es: seq<Event>, p: Payment, d: Distribution, o: Payout) {
    && d.revenue == p.revId && d.community == p.community.id && d.userId == o.userId && d.amount == o.share
    && d.activityScore as real == Worth(Increments(mongo, es, o.userId, p.community.chatId))
  }

  lemma PaymentWritesRows(s: State, e: Event)
    requires Inv(s) && e.input.RevenueGenerated? && Accepts(s.db, e.input).Some?
    ensures Apply(s, e).db.distributions == s.db.distributions + PaymentOf(s, e.input).Rows()
  {
  }

  /** The rows one distribution writes, one for each payout, in order. */
  lemma RowsByWorth(mongo: bool, es: seq<Event>, e: Event) returns (rows: seq<Distribution>)
    requires Pays(mongo, es, e)
    ensures Apply(Run(mongo, es), e).db.distributions == Run(mongo, es).db.distributions + rows
    ensures var p := PaymentOf(Run(mongo, es), e.input);
      && |rows| == |p.MemberPayouts()|
      && forall k :: 0 <= k < |rows| ==> RowOfPayout(mongo, es, p, rows[k], p.MemberPayouts()[k])
  {
    var p := PaymentOf(Run(mongo, es), e.input);
    rows := p.Rows();
    PaymentWritesRows(Run(mongo, es), e);
    MapAt(p.MemberPayouts(), RowOf(p.revId, p.community.id));
    forall k | 0 <= k < |rows| ensures RowOfPayout(mongo, es, p, rows[k], p.MemberPayouts()[k]) {
      PayoutWorth(mongo, es, e, k);
    }
  }

  // ---- who is too small to be paid ------------------------------------------------------------------

  lemma DustAsProduct(score: int, total: real, pool: real)
    requires total > 0.0 && score > 0
    ensures Share(score, total, pool) >= DUST <==> score as real * pool >= 0.0001 * total
  {
    ShareTimesTotal(score as real, total, pool);
    if Share(score, total, pool) >= 0.0001 {
      ProductMonotone(0.0001, Share(score, total, pool), total);
    } else {
      ProductStrict(Share(score, total, pool), 0.0001, total);
    }
  }

  lemma ShareTimesTotal(score: real, total: real, pool: real)
    requires total > 0.0
    ensures score / total * pool * total == score * pool
  {
    Commute(score / total, pool, total);
  }

  lemma ProductStrict(a: real, b: real, k: real)
    requires a < b && k > 0.0
    ensures a * k < b * k
  {
    TimesSum(a, b - a, k);
    ProductSign(b - a, k);
  }

  lemma PaidAs(m: Member, total: real, pool: real)
    requires total > 0.0
    ensures IsPaid(m, total, pool)
      <==> m.activity.Score() > 0 && m.activity.Score() as real * pool >= 0.0001 * total
  {
    if m.activity.Score() > 0 {
      DustAsProduct(m.activity.Score(), total, pool);
    }
  }

  ghost predicate HasPayout(ps: seq<Payout>, user: int) {
    exists k :: 0 <= k < |ps| && ps[k].userId == user
  }

  lemma HasPayoutIff(members: seq<Member>, total: real, pool: real, m: Member)
    requires DistinctUsers(members) && m in members && total != 0.0
    ensures HasPayout(PayoutsFor(members, total, pool), m.userId) <==> IsPaid(m, total, pool)
  {
    var ps := PayoutsFor(members, total, pool);
    if IsPaid(m, total, pool) {
      PaidIsListed(members, total, pool, m);
      var k :| 0 <= k < |ps| && ps[k] == PayoutOf(m, total, pool);
    }
    if HasPayout(ps, m.userId) {
      var k :| 0 <= k < |ps| && ps[k].userId == m.userId;
      var n := ListedIsPaid(members, total, pool, ps[k]);
      assert n == m;
    }
  }

  lemma ScoringTotal(members: seq<Member>, m: Member)
    requires m in members && m.activity.Score() > 0
    ensures TotalScore(members) > 0.0
  {
    var at :| 0 <= at < |members| && members[at] == m;
    CountPositive(members, at, Scores());
    PositiveTotal(members);
  }

  /** A listed member has a payout exactly when its score is positive and earns at least
      0.0001 of the pool. */
  lemma PaidIff(members: seq<Member>, pool: real, m: Member)
    requires DistinctUsers(members) && m in members
    ensures HasPayout(Payouts(members, pool), m.userId)
      <==> m.activity.Score() > 0 && m.activity.Score() as real * pool >= 0.0001 * TotalScore(members)
  {
    PositiveTotal(members);
    if TotalScore(members) == 0.0 {
      if m.activity.Score() > 0 {
        ScoringTotal(members, m);
      }
    } else {
      HasPayoutIff(members, TotalScore(members), pool, m);
      PaidAs(m, TotalScore(members), pool);
    }
  }
}
