/** The member counter of a community and the activity totals of its members over
    whole runs. */
module MemberCounter {
  import opened Seqs
  import opened Numbers
  import opened CommunityModels
  import opened CommunityStore
  import opened RevenueEngine
  import opened MoneySafety

  // ---- a counter that saturates at zero -------------------------------------------

  function Total(t: seq<int>): int {
    if |t| == 0 then 0 else Total(t[..|t| - 1]) + t[|t| - 1]
  }

  /** Applying increments and decrements one by one, never going below zero. */
  function Saturated(t: seq<int>): int {
    if |t| == 0 then 0 else MaxInt(Saturated(t[..|t| - 1]) + t[|t| - 1], 0)
  }

  lemma {:induction false} SaturatedBounds(t: seq<int>, k: nat)
    requires k <= |t|
    ensures Total(t[k..]) <= Saturated(t)
  {
    var n := |t| - 1;
    if k < |t| {
      SaturatedBounds(t[..n], k);
      assert t[k..][..n - k] == t[..n][k..];
    }
  }

  lemma {:induction false} SaturatedReached(t: seq<int>) returns (k: nat)
    ensures k <= |t| && Total(t[k..]) == Saturated(t)
  {
    if |t| == 0 {
      return 0;
    }
    var n := |t| - 1;
    if Saturated(t[..n]) + t[n] < 0 {
      return |t|;
    }
    k := SaturatedReached(t[..n]);
    assert t[k..][..n - k] == t[..n][k..];
  }

  /** The saturated counter is the largest total of any suffix, the empty one included. */
  lemma SaturatedIsMaxSuffix(t: seq<int>)
    ensures forall k :: 0 <= k <= |t| ==> Total(t[k..]) <= Saturated(t)
    ensures exists k :: 0 <= k <= |t| && Total(t[k..]) == Saturated(t)
  {
    forall k | 0 <= k <= |t| ensures Total(t[k..]) <= Saturated(t) {
      SaturatedBounds(t, k);
    }
    var k := SaturatedReached(t);
  }

  lemma SaturatedSnoc(t: seq<int>, d: int)
    ensures Saturated(t + [d]) == MaxInt(Saturated(t) + d, 0)
  {
    SnocFront(t, d);
  }

  /** One more change, or none. */
  lemma SaturatedStep(t: seq<int>, d: seq<int>, before: int, after: int)
    requires |d| <= 1 && before == Saturated(t)
    requires after == if d == [] then before else MaxInt(before + d[0], 0)
    ensures Saturated(t + d) == after
  {
    if d == [] {
      assert t + d == t;
    } else {
      assert d == [d[0]];
      SaturatedSnoc(t, d[0]);
    }
  }

  lemma SaturatedNotNegative(t: seq<int>)
    ensures Saturated(t) >= 0
  {
  }

  // ---- the counter of a community ------------------------------------------------------

  /** What an input counts for a community: a join that is effective +1, a leave -1. */
  ghost function Delta(db: CommunityDb, i: Input, id: Uuid): seq<int> {
    if i.Joined? && EffectiveJoin(db, i.user, i.chat, i.campaign) == Some(id) then [1]
    else if i.Left? && ByChat(db.communities, i.chat) == Some(id) then [-1]
    else []
  }

  /** The joins and leaves of a trace that count for a community. */
  ghost function Changes(mongo: bool, es: seq<Event>, id: Uuid): seq<int> {
    if |es| == 0 then []
    else
      Changes(mongo, es[..|es| - 1], id) + Delta(Run(mongo, es[..|es| - 1]).db, es[|es| - 1].input, id)
  }

  function CountOf(cs: map<Uuid, Community>, id: Uuid): int {
    if id in cs then cs[id].memberCount else 0
  }

  function InCommunity(id: Uuid): Participant -> bool { (p: Participant) => p.community == id }

  lemma PutCount(cs: map<Uuid, Community>, x: Community, id: Uuid)
    ensures CountOf(cs[x.id := x], id) == if id == x.id then x.memberCount else CountOf(cs, id)
  {
  }

  lemma PlainCount(db: CommunityDb, i: Input, id: Uuid)
    requires KeysOk(db.communities) && CountOf(db.communities, id) >= 0
    ensures var before, after := CountOf(db.communities, id), CountOf(PutRow(db.communities, WrittenRow(db, i)), id);
      after == if Delta(db, i, id) == [] then before else MaxInt(before + Delta(db, i, id)[0], 0)
  {
    if WrittenRow(db, i).Some? {
      PutCount(db.communities, WrittenRow(db, i).value, id);
    }
  }

  /** The counter after one event, for any community. */
  lemma CounterStep(s: State, e: Event, id: Uuid)
    requires KeysOk(s.db.communities) && CountOf(s.db.communities, id) >= 0
    ensures var before, after := CountOf(s.db.communities, id), CountOf(Apply(s, e).db.communities, id);
      after == if Delta(s.db, e.input, id) == [] then before else MaxInt(before + Delta(s.db, e.input, id)[0], 0)
  {
    if e.input.RevenueGenerated? || e.input.AdminDistribute? {
      MoneyEventFrame(s, e);
    } else {
      PlainCount(s.db, e.input, id);
    }
  }

  lemma EventRows(s: State, e: Event)
    ensures Apply(s, e).db.participants == s.db.participants + AddedParticipants(s.db, e.input)
  {
    if e.input.RevenueGenerated? || e.input.AdminDistribute? {
      MoneyEventFrame(s, e);
    }
  }

  lemma AddedCount(db: CommunityDb, i: Input, id: Uuid)
    ensures Count(db.participants + AddedParticipants(db, i), InCommunity(id))
      == Count(db.participants, InCommunity(id)) + Bit(Delta(db, i, id) == [1])
  {
    if i.Joined? && EffectiveJoin(db, i.user, i.chat, i.campaign).Some? {
      FilterSnoc(db.participants, AddedParticipants(db, i)[0], InCommunity(id));
    } else {
      assert db.participants + [] == db.participants;
    }
  }

  lemma {:induction false} CounterIsSaturated(mongo: bool, es: seq<Event>, id: Uuid)
    requires ValidRun(mongo, es)
    ensures CountOf(Run(mongo, es).db.communities, id) == Saturated(Changes(mongo, es, id))
  {
    if |es| > 0 {
      var s, e := Run(mongo, es[..|es| - 1]), es[|es| - 1];
      CounterIsSaturated(mongo, es[..|es| - 1], id);
      InvAfterEveryRun(mongo, es[..|es| - 1]);
      var before := Changes(mongo, es[..|es| - 1], id);
      SaturatedNotNegative(before);
      CounterStep(s, e, id);
      SaturatedStep(before, Delta(s.db, e.input, id), Saturated(before), CountOf(Apply(s, e).db.communities, id));
    }
  }

  lemma {:induction false} CounterWithinRows(mongo: bool, es: seq<Event>, id: Uuid)
    requires ValidRun(mongo, es)
    ensures 0 <= CountOf(Run(mongo, es).db.communities, id) <= Count(Run(mongo, es).db.participants, InCommunity(id))
  {
    if |es| > 0 {
      var s, e := Run(mongo, es[..|es| - 1]), es[|es| - 1];
      CounterWithinRows(mongo, es[..|es| - 1], id);
      InvAfterEveryRun(mongo, es[..|es| - 1]);
      CounterStep(s, e, id);
      EventRows(s, e);
      AddedCount(s.db, e.input, id);
    }
  }

  /** After every run the member count of a community is the largest suffix total of
      its effective joins and leaves, and never more than its participant rows. */
  lemma CounterAfterEveryRun(mongo: bool, es: seq<Event>, id: Uuid)
    requires ValidRun(mongo, es)
    ensures var count, t := CountOf(Run(mongo, es).db.communities, id), Changes(mongo, es, id);
      && (forall k :: 0 <= k <= |t| ==> Total(t[k..]) <= count)
      && (exists k :: 0 <= k <= |t| && Total(t[k..]) == count)
      && 0 <= count <= Count(Run(mongo, es).db.participants, InCommunity(id))
  {
    CounterIsSaturated(mongo, es, id);
    CounterWithinRows(mongo, es, id);
    SaturatedIsMaxSuffix(Changes(mongo, es, id));
  }

  /** At most one participant row per campaign and user. */
  predicate OneRowEach(ps: seq<Participant>) {
    forall i, j :: 0 <= i < j < |ps| ==> ps[i].campaign != ps[j].campaign || ps[i].userId != ps[j].userId
  }

  lemma AddedRowIsUnique(db: CommunityDb, i: Input)
    requires OneRowEach(db.participants)
    ensures OneRowEach(db.participants + AddedParticipants(db, i))
  {
  }

  lemma {:induction false} ParticipantsAreUnique(mongo: bool, es: seq<Event>)
    requires ValidRun(mongo, es)
    ensures OneRowEach(Run(mongo, es).db.participants)
  {
    if |es| > 0 {
      var s, e := Run(mongo, es[..|es| - 1]), es[|es| - 1];
      ParticipantsAreUnique(mongo, es[..|es| - 1]);
      EventRows(s, e);
      AddedRowIsUnique(s.db, e.input);
    }
  }

  // ---- activity ------------------------------------------------------------------------------

  datatype Increment = Increment(messages: int, replies: int, reactions: int)

  /** What an input adds to the activity row of a user in a chat: something only while
      the chat belongs to a registered group. */
  ghost function Added(db: CommunityDb, i: Input, user: int, chat: int): seq<Increment> {
    if db.mongo && i.ActivityUpdated? && i.user == user && i.chat == chat && ByChat(db.communities, chat).Some?
       && db.communities[ByChat(db.communities, chat).value].kind == Group
    then [Increment(i.messages, i.replies, i.reactions)]
    else []
  }

  /** The increments of a trace that reach that row. */
  ghost function Increments(mongo: bool, es: seq<Event>, user: int, chat: int): seq<Increment> {
    if |es| == 0 then []
    else
      Increments(mongo, es[..|es| - 1], user, chat) + Added(Run(mongo, es[..|es| - 1]).db, es[|es| - 1].input, user, chat)
  }

  function Messages(): Increment -> real { (i: Increment) => i.messages as real }

  function Replies(): Increment -> real { (i: Increment) => i.replies as real }

  function Reactions(): Increment -> real { (i: Increment) => i.reactions as real }

  ghost predicate RowIs(rows: map<(int, int), Activity>, user: int, chat: int, incs: seq<Increment>) {
    if (user, chat) !in rows then incs == []
    else
      var a := rows[(user, chat)];
      && a.messages as real == Sum(incs, Messages())
      && a.replies as real == Sum(incs, Replies())
      && a.reactions as real == Sum(incs, Reactions())
      && a.activeDays == 0
  }

  /** One upserted increment. */
  lemma AddKeepsRow(db: CommunityDb, user: int, chat: int, incs: seq<Increment>, u: int, k: int, i: Increment, now: int)
    requires RowIs(db.activity, user, chat, incs)
    ensures RowIs(AddActivity(db, u, k, i.messages, i.replies, i.reactions, now).activity, user, chat,
                  if db.mongo && u == user && k == chat then incs + [i] else incs)
  {
    SumSnoc(incs, i, Messages());
    SumSnoc(incs, i, Replies());
    SumSnoc(incs, i, Reactions());
  }

  lemma PlainKeepsRow(db: CommunityDb, i: Input, at: int, user: int, chat: int, incs: seq<Increment>)
    requires RowIs(db.activity, user, chat, incs)
    ensures RowIs(ActivityAfter(db, i, at), user, chat, incs + Added(db, i, user, chat))
  {
    assert incs + [] == incs;
    if i.ActivityUpdated? {
      AddKeepsRow(db, user, chat, incs, i.user, i.chat, Increment(i.messages, i.replies, i.reactions), at);
    }
  }

  lemma EventActivity(s: State, e: Event)
    ensures Apply(s, e).db.activity == ActivityAfter(s.db, e.input, e.at) && Apply(s, e).db.mongo == s.db.mongo
  {
    if e.input.RevenueGenerated? || e.input.AdminDistribute? {
      MoneyEventFrame(s, e);
    }
  }

  /** An activity row holds the totals of its increments, and its day count stays 0. */
  lemma {:induction false} ActivityIsTotal(mongo: bool, es: seq<Event>, user: int, chat: int)
    requires ValidRun(mongo, es)
    ensures Run(mongo, es).db.mongo == mongo
    ensures RowIs(Run(mongo, es).db.activity, user, chat, Increments(mongo, es, user, chat))
  {
    if |es| > 0 {
      var s, e := Run(mongo, es[..|es| - 1]), es[|es| - 1];
      ActivityIsTotal(mongo, es[..|es| - 1], user, chat);
      EventActivity(s, e);
      PlainKeepsRow(s.db, e.input, e.at, user, chat, Increments(mongo, es[..|es| - 1], user, chat));
    }
  }

  lemma SameTotalsSameRow(p: map<(int, int), Activity>, q: map<(int, int), Activity>, user: int, chat: int,
                          incs: seq<Increment>, others: seq<Increment>)
    requires RowIs(p, user, chat, incs) && RowIs(q, user, chat, others) && multiset(incs) == multiset(others)
    requires (user, chat) in p && (user, chat) in q
    ensures p[(user, chat)].(updatedAt := 0) == q[(user, chat)].(updatedAt := 0)
    ensures p[(user, chat)].Score() == q[(user, chat)].Score()
  {
    SumPermutes(incs, others, Messages());
    SumPermutes(incs, others, Replies());
    SumPermutes(incs, others, Reactions());
  }

  /** Two runs whose increments for a row are the same up to order give the row the
      same counters, hence the same score. */
  lemma ActivityIgnoresOrder(mongo: bool, es: seq<Event>, fs: seq<Event>, user: int, chat: int)
    requires ValidRun(mongo, es) && ValidRun(mongo, fs)
    requires multiset(Increments(mongo, es, user, chat)) == multiset(Increments(mongo, fs, user, chat))
    requires (user, chat) in Run(mongo, es).db.activity && (user, chat) in Run(mongo, fs).db.activity
    ensures var a, b := Run(mongo, es).db.activity[(user, chat)], Run(mongo, fs).db.activity[(user, chat)];
      a.(updatedAt := 0) == b.(updatedAt := 0) && a.Score() == b.Score()
  {
    ActivityIsTotal(mongo, es, user, chat);
    ActivityIsTotal(mongo, fs, user, chat);
    SameTotalsSameRow(Run(mongo, es).db.activity, Run(mongo, fs).db.activity, user, chat,
                      Increments(mongo, es, user, chat), Increments(mongo, fs, user, chat));
  }

  predicate NonNegative(incs: seq<Increment>) {
    forall k :: 0 <= k < |incs| ==> incs[k].messages >= 0 && incs[k].replies >= 0 && incs[k].reactions >= 0
  }

  lemma {:induction false} NonNegativeSum(incs: seq<Increment>)
    requires NonNegative(incs)
    ensures Sum(incs, Messages()) >= 0.0 && Sum(incs, Replies()) >= 0.0 && Sum(incs, Reactions()) >= 0.0
  {
    if |incs| > 0 {
      NonNegativeSum(incs[..|incs| - 1]);
    }
  }

  lemma SumsGrow(before: seq<Increment>, added: seq<Increment>)
    requires NonNegative(before + added) && |added| <= 1
    ensures 0.0 <= Sum(before, Messages()) <= Sum(before + added, Messages())
    ensures 0.0 <= Sum(before, Replies()) <= Sum(before + added, Replies())
    ensures 0.0 <= Sum(before, Reactions()) <= Sum(before + added, Reactions())
  {
    assert forall k :: 0 <= k < |before| ==> (before + added)[k] == before[k];
    NonNegativeSum(before);
    if |added| == 1 {
      assert added == [added[0]] && (before + added)[|before|] == added[0];
      SumSnoc(before, added[0], Messages());
      SumSnoc(before, added[0], Replies());
      SumSnoc(before, added[0], Reactions());
    } else {
      assert before + added == before;
    }
  }

  lemma ScoreGrows(a: Activity, b: Activity)
    requires 0 <= a.messages <= b.messages && 0 <= a.replies <= b.replies && 0 <= a.reactions <= b.reactions
    requires a.activeDays == b.activeDays == 0
    ensures 0 <= a.Score() <= b.Score() <= 85
  {
  }

  lemma RowGrows(rows: map<(int, int), Activity>, next: map<(int, int), Activity>, user: int, chat: int,
                 before: seq<Increment>, added: seq<Increment>)
    requires RowIs(rows, user, chat, before) && RowIs(next, user, chat, before + added)
    requires NonNegative(before + added) && |added| <= 1 && (user, chat) in next
    ensures 0 <= next[(user, chat)].Score() <= 85
    ensures (user, chat) in rows ==> rows[(user, chat)].Score() <= next[(user, chat)].Score()
  {
    SumsGrow(before, added);
    var b := next[(user, chat)];
    ScoreGrows(b, b);
    if (user, chat) in rows {
      ScoreGrows(rows[(user, chat)], b);
    }
  }

  /** With nonnegative increments a member's score is in 0..85, so the cap at 100 never
      acts, and one more event never lowers it. */
  lemma ActivityScoreGrows(mongo: bool, es: seq<Event>, user: int, chat: int)
    requires ValidRun(mongo, es) && |es| > 0 && NonNegative(Increments(mongo, es, user, chat))
    requires (user, chat) in Run(mongo, es).db.activity
    ensures var a := Run(mongo, es).db.activity[(user, chat)];
      && 0 <= a.Score() <= 85
      && ((user, chat) in Run(mongo, es[..|es| - 1]).db.activity ==>
            Run(mongo, es[..|es| - 1]).db.activity[(user, chat)].Score() <= a.Score())
  {
    var rest := es[..|es| - 1];
    ActivityIsTotal(mongo, es, user, chat);
    ActivityIsTotal(mongo, rest, user, chat);
    RowGrows(Run(mongo, rest).db.activity, Run(mongo, es).db.activity, user, chat,
             Increments(mongo, rest, user, chat), Added(Run(mongo, rest).db, es[|es| - 1].input, user, chat));
  }
}
