/** Whole runs of the community service: what is paid, how often, and under which
    references, for every sequence of events with handlers run one at a time. */
module MoneySafety {
  import opened Seqs
  import opened Numbers
  import opened FraudModels
  import opened CommunityModels
  import opened CommunityStore
  import opened Rewards
  import opened RevenueEngine

  ghost predicate ValidRun(mongo: bool, es: seq<Event>)
    decreases |es|, 0
  {
    |es| == 0 || (ValidRun(mongo, es[..|es| - 1]) && Enabled(Run(mongo, es[..|es| - 1]), es[|es| - 1]))
  }

  ghost function Run(mongo: bool, es: seq<Event>): State
    decreases |es|, 1
  {
    if |es| == 0 then Init(mongo) else Apply(Run(mongo, es[..|es| - 1]), es[|es| - 1])
  }

  // ---- the claims a trace makes -------------------------------------------------------

  /** A revenue event that counts: the first well-formed one for its pair. */
  datatype Claim = Claim(revId: Uuid, campaign: Uuid, community: Uuid, amount: real, multiplier: real)

  predicate SamePair(c: Claim, campaign: Uuid, community: Uuid) {
    c.campaign == campaign && c.community == community
  }

  predicate Clashes(cs: seq<Claim>, campaign: Uuid, community: Uuid, revId: Uuid) {
    exists k :: 0 <= k < |cs| && (SamePair(cs[k], campaign, community) || cs[k].revId == revId)
  }

  /** A revenue event adds a claim if it has a positive amount, a known community, a
      valid campaign, a fresh id, and no earlier claim for the same pair. */
  ghost function WithClaim(before: seq<Claim>, db: CommunityDb, i: Input): seq<Claim>
    requires i.RevenueGenerated?
  {
    var c := Resolve(db, i.ref);
    if i.amount <= 0.0 || i.validJoins < 0 || c.None? || i.campaign.None?
       || Clashes(before, i.campaign.value, c.value, i.revId)
    then before
    else before + [Claim(i.revId, i.campaign.value, c.value, i.amount, RevenueMultiplier(db.communities[c.value].qualityScore))]
  }

  /** The claims of a trace, found without looking at any revenue row. */
  ghost function Claims(mongo: bool, es: seq<Event>): seq<Claim> {
    if |es| == 0 then []
    else
      var before, i := Claims(mongo, es[..|es| - 1]), es[|es| - 1].input;
      if i.RevenueGenerated? then WithClaim(before, Run(mongo, es[..|es| - 1]).db, i) else before
  }

  function Budgeted(): Claim -> real { (c: Claim) => c.amount * c.multiplier }

  function Budget(cs: seq<Claim>): real { Sum(cs, Budgeted()) }

  // ---- the invariant ------------------------------------------------------------------

  function ClaimOf(p: Payment): Claim {
    Claim(p.revId, p.revenue.campaign, p.revenue.community, p.revenue.total, p.Multiplier())
  }

  function ToClaim(): Payment -> Claim { (p: Payment) => ClaimOf(p) }

  function Blocks(ps: seq<Payment>): seq<Message> {
    if |ps| == 0 then [] else Blocks(ps[..|ps| - 1]) + ps[|ps| - 1].Block()
  }

  predicate DistinctUsers(ms: seq<Member>) {
    forall i, j :: 0 <= i < j < |ms| ==> ms[i].userId != ms[j].userId
  }

  /** No path sets a custom split. */
  predicate DefaultSplit(c: Community) {
    c.ownerPercent == 0.0 && c.membersPercent == 0.0 && c.platformPercent == 0.0
  }

  predicate PaymentOk(p: Payment) {
    DefaultSplit(p.community) && DistinctUsers(p.members) && p.revenue.total > 0.0
  }

  /** Every revenue row is distributed and has its payment, and the other way round. */
  ghost predicate RowsMatch(rs: map<Uuid, Revenue>, ps: seq<Payment>) {
    && (forall k :: 0 <= k < |ps| ==>
          ps[k].revId in rs && rs[ps[k].revId] == ps[k].revenue.(state := Distributed))
    && (forall id :: id in rs ==> exists k :: 0 <= k < |ps| && ps[k].revId == id)
  }

  ghost predicate CommunitiesOk(cs: map<Uuid, Community>) {
    KeysOk(cs) && forall id :: id in cs ==> DefaultSplit(cs[id])
  }

  predicate PaymentsOk(ps: seq<Payment>) {
    forall k :: 0 <= k < |ps| ==> PaymentOk(ps[k])
  }

  ghost predicate Inv(s: State) {
    && CommunitiesOk(s.db.communities)
    && PaymentsOk(s.payments)
    && RowsMatch(s.db.revenues, s.payments)
    && s.published == Blocks(s.payments)
  }

  lemma PutKeepsCommunities(cs: map<Uuid, Community>, c: Community)
    requires CommunitiesOk(cs) && DefaultSplit(c)
    requires if c.id in cs then c.chatId == cs[c.id].chatId else ByChat(cs, c.chatId).None?
    ensures CommunitiesOk(cs[c.id := c])
  {
  }

  /** The row `x` an event may write: a new community under free keys, or an old one
      with its chat, invite and split, and unless a score arrived its score. */
  ghost predicate RowWrite(cs: map<Uuid, Community>, x: Community, i: Input) {
    if x.id in cs then
      var was := cs[x.id];
      && x.chatId == was.chatId && x.invite == was.invite && x.kind == was.kind
      && x.ownerPercent == was.ownerPercent && x.membersPercent == was.membersPercent
      && x.platformPercent == was.platformPercent
      && (i.ScoreUpdated? || x.qualityScore == was.qualityScore)
    else
      i.Register? && CanInsert(cs, i.id, i.chat, i.invite) && x == NewCommunity(i.id, i.chat, i.kind, i.invite)
  }

  lemma WrittenRowOk(db: CommunityDb, i: Input)
    requires KeysOk(db.communities) && WrittenRow(db, i).Some?
    ensures RowWrite(db.communities, WrittenRow(db, i).value, i)
  {
  }

  lemma PlainKeepsCommunities(db: CommunityDb, e: Event)
    requires CommunitiesOk(db.communities) && !e.input.RevenueGenerated? && !e.input.AdminDistribute?
    ensures CommunitiesOk(ApplyDb(db, e).communities)
  {
    var row := WrittenRow(db, e.input);
    if row.Some? {
      WrittenRowOk(db, e.input);
      PutKeepsCommunities(db.communities, row.value);
    }
  }

  /** A revenue event or an admin trigger writes revenues and distribution rows only. */
  lemma MoneyEventFrame(s: State, e: Event)
    requires e.input.RevenueGenerated? || e.input.AdminDistribute?
    ensures var db := Apply(s, e).db;
      && db.communities == s.db.communities && db.participants == s.db.participants
      && db.activity == s.db.activity && db.mongo == s.db.mongo
  {
  }

  /** Between events no revenue is pending, so the admin route finds nothing to pay. */
  lemma NothingPending(s: State, id: Uuid)
    requires Inv(s)
    ensures !Payable(s.db, id)
  {
    if id in s.db.revenues {
      var k :| 0 <= k < |s.payments| && s.payments[k].revId == id;
    }
  }

  lemma RowsMatchPaid(rs: map<Uuid, Revenue>, ps: seq<Payment>, p: Payment)
    requires RowsMatch(rs, ps) && p.revId !in rs
    ensures RowsMatch(rs[p.revId := p.revenue.(state := Distributed)], ps + [p])
  {
    var rt, pt := rs[p.revId := p.revenue.(state := Distributed)], ps + [p];
    forall id | id in rt ensures exists k :: 0 <= k < |pt| && pt[k].revId == id {
      if id == p.revId {
        assert pt[|ps|].revId == id;
      } else {
        var k :| 0 <= k < |ps| && ps[k].revId == id;
        assert pt[k].revId == id;
      }
    }
  }

  lemma BlocksSnoc(ps: seq<Payment>, p: Payment)
    ensures Blocks(ps + [p]) == Blocks(ps) + p.Block()
  {
    SnocFront(ps, p);
  }

  /** The payment an accepted revenue event makes. */
  ghost function PaymentOf(s: State, i: Input): Payment
    requires Inv(s) && i.RevenueGenerated? && Accepts(s.db, i).Some?
  {
    PaymentFor(WithRevenue(s.db, i), i.revId, i.members)
  }

  lemma AcceptedState(s: State, e: Event)
    requires Inv(s) && e.input.RevenueGenerated? && Accepts(s.db, e.input).Some?
    ensures var p, t := PaymentOf(s, e.input), Apply(s, e);
      && t.payments == s.payments + [p]
      && t.published == s.published + p.Block()
      && t.db.communities == s.db.communities
      && t.db.revenues == s.db.revenues[p.revId := p.revenue.(state := Distributed)]
      && p.revId == e.input.revId && p.revId !in s.db.revenues
  {
  }

  lemma PaymentForFacts(db: CommunityDb, id: Uuid, members: seq<Member>, now: int)
    requires Payable(db, id) && MembersOk(db, id, members, now)
    ensures var p := PaymentFor(db, id, members);
      && p.revenue == db.revenues[id] && p.community == db.communities[db.revenues[id].community]
      && DistinctUsers(p.members)
  {
  }

  lemma AcceptedPaymentOk(s: State, e: Event)
    requires Inv(s) && Enabled(s, e) && e.input.RevenueGenerated? && Accepts(s.db, e.input).Some?
    ensures PaymentOk(PaymentOf(s, e.input))
  {
    var i := e.input;
    var db := WithRevenue(s.db, i);
    assert Payable(db, i.revId);
    PaymentForFacts(db, i.revId, i.members, e.at);
    assert DefaultSplit(s.db.communities[db.revenues[i.revId].community]);
  }

  lemma AcceptedKeepsInv(s: State, e: Event)
    requires Inv(s) && Enabled(s, e) && e.input.RevenueGenerated? && Accepts(s.db, e.input).Some?
    ensures Inv(Apply(s, e))
  {
    var p := PaymentOf(s, e.input);
    AcceptedState(s, e);
    AcceptedPaymentOk(s, e);
    RowsMatchPaid(s.db.revenues, s.payments, p);
    BlocksSnoc(s.payments, p);
  }

  lemma EventKeepsInv(s: State, e: Event)
    requires Inv(s) && Enabled(s, e)
    ensures Inv(Apply(s, e))
  {
    if e.input.RevenueGenerated? {
      if Accepts(s.db, e.input).Some? {
        AcceptedKeepsInv(s, e);
      }
    } else if e.input.AdminDistribute? {
      NothingPending(s, e.input.id);
    } else {
      PlainKeepsCommunities(s.db, e);
    }
  }

  lemma {:induction false} InvAfterEveryRun(mongo: bool, es: seq<Event>)
    requires ValidRun(mongo, es)
    ensures Inv(Run(mongo, es))
  {
    if |es| > 0 {
      InvAfterEveryRun(mongo, es[..|es| - 1]);
      EventKeepsInv(Run(mongo, es[..|es| - 1]), es[|es| - 1]);
    }
  }

  /** In every run the admin route, whatever id it is given, changes nothing at all. */
  lemma AdminTriggerChangesNothing(mongo: bool, es: seq<Event>, at: int, id: Uuid, members: seq<Member>)
    requires ValidRun(mongo, es)
    ensures Apply(Run(mongo, es), Event(at, AdminDistribute(id, members))) == Run(mongo, es)
  {
    InvAfterEveryRun(mongo, es);
    NothingPending(Run(mongo, es), id);
  }

  // ---- at most one payment per pair -----------------------------------------------------

  lemma RowHasClaim(s: State, id: Uuid) returns (k: int)
    requires Inv(s) && id in s.db.revenues
    ensures 0 <= k < |s.payments| == |Map(s.payments, ToClaim())|
    ensures Map(s.payments, ToClaim())[k] == ClaimOf(s.payments[k])
    ensures s.payments[k].revId == id
    ensures s.payments[k].revenue.(state := Distributed) == s.db.revenues[id]
  {
    k :| 0 <= k < |s.payments| && s.payments[k].revId == id;
    MapAt(s.payments, ToClaim());
  }

  /** The duplicate check of the store sees exactly the clashes of the trace. */
  lemma DuplicateIff(s: State, campaign: Uuid, community: Uuid, revId: Uuid)
    requires Inv(s)
    ensures Clashes(Map(s.payments, ToClaim()), campaign, community, revId)
      <==> HasRevenue(s.db, campaign, community) || revId in s.db.revenues
  {
    var cs := Map(s.payments, ToClaim());
    MapAt(s.payments, ToClaim());
    if revId in s.db.revenues {
      var k := RowHasClaim(s, revId);
      assert cs[k].revId == revId;
    }
    if HasRevenue(s.db, campaign, community) {
      var id :| id in s.db.revenues && s.db.revenues[id].campaign == campaign && s.db.revenues[id].community == community;
      var k := RowHasClaim(s, id);
      assert SamePair(cs[k], campaign, community);
    }
    if Clashes(cs, campaign, community, revId) {
      var k :| 0 <= k < |cs| && (SamePair(cs[k], campaign, community) || cs[k].revId == revId);
      assert s.payments[k].revId in s.db.revenues;
    }
  }

  lemma LastClaim(s: State, e: Event)
    requires Inv(s) && e.input.RevenueGenerated?
    ensures Map(Apply(s, e).payments, ToClaim()) == WithClaim(Map(s.payments, ToClaim()), s.db, e.input)
  {
    var i := e.input;
    if Accepts(s.db, i).Some? {
      AcceptedState(s, e);
      MapSnoc(s.payments, PaymentOf(s, i), ToClaim());
    }
    if Resolve(s.db, i.ref).Some? && i.campaign.Some? {
      DuplicateIff(s, i.campaign.value, Resolve(s.db, i.ref).value, i.revId);
    }
  }

  /** What the store pays for is exactly what the trace claims, in order. */
  lemma {:induction false} PaymentsAreClaims(mongo: bool, es: seq<Event>)
    requires ValidRun(mongo, es)
    ensures Map(Run(mongo, es).payments, ToClaim()) == Claims(mongo, es)
  {
    if |es| > 0 {
      var s, e := Run(mongo, es[..|es| - 1]), es[|es| - 1];
      PaymentsAreClaims(mongo, es[..|es| - 1]);
      InvAfterEveryRun(mongo, es[..|es| - 1]);
      if e.input.RevenueGenerated? {
        LastClaim(s, e);
      } else if e.input.AdminDistribute? {
        NothingPending(s, e.input.id);
      }
    }
  }

  lemma {:induction false} ClaimsAreDistinct(mongo: bool, es: seq<Event>)
    requires ValidRun(mongo, es)
    ensures forall i, j :: 0 <= i < j < |Claims(mongo, es)| ==>
      && !SamePair(Claims(mongo, es)[i], Claims(mongo, es)[j].campaign, Claims(mongo, es)[j].community)
      && Claims(mongo, es)[i].revId != Claims(mongo, es)[j].revId
  {
    if |es| > 0 {
      ClaimsAreDistinct(mongo, es[..|es| - 1]);
    }
  }

  /** Every message ever published belongs to the payment of one claim, no pair of
      campaign and community is paid twice and no revenue is: replays, admin triggers
      and status or score changes add nothing. */
  lemma EachPairPaidAtMostOnce(mongo: bool, es: seq<Event>)
    requires ValidRun(mongo, es)
    ensures var ps := Run(mongo, es).payments;
      && Run(mongo, es).published == Blocks(ps)
      && forall i, j :: 0 <= i < j < |ps| ==>
           && ps[i].revId != ps[j].revId
           && !(ps[i].revenue.campaign == ps[j].revenue.campaign && ps[i].revenue.community == ps[j].revenue.community)
  {
    InvAfterEveryRun(mongo, es);
    PaymentsAreClaims(mongo, es);
    ClaimsAreDistinct(mongo, es);
    var ps, cs := Run(mongo, es).payments, Claims(mongo, es);
    MapAt(ps, ToClaim());
    forall i, j | 0 <= i < j < |ps|
      ensures ps[i].revId != ps[j].revId
      ensures !(ps[i].revenue.campaign == ps[j].revenue.campaign && ps[i].revenue.community == ps[j].revenue.community)
    {
      assert cs[i] == ClaimOf(ps[i]) && cs[j] == ClaimOf(ps[j]);
    }
  }

  // ---- never more than the budget ---------------------------------------------------------

  function Part(t: real, percent: real, k: real): real { t * (percent / 100.0) * k }

  lemma PartIs(t: real, percent: real, k: real)
    ensures Part(t, percent, k) == t * k * (percent / 100.0)
  {
    Commute(t, percent / 100.0, k);
  }

  lemma SplitSum(t: real, k: real, o: real, m: real, q: real)
    ensures Part(t, o, k) + Part(t, m, k) + Part(t, q, k) == t * k * ((o + m + q) / 100.0)
  {
    PartIs(t, o, k);
    PartIs(t, m, k);
    PartIs(t, q, k);
    SumOfThree(t * k, o / 100.0, m / 100.0, q / 100.0);
  }

  lemma ScaleIff(base: real, share: real)
    requires base >= 0.0
    ensures base * share == base <==> base == 0.0 || share == 1.0
  {
    if base * share == base && base != 0.0 {
      CancelFactor(share, 1.0, base);
    }
  }

  lemma SplitExactIff(t: real, k: real, o: real, m: real, q: real)
    requires t > 0.0 && k >= 0.0
    ensures Part(t, o, k) + Part(t, m, k) + Part(t, q, k) == t * k <==> k == 0.0 || o + m + q == 100.0
  {
    SplitSum(t, k, o, m, q);
    ZeroProductIff(t, k);
    ScaleIff(t * k, (o + m + q) / 100.0);
    PercentIsWhole(o + m + q);
  }

  lemma ZeroProductIff(t: real, k: real)
    requires t > 0.0 && k >= 0.0
    ensures t * k >= 0.0 && (t * k == 0.0 <==> k == 0.0)
  {
    ProductSign(t, k);
  }

  lemma PercentIsWhole(percent: real)
    ensures percent / 100.0 == 1.0 <==> percent == 100.0
  {
  }

  lemma PaymentAsParts(p: Payment)
    ensures p.Owner() == Part(p.revenue.total, p.community.Percentages().0, p.Multiplier())
    ensures p.Pool() == Part(p.revenue.total, p.community.Percentages().1, p.Multiplier())
    ensures p.Platform() == Part(p.revenue.total, p.community.Percentages().2, p.Multiplier())
  {
  }

  lemma SplitIsWhole(c: Community)
    ensures c.Percentages().0 + c.Percentages().1 + c.Percentages().2 == 100.0
      <==> c.ownerPercent <= 0.0 || c.ownerPercent + c.membersPercent + c.platformPercent == 100.0
  {
  }

  lemma ZeroMultiplierIff(p: Payment)
    ensures p.Multiplier() >= 0.0 && (p.Multiplier() == 0.0 <==> p.community.qualityScore < 30)
  {
  }

  /** The three announced parts make up the multiplied revenue exactly when the
      community is frozen (all is 0), the split is the default one, or a custom split
      happens to add up to 100. */
  lemma AnnouncedSplitIsExactIff(p: Payment)
    requires p.revenue.total > 0.0
    ensures p.Owner() + p.Pool() + p.Platform() == p.revenue.total * p.Multiplier()
      <==> p.community.qualityScore < 30
           || p.community.ownerPercent <= 0.0
           || p.community.ownerPercent + p.community.membersPercent + p.community.platformPercent == 100.0
  {
    var c := p.community;
    PaymentAsParts(p);
    ZeroMultiplierIff(p);
    SplitExactIff(p.revenue.total, p.Multiplier(), c.Percentages().0, c.Percentages().1, c.Percentages().2);
    SplitIsWhole(c);
  }

  lemma RewardsTon(ps: seq<Payout>, revId: Uuid)
    ensures TotalTon(RewardMessages(ps, revId)) * NANO == NanoTotal(ps)
  {
    if |ps| > 0 {
      RewardsTon(ps[..|ps| - 1], revId);
      SumSnoc(RewardMessages(ps[..|ps| - 1], revId), RewardOf(revId)(ps[|ps| - 1]), TonOf());
    }
  }

  lemma DefaultSplitSums(c: Community)
    requires DefaultSplit(c)
    ensures c.Percentages().0 + c.Percentages().1 + c.Percentages().2 == 100.0
    ensures c.Percentages().0 >= 0.0 && c.Percentages().1 >= 0.0 && c.Percentages().2 >= 0.0
  {
  }

  /** What a block of messages pays, part by part. */
  lemma BlockTon(owner: real, pool: real, platform: real, ps: seq<Payout>, revId: Uuid, community: Uuid)
    requires owner >= 0.0 && platform >= 0.0
    ensures TotalTon(BlockOf(revId, community, owner, pool, platform, ps)) == owner + platform + NanoTotal(ps) / NANO
  {
    var a := if owner > 0.0 then [OwnerIncome(community, owner)] else [];
    var b := RewardMessages(ps, revId);
    var c := if platform > 0.0 then [Commission(platform)] else [];
    var d := [RevenueDistributed(revId, community, owner, pool, platform)];
    SumConcat(a + b + c, d, TonOf());
    SumConcat(a + b, c, TonOf());
    SumConcat(a, b, TonOf());
    RewardsTon(ps, revId);
    SumOne(a, TonOf());
    SumOne(c, TonOf());
    SumOne(d, TonOf());
  }

  lemma SumOne<T>(s: seq<T>, f: T -> real)
    requires |s| <= 1
    ensures Sum(s, f) == if |s| == 0 then 0.0 else f(s[0])
  {
    if |s| == 1 {
      assert s == [] + [s[0]];
      SumSnoc([], s[0], f);
    }
  }

  lemma PartSign(t: real, percent: real, k: real)
    requires t >= 0.0 && percent >= 0.0 && k >= 0.0
    ensures Part(t, percent, k) >= 0.0
  {
    QuotientSign(percent, 100.0);
    ProductSign(t, percent / 100.0);
    ProductSign(t * (percent / 100.0), k);
  }

  lemma DefaultParts(t: real, k: real, o: real, m: real, q: real)
    requires t >= 0.0 && k >= 0.0 && o >= 0.0 && m >= 0.0 && q >= 0.0 && o + m + q == 100.0
    ensures Part(t, o, k) >= 0.0 && Part(t, m, k) >= 0.0 && Part(t, q, k) >= 0.0
    ensures Part(t, o, k) + Part(t, m, k) + Part(t, q, k) == t * k
  {
    PartSign(t, o, k);
    PartSign(t, m, k);
    PartSign(t, q, k);
    SplitSum(t, k, o, m, q);
  }

  /** The parts of a default split make up the multiplied revenue, and what is paid is
      the owner's and platform's part in full plus the members' rounded rewards. */
  lemma PaymentParts(p: Payment)
    requires PaymentOk(p)
    ensures p.Owner() >= 0.0 && p.Pool() >= 0.0 && p.Platform() >= 0.0
    ensures p.Owner() + p.Pool() + p.Platform() == p.revenue.total * p.Multiplier()
    ensures TotalTon(p.Block()) == p.Owner() + p.Platform() + NanoTotal(p.MemberPayouts()) / NANO
  {
    var c := p.community;
    PaymentAsParts(p);
    ZeroMultiplierIff(p);
    DefaultSplitSums(c);
    DefaultParts(p.revenue.total, p.Multiplier(), c.Percentages().0, c.Percentages().1, c.Percentages().2);
    BlockTon(p.Owner(), p.Pool(), p.Platform(), p.MemberPayouts(), p.revId, p.revenue.community);
  }

  /** One payment never pays out more than its revenue times the multiplier then in force. */
  lemma PaymentWithinBudget(p: Payment)
    requires PaymentOk(p)
    ensures TotalTon(p.Block()) <= p.revenue.total * p.Multiplier()
  {
    PaymentParts(p);
    if p.PaysMembers() {
      PoolIsNeverExceeded(p.members, p.Pool());
    }
  }

  /** Without a members' part everything is paid, to the last fraction. */
  lemma PaymentOutsideGroupsIsExact(p: Payment)
    requires PaymentOk(p) && p.community.kind != Group
    ensures TotalTon(p.Block()) == p.revenue.total * p.Multiplier()
  {
    PaymentParts(p);
    assert p.Pool() == 0.0;
  }

  /** In a group with a scoring member only rounding and dust are missing. */
  lemma GroupPaymentShortfall(p: Payment)
    requires PaymentOk(p) && p.PaysMembers() && Count(p.members, Scores()) > 0
    ensures var paid := |p.MemberPayouts()|;
      (p.revenue.total * p.Multiplier() - TotalTon(p.Block())) * NANO
        < paid as real + 100_000.0 * (Count(p.members, Scores()) - paid) as real
  {
    PaymentParts(p);
    RoundingBound(p.members, p.Pool());
  }

  lemma PaymentWithinClaim(p: Payment)
    requires PaymentOk(p)
    ensures Sum(p.Block(), TonOf()) <= Budgeted()(ToClaim()(p))
  {
    PaymentWithinBudget(p);
  }

  lemma AddWithin<T, U>(paid: seq<T>, block: seq<T>, f: T -> real, claims: seq<U>, c: U, g: U -> real)
    requires Sum(paid, f) <= Sum(claims, g) && Sum(block, f) <= g(c)
    ensures Sum(paid + block, f) <= Sum(claims + [c], g)
  {
    SumConcat(paid, block, f);
    SumSnoc(claims, c, g);
  }

  lemma {:induction false} BlocksWithinBudget(ps: seq<Payment>)
    requires PaymentsOk(ps)
    ensures TotalTon(Blocks(ps)) <= Budget(Map(ps, ToClaim()))
  {
    if |ps| > 0 {
      var n := |ps| - 1;
      BlocksWithinBudget(ps[..n]);
      PaymentWithinClaim(ps[n]);
      AddWithin(Blocks(ps[..n]), ps[n].Block(), TonOf(), Map(ps[..n], ToClaim()), ToClaim()(ps[n]), Budgeted());
    }
  }

  /** All earnings of a run together never exceed the sum, over distinct pairs of
      campaign and community, of the first accepted amount times the multiplier in
      force when it was accepted. */
  lemma MoneySafety(mongo: bool, es: seq<Event>)
    requires ValidRun(mongo, es)
    ensures TotalTon(Run(mongo, es).published) <= Budget(Claims(mongo, es))
  {
    InvAfterEveryRun(mongo, es);
    PaymentsAreClaims(mongo, es);
    BlocksWithinBudget(Run(mongo, es).payments);
  }
}
