/** The distribution rows and the published member rewards of a run are one ledger,
    written twice. */
module RewardLedger {
  import opened Seqs
  import opened Numbers
  import opened FraudModels
  import opened CommunityModels
  import opened CommunityStore
  import opened Rewards
  import opened RefIds
  import opened RevenueEngine
  import opened MoneySafety

  function IsReward(): Message -> bool { (m: Message) => m.MemberReward? }

  /** The message a row calls for: its amount in whole nanos. */
  function RewardFor(): Distribution -> Message {
    (d: Distribution) => MemberReward(d.userId, (d.amount * 1_000_000_000.0).Floor, RefId(d.revenue, d.userId))
  }

  predicate Truncates(p: Payout) {
    p.nano == Trunc(p.share * NANO) && p.share >= DUST
  }

  predicate Truncated(ps: seq<Payout>) {
    forall p :: p in ps ==> Truncates(p)
  }

  lemma {:induction false} PayoutsTruncate(members: seq<Member>, total: real, pool: real)
    requires total != 0.0
    ensures Truncated(PayoutsFor(members, total, pool))
  {
    if |members| > 0 {
      PayoutsTruncate(members[..|members| - 1], total, pool);
    }
  }

  lemma RowCallsForReward(p: Payout, revId: Uuid, community: Uuid)
    requires Truncates(p)
    ensures RewardFor()(RowOf(revId, community)(p)) == RewardOf(revId)(p)
  {
  }

  lemma RowsCallForRewards(ps: seq<Payout>, revId: Uuid, community: Uuid)
    requires Truncated(ps)
    ensures Map(DistributionRows(ps, revId, community), RewardFor()) == RewardMessages(ps, revId)
  {
    forall p | p in ps ensures RewardFor()(RowOf(revId, community)(p)) == RewardOf(revId)(p) {
      RowCallsForReward(p, revId, community);
    }
    MapMap(ps, RowOf(revId, community), RewardFor(), RewardOf(revId));
  }

  lemma {:induction false} OnlyRewards(ps: seq<Payout>, revId: Uuid)
    ensures Filter(RewardMessages(ps, revId), IsReward()) == RewardMessages(ps, revId)
  {
    if |ps| > 0 {
      var head := ps[..|ps| - 1];
      OnlyRewards(head, revId);
      FilterSnoc(RewardMessages(head, revId), RewardOf(revId)(ps[|ps| - 1]), IsReward());
    }
  }

  lemma FilterOne<T>(s: seq<T>, p: T -> bool)
    requires |s| <= 1 && forall k :: 0 <= k < |s| ==> !p(s[k])
    ensures Filter(s, p) == []
  {
  }

  lemma FilterFour<T>(a: seq<T>, b: seq<T>, c: seq<T>, d: seq<T>, p: T -> bool)
    requires Filter(a, p) == [] && Filter(b, p) == b && Filter(c, p) == [] && Filter(d, p) == []
    ensures Filter(a + b + c + d, p) == b
  {
    FilterConcat(a + b + c, d, p);
    FilterConcat(a + b, c, p);
    FilterConcat(a, b, p);
  }

  lemma RewardsOfBlock(owner: real, pool: real, platform: real, ps: seq<Payout>, revId: Uuid, community: Uuid)
    ensures Filter(BlockOf(revId, community, owner, pool, platform, ps), IsReward()) == RewardMessages(ps, revId)
  {
    var a := if owner > 0.0 then [OwnerIncome(community, owner)] else [];
    var c := if platform > 0.0 then [Commission(platform)] else [];
    var d := [RevenueDistributed(revId, community, owner, pool, platform)];
    OnlyRewards(ps, revId);
    FilterOne(a, IsReward());
    FilterOne(c, IsReward());
    FilterOne(d, IsReward());
    FilterFour(a, RewardMessages(ps, revId), c, d, IsReward());
  }

  lemma PaymentTruncates(p: Payment)
    ensures Truncated(p.MemberPayouts())
  {
    if p.PaysMembers() && TotalScore(p.members) != 0.0 {
      PayoutsTruncate(p.members, TotalScore(p.members), p.Pool());
    }
  }

  lemma BlockRewards(p: Payment)
    ensures Filter(p.Block(), IsReward()) == Map(p.Rows(), RewardFor())
  {
    PaymentTruncates(p);
    RowsCallForRewards(p.MemberPayouts(), p.revId, p.community.id);
    RewardsOfBlock(p.Owner(), p.Pool(), p.Platform(), p.MemberPayouts(), p.revId, p.revenue.community);
  }

  lemma PaymentRows(p: Payment)
    ensures forall k :: 0 <= k < |p.Rows()| ==>
      p.Rows()[k].revenue == p.revId && p.Rows()[k].community == p.community.id && p.Rows()[k].amount >= DUST
  {
    PaymentTruncates(p);
    MapAt(p.MemberPayouts(), RowOf(p.revId, p.community.id));
    forall k | 0 <= k < |p.MemberPayouts()| ensures Truncates(p.MemberPayouts()[k]) {
    }
  }

  /** A row belongs to a distributed revenue of its community and is above the dust limit. */
  predicate RowOk(rs: map<Uuid, Revenue>, d: Distribution) {
    && d.revenue in rs && rs[d.revenue].state == Distributed
    && rs[d.revenue].community == d.community && d.amount >= DUST
  }

  predicate RowsOk(rs: map<Uuid, Revenue>, ds: seq<Distribution>) {
    forall k :: 0 <= k < |ds| ==> RowOk(rs, ds[k])
  }

  predicate Matched(s: State) {
    && Filter(s.published, IsReward()) == Map(s.db.distributions, RewardFor())
    && RowsOk(s.db.revenues, s.db.distributions)
  }

  lemma AcceptedRows(s: State, e: Event)
    requires Inv(s) && e.input.RevenueGenerated? && Accepts(s.db, e.input).Some?
    ensures Apply(s, e).db.distributions == s.db.distributions + PaymentOf(s, e.input).Rows()
    ensures PaymentOf(s, e.input).community.id == PaymentOf(s, e.input).revenue.community
  {
  }

  lemma RowsOkPaid(rs: map<Uuid, Revenue>, ds: seq<Distribution>, p: Payment)
    requires RowsOk(rs, ds) && p.revId !in rs && p.community.id == p.revenue.community
    ensures RowsOk(rs[p.revId := p.revenue.(state := Distributed)], ds + p.Rows())
  {
    PaymentRows(p);
    var rt, dt := rs[p.revId := p.revenue.(state := Distributed)], ds + p.Rows();
    forall k | 0 <= k < |dt| ensures RowOk(rt, dt[k]) {
      if k < |ds| {
        assert RowOk(rs, ds[k]);
      }
    }
  }

  lemma AcceptedKeepsMatched(s: State, e: Event)
    requires Inv(s) && Matched(s) && e.input.RevenueGenerated? && Accepts(s.db, e.input).Some?
    ensures Matched(Apply(s, e))
  {
    var p := PaymentOf(s, e.input);
    AcceptedState(s, e);
    AcceptedRows(s, e);
    BlockRewards(p);
    FilterConcat(s.published, p.Block(), IsReward());
    MapConcat(s.db.distributions, p.Rows(), RewardFor());
    RowsOkPaid(s.db.revenues, s.db.distributions, p);
  }

  lemma PlainEventFrame(s: State, e: Event)
    requires !e.input.RevenueGenerated? && !e.input.AdminDistribute?
    ensures var t := Apply(s, e);
      t.published == s.published && t.db.distributions == s.db.distributions && t.db.revenues == s.db.revenues
  {
  }

  /** In every run the member rewards published are, in order, exactly the messages the
      distribution rows call for, each nano value being its row's amount truncated; and
      each row belongs to a distributed revenue of its own community. */
  lemma {:induction false} RowsMatchRewards(mongo: bool, es: seq<Event>)
    requires ValidRun(mongo, es)
    ensures Matched(Run(mongo, es))
  {
    if |es| > 0 {
      var s, e := Run(mongo, es[..|es| - 1]), es[|es| - 1];
      RowsMatchRewards(mongo, es[..|es| - 1]);
      InvAfterEveryRun(mongo, es[..|es| - 1]);
      if e.input.RevenueGenerated? {
        if Accepts(s.db, e.input).Some? {
          AcceptedKeepsMatched(s, e);
        }
      } else if e.input.AdminDistribute? {
        NothingPending(s, e.input.id);
      } else {
        PlainEventFrame(s, e);
      }
    }
  }
}
