/** No two member rewards of any run share a reference, and what happens to the
    revenue of a frozen community. */
module PayoutRefs {
  import opened Seqs
  import opened Numbers
  import opened FraudModels
  import opened CommunityModels
  import opened CommunityStore
  import opened Rewards
  import opened RefIds
  import opened RevenueEngine
  import opened MoneySafety

  predicate RefsDistinct(ms: seq<Message>) {
    forall i, j :: 0 <= i < j < |ms| && ms[i].MemberReward? && ms[j].MemberReward? ==> ms[i].refId != ms[j].refId
  }

  /** Every reward of `ms` refers to one of these revenues. */
  predicate RefsFrom(ms: seq<Message>, revenues: set<Uuid>) {
    forall i :: 0 <= i < |ms| && ms[i].MemberReward? ==>
      exists r :: r in revenues && ms[i].refId == RefId(r, ms[i].userId)
  }

  lemma RefsConcat(a: seq<Message>, b: seq<Message>, ra: set<Uuid>, rb: set<Uuid>)
    requires RefsDistinct(a) && RefsDistinct(b) && RefsFrom(a, ra) && RefsFrom(b, rb) && ra !! rb
    ensures RefsDistinct(a + b) && RefsFrom(a + b, ra + rb)
  {
    var c := a + b;
    forall i | 0 <= i < |c| && c[i].MemberReward?
      ensures exists r :: r in ra + rb && c[i].refId == RefId(r, c[i].userId)
    {
      if i < |a| {
        var r :| r in ra && a[i].refId == RefId(r, a[i].userId);
        assert r in ra + rb;
      } else {
        var r :| r in rb && b[i - |a|].refId == RefId(r, b[i - |a|].userId);
        assert r in ra + rb;
      }
    }
    forall i, j | 0 <= i < |a| && 0 <= j < |b| && a[i].MemberReward? && b[j].MemberReward?
      ensures a[i].refId != b[j].refId
    {
      var r :| r in ra && a[i].refId == RefId(r, a[i].userId);
      var q :| q in rb && b[j].refId == RefId(q, b[j].userId);
      if a[i].refId == b[j].refId {
        RefIdInjective(r, a[i].userId, q, b[j].userId);
      }
    }
  }

  predicate DistinctPayouts(ps: seq<Payout>) {
    forall i, j :: 0 <= i < j < |ps| ==> ps[i].userId != ps[j].userId
  }

  lemma {:induction false} PayoutUsers(members: seq<Member>, total: real, pool: real)
    requires total != 0.0 && DistinctUsers(members)
    ensures DistinctPayouts(PayoutsFor(members, total, pool))
    ensures forall k :: 0 <= k < |PayoutsFor(members, total, pool)| ==>
      exists i :: 0 <= i < |members| && members[i].userId == PayoutsFor(members, total, pool)[k].userId
  {
    if |members| > 0 {
      var n := |members| - 1;
      PayoutUsers(members[..n], total, pool);
      var head, all := PayoutsFor(members[..n], total, pool), PayoutsFor(members, total, pool);
      forall k | 0 <= k < |head|
        ensures head[k].userId != members[n].userId
        ensures exists i :: 0 <= i < |members| && members[i].userId == head[k].userId
      {
        var i :| 0 <= i < n && members[..n][i].userId == head[k].userId;
        assert members[i].userId == head[k].userId;
      }
    }
  }

  /** Within one payment the rewards carry different references. */
  lemma BlockRefs(p: Payment)
    requires DistinctUsers(p.members)
    ensures RefsDistinct(p.Block()) && RefsFrom(p.Block(), {p.revId})
  {
    var ps := p.MemberPayouts();
    if p.PaysMembers() && TotalScore(p.members) != 0.0 {
      PayoutUsers(p.members, TotalScore(p.members), p.Pool());
    }
    assert DistinctPayouts(ps);
    RewardRefs(ps, p.revId);
    var owner := if p.Owner() > 0.0 then [OwnerIncome(p.revenue.community, p.Owner())] else [];
    var rest := (if p.Platform() > 0.0 then [Commission(p.Platform())] else [])
      + [RevenueDistributed(p.revId, p.revenue.community, p.Owner(), p.Pool(), p.Platform())];
    RefsConcat(owner, RewardMessages(ps, p.revId), {}, {p.revId});
    RefsConcat(owner + RewardMessages(ps, p.revId), rest, {} + {p.revId}, {});
    assert p.Block() == owner + RewardMessages(ps, p.revId) + rest;
    assert {} + {p.revId} + {} == {p.revId};
  }

  lemma RewardRefs(ps: seq<Payout>, revId: Uuid)
    requires DistinctPayouts(ps)
    ensures RefsDistinct(RewardMessages(ps, revId)) && RefsFrom(RewardMessages(ps, revId), {revId})
  {
    var ms := RewardMessages(ps, revId);
    MapAt(ps, RewardOf(revId));
    forall i, j | 0 <= i < j < |ms| ensures ms[i].refId != ms[j].refId {
      if ms[i].refId == ms[j].refId {
        RefIdInjective(revId, ps[i].userId, revId, ps[j].userId);
      }
    }
    forall i | 0 <= i < |ms| ensures exists r :: r in {revId} && ms[i].refId == RefId(r, ms[i].userId) {
      assert ms[i].refId == RefId(revId, ms[i].userId);
    }
  }

  function Revenues(ps: seq<Payment>): set<Uuid> {
    set k | 0 <= k < |ps| :: ps[k].revId
  }

  lemma {:induction false} BlocksRefs(ps: seq<Payment>)
    requires PaymentsOk(ps)
    requires forall i, j :: 0 <= i < j < |ps| ==> ps[i].revId != ps[j].revId
    ensures RefsDistinct(Blocks(ps)) && RefsFrom(Blocks(ps), Revenues(ps))
  {
    if |ps| > 0 {
      var n := |ps| - 1;
      BlocksRefs(ps[..n]);
      BlockRefs(ps[n]);
      forall r | r in Revenues(ps[..n]) ensures r != ps[n].revId {
        var k :| 0 <= k < n && ps[..n][k].revId == r;
        assert ps[k].revId == r;
      }
      RefsConcat(Blocks(ps[..n]), ps[n].Block(), Revenues(ps[..n]), {ps[n].revId});
      assert Revenues(ps[..n]) + {ps[n].revId} <= Revenues(ps) by {
        forall r | r in Revenues(ps[..n]) ensures r in Revenues(ps) {
          var k :| 0 <= k < n && ps[..n][k].revId == r;
          assert ps[k].revId == r;
        }
        assert ps[n].revId in Revenues(ps);
      }
    }
  }

  /** In every run, any two member rewards ever published have different references. */
  lemma RewardRefsAreUnique(mongo: bool, es: seq<Event>, i: int, j: int)
    requires ValidRun(mongo, es)
    requires 0 <= i < j < |Run(mongo, es).published|
    requires Run(mongo, es).published[i].MemberReward? && Run(mongo, es).published[j].MemberReward?
    ensures Run(mongo, es).published[i].refId != Run(mongo, es).published[j].refId
  {
    InvAfterEveryRun(mongo, es);
    EachPairPaidAtMostOnce(mongo, es);
    BlocksRefs(Run(mongo, es).payments);
  }

  lemma EmptyBlock(revId: Uuid, community: Uuid)
    ensures TotalTon(BlockOf(revId, community, 0.0, 0.0, 0.0, [])) == 0.0
  {
    SumOne(BlockOf(revId, community, 0.0, 0.0, 0.0, []), TonOf());
  }

  lemma FrozenBlock(p: Payment)
    requires p.community.qualityScore < 30
    ensures TotalTon(p.Block()) == 0.0
  {
    assert p.Multiplier() == 0.0;
    assert p.Owner() == 0.0 && p.Pool() == 0.0 && p.Platform() == 0.0;
    EmptyBlock(p.revId, p.revenue.community);
  }

  lemma {:induction false} RewardsAreNotNegative(members: seq<Member>, total: real, pool: real)
    requires total != 0.0
    ensures NanoTotal(PayoutsFor(members, total, pool)) >= 0.0
  {
    if |members| > 0 {
      var n := |members| - 1;
      RewardsAreNotNegative(members[..n], total, pool);
      if IsPaid(members[n], total, pool) {
        SumSnoc(PayoutsFor(members[..n], total, pool), PayoutOf(members[n], total, pool), NanoOf());
        NanoNotNegative(Share(members[n].activity.Score(), total, pool));
      } else {
        assert PayoutsFor(members, total, pool) == PayoutsFor(members[..n], total, pool);
      }
    }
  }

  lemma NanoNotNegative(share: real)
    requires share >= DUST
    ensures Trunc(share * NANO) >= 0
  {
  }

  lemma OwnerIsPaid(p: Payment)
    requires PaymentOk(p) && p.community.qualityScore >= 30
    ensures p.Owner() > 0.0
  {
    ZeroMultiplierIff(p);
    ProductSign(p.revenue.total, p.community.Percentages().0 / 100.0);
    ProductSign(p.revenue.total * (p.community.Percentages().0 / 100.0), p.Multiplier());
  }

  lemma PaymentPaysNothingIff(p: Payment)
    requires PaymentOk(p)
    ensures TotalTon(p.Block()) == 0.0 <==> p.community.qualityScore < 30
  {
    if p.community.qualityScore < 30 {
      FrozenBlock(p);
    } else {
      PaymentParts(p);
      OwnerIsPaid(p);
      if p.PaysMembers() && TotalScore(p.members) != 0.0 {
        RewardsAreNotNegative(p.members, TotalScore(p.members), p.Pool());
      }
    }
  }

  /** A distributed revenue pays nobody if and only if its community was frozen, and
      since its pair is never paid again, nobody ever receives it: it is not held back. */
  lemma PaysNothingIffFrozen(mongo: bool, es: seq<Event>, k: int)
    requires ValidRun(mongo, es) && 0 <= k < |Run(mongo, es).payments|
    ensures var ps, rs := Run(mongo, es).payments, Run(mongo, es).db.revenues;
      && (TotalTon(ps[k].Block()) == 0.0 <==> ps[k].community.qualityScore < 30)
      && ps[k].revId in rs && rs[ps[k].revId].state == Distributed
      && forall j :: 0 <= j < |ps| && j != k ==>
           !(ps[j].revenue.campaign == ps[k].revenue.campaign && ps[j].revenue.community == ps[k].revenue.community)
  {
    InvAfterEveryRun(mongo, es);
    EachPairPaidAtMostOnce(mongo, es);
    PaymentPaysNothingIff(Run(mongo, es).payments[k]);
  }
}
