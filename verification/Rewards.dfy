/** Division of the members' pool
    (community-service/internal/engine/engine.go:160-199). */
module Rewards {
  import opened Seqs
  import opened Numbers
  import opened CommunityModels

  /** Shares below this many TON are not paid. */
  const DUST := 0.0001
  const NANO := 1_000_000_000.0

  function Scores(): Member -> bool { (m: Member) => m.activity.Score() > 0 }

  function ScoreOf(): Member -> real {
    (m: Member) => if m.activity.Score() > 0 then m.activity.Score() as real else 0.0
  }

  /** Sum of the positive activity scores. */
  function TotalScore(members: seq<Member>): real { Sum(members, ScoreOf()) }

  function Share(score: int, total: real, pool: real): real
    requires total != 0.0
  {
    score as real / total * pool
  }

  datatype Payout = Payout(userId: int, score: int, share: real, nano: int)

  function PayoutOf(m: Member, total: real, pool: real): Payout
    requires total != 0.0
  {
    var share := Share(m.activity.Score(), total, pool);
    Payout(m.userId, m.activity.Score(), share, Trunc(share * NANO))
  }

  predicate IsPaid(m: Member, total: real, pool: real)
    requires total != 0.0
  {
    m.activity.Score() > 0 && Share(m.activity.Score(), total, pool) >= DUST
  }

  /** The payouts in list order, for a given score total. */
  function PayoutsFor(members: seq<Member>, total: real, pool: real): seq<Payout>
    requires total != 0.0
  {
    if |members| == 0 then []
    else
      var m := members[|members| - 1];
      PayoutsFor(members[..|members| - 1], total, pool)
      + (if IsPaid(m, total, pool) then [PayoutOf(m, total, pool)] else [])
  }

  function Payouts(members: seq<Member>, pool: real): seq<Payout> {
    if TotalScore(members) == 0.0 then [] else PayoutsFor(members, TotalScore(members), pool)
  }

  // ---- the two loops ---------------------------------------------------------------

  datatype Scored = Scored(userId: int, score: int)

  function ScoredList(members: seq<Member>): seq<Scored> {
    if |members| == 0 then []
    else
      var m := members[|members| - 1];
      ScoredList(members[..|members| - 1])
      + (if m.activity.Score() > 0 then [Scored(m.userId, m.activity.Score())] else [])
  }

  method CollectScores(members: seq<Member>) returns (list: seq<Scored>, totalScore: int)
    ensures list == ScoredList(members)
    ensures totalScore as real == TotalScore(members)
    ensures totalScore >= 0
  {
    list, totalScore := [], 0;
    for i := 0 to |members|
      invariant list == ScoredList(members[..i])
      invariant totalScore as real == TotalScore(members[..i])
      invariant totalScore >= 0
    {
      SumSnoc(members[..i], members[i], ScoreOf());
      assert members[..i + 1] == members[..i] + [members[i]];
      assert members[..i + 1][..i] == members[..i];
      var s := members[i].activity.Score();
      if s > 0 {
        list := list + [Scored(members[i].userId, s)];
        totalScore := totalScore + s;
      }
    }
    assert members[..|members|] == members;
  }

  function PayScored(list: seq<Scored>, total: real, pool: real): seq<Payout>
    requires total != 0.0
  {
    if |list| == 0 then []
    else
      var ms := list[|list| - 1];
      var share := Share(ms.score, total, pool);
      PayScored(list[..|list| - 1], total, pool)
      + (if share < DUST then [] else [Payout(ms.userId, ms.score, share, Trunc(share * NANO))])
  }

  lemma PayScoredSnoc(list: seq<Scored>, ms: Scored, total: real, pool: real)
    requires total != 0.0
    ensures var share := Share(ms.score, total, pool);
      PayScored(list + [ms], total, pool) == PayScored(list, total, pool)
        + (if share < DUST then [] else [Payout(ms.userId, ms.score, share, Trunc(share * NANO))])
  {
    SnocFront(list, ms);
  }

  /** Collecting first and paying then is paying straight down the list. */
  lemma {:induction false} PayScoredIsPayouts(members: seq<Member>, total: real, pool: real)
    requires total != 0.0
    ensures PayScored(ScoredList(members), total, pool) == PayoutsFor(members, total, pool)
  {
    if |members| > 0 {
      var n := |members| - 1;
      PayScoredIsPayouts(members[..n], total, pool);
      var list, m := ScoredList(members[..n]), members[n];
      if m.activity.Score() > 0 {
        PayScoredSnoc(list, Scored(m.userId, m.activity.Score()), total, pool);
      } else {
        assert ScoredList(members) == list;
      }
    }
  }

  // ---- rounding ----------------------------------------------------------------------

  function ShareOf(total: real, pool: real): Member -> real
    requires total != 0.0
  {
    (m: Member) => if m.activity.Score() > 0 then Share(m.activity.Score(), total, pool) else 0.0
  }

  /** Sum of the exact shares, dust included. */
  function ShareTotal(members: seq<Member>, total: real, pool: real): real
    requires total != 0.0
  {
    Sum(members, ShareOf(total, pool))
  }

  lemma ScoreShare(score: int, total: real, pool: real, k: real)
    requires total != 0.0 && k == pool / total
    ensures Share(score, total, pool) == score as real * k
  {
    ScaledQuotient(score as real, total, pool);
  }

  lemma MemberShare(m: Member, total: real, pool: real, k: real)
    requires total != 0.0 && k == pool / total
    ensures ShareOf(total, pool)(m) == ScoreOf()(m) * k
  {
    ScoreShare(m.activity.Score(), total, pool, k);
  }

  lemma SharesScale(members: seq<Member>, total: real, pool: real, k: real)
    requires total != 0.0 && k == pool / total
    ensures Scaled(members, ScoreOf(), ShareOf(total, pool), k)
  {
    forall m | m in members ensures ShareOf(total, pool)(m) == ScoreOf()(m) * k {
      MemberShare(m, total, pool, k);
    }
  }

  /** The exact shares of all scoring members make up the pool. */
  lemma SharesMakeUpPool(members: seq<Member>, total: real, pool: real)
    requires total == TotalScore(members) && total != 0.0
    ensures ShareTotal(members, total, pool) == pool
  {
    SharesScale(members, total, pool, pool / total);
    SharesSum(members, ScoreOf(), ShareOf(total, pool), total, pool);
  }

  function NanoOf(): Payout -> real { (p: Payout) => p.nano as real }

  /** Sum of the `total_nano` fields. */
  function NanoTotal(ps: seq<Payout>): real { Sum(ps, NanoOf()) }

  lemma TruncFloor(x: real)
    requires x >= 0.0
    ensures x - 1.0 < Trunc(x) as real <= x
  {
  }

  lemma PositiveTotal(members: seq<Member>)
    ensures TotalScore(members) >= 0.0
    ensures TotalScore(members) == 0.0 <==> Count(members, Scores()) == 0
  {
    if |members| > 0 {
      PositiveTotal(members[..|members| - 1]);
    }
  }

  lemma PositiveShare(s: int, total: real, pool: real)
    requires total > 0.0 && pool > 0.0 && s > 0
    ensures Share(s, total, pool) > 0.0
  {
    QuotientSign(s as real, total);
    ProductSign(s as real / total, pool);
  }

  /** One more row moves the paid nanos and the exact shares apart by less than one
      nano if it is paid, and by less than the dust limit if it is skipped. */
  lemma {:induction false} RoundingSteps(members: seq<Member>, total: real, pool: real)
    requires total > 0.0 && pool > 0.0
    ensures var paid := PayoutsFor(members, total, pool);
      var n := Count(members, Scores());
      var gap := ShareTotal(members, total, pool) * NANO - NanoTotal(paid);
      && |paid| <= n && 0.0 <= gap
      && (n == 0 ==> gap == 0.0)
      && (n > 0 ==> gap < |paid| as real + 100_000.0 * (n - |paid|) as real)
  {
    if |members| > 0 {
      var n := |members| - 1;
      var m := members[n];
      RoundingSteps(members[..n], total, pool);
      if m.activity.Score() > 0 {
        var share := Share(m.activity.Score(), total, pool);
        PositiveShare(m.activity.Score(), total, pool);
        TruncFloor(share * NANO);
        if share >= DUST {
          SumSnoc(PayoutsFor(members[..n], total, pool), PayoutOf(m, total, pool), NanoOf());
        } else {
          assert PayoutsFor(members, total, pool) == PayoutsFor(members[..n], total, pool);
        }
      } else {
        assert PayoutsFor(members, total, pool) == PayoutsFor(members[..n], total, pool);
      }
    }
  }

  /** Rounding bound of the pool: never more than the pool is paid, and what is
      missing is less than one nano per paid member plus 100000 nanos per member
      skipped as dust. */
  lemma RoundingBound(members: seq<Member>, pool: real)
    requires pool > 0.0 && Count(members, Scores()) > 0
    ensures var paid := Payouts(members, pool);
      var skipped := Count(members, Scores()) - |paid|;
      && skipped >= 0
      && NanoTotal(paid) <= pool * NANO
      && pool * NANO - NanoTotal(paid) < |paid| as real + 100_000.0 * skipped as real
  {
    PositiveTotal(members);
    var total := TotalScore(members);
    RoundingSteps(members, total, pool);
    SharesMakeUpPool(members, total, pool);
  }

  /** Nothing is ever paid beyond the pool, whoever is in the list. */
  lemma PoolIsNeverExceeded(members: seq<Member>, pool: real)
    requires pool > 0.0
    ensures NanoTotal(Payouts(members, pool)) <= pool * NANO
  {
    PositiveTotal(members);
    if Count(members, Scores()) > 0 {
      RoundingBound(members, pool);
    }
  }

  // ---- fairness -------------------------------------------------------------------------

  function PaidWith(total: real, pool: real): Member -> bool
    requires total != 0.0
  {
    (m: Member) => IsPaid(m, total, pool)
  }

  function Pays(total: real, pool: real): Member -> Payout
    requires total != 0.0
  {
    (m: Member) => PayoutOf(m, total, pool)
  }

  lemma {:induction false} PayoutsAreFilterMap(members: seq<Member>, total: real, pool: real)
    requires total != 0.0
    ensures PayoutsFor(members, total, pool) == Map(Filter(members, PaidWith(total, pool)), Pays(total, pool))
  {
    if |members| > 0 {
      var n := |members| - 1;
      PayoutsAreFilterMap(members[..n], total, pool);
      var kept := Filter(members[..n], PaidWith(total, pool));
      if IsPaid(members[n], total, pool) {
        MapSnoc(kept, members[n], Pays(total, pool));
      } else {
        assert Filter(members, PaidWith(total, pool)) == kept;
      }
    }
  }

  /** The query fixes no order among members; the payouts do not depend on it. */
  lemma PayoutsIgnoreOrder(members: seq<Member>, others: seq<Member>, pool: real)
    requires multiset(members) == multiset(others)
    ensures multiset(Payouts(members, pool)) == multiset(Payouts(others, pool))
  {
    SumPermutes(members, others, ScoreOf());
    var total := TotalScore(members);
    if total != 0.0 {
      PayoutsAreFilterMap(members, total, pool);
      PayoutsAreFilterMap(others, total, pool);
      FilterPermutes(members, others, PaidWith(total, pool));
      MapPermutes(Filter(members, PaidWith(total, pool)), Filter(others, PaidWith(total, pool)), Pays(total, pool));
    }
  }

  lemma ShareMonotone(a: int, b: int, total: real, pool: real)
    requires total > 0.0 && pool > 0.0 && a <= b
    ensures Share(a, total, pool) <= Share(b, total, pool)
    ensures Trunc(Share(a, total, pool) * NANO) <= Trunc(Share(b, total, pool) * NANO)
  {
    QuotientMonotone(a as real, b as real, total);
    ProductMonotone(a as real / total, b as real / total, pool);
    TruncMonotone(Share(a, total, pool) * NANO, Share(b, total, pool) * NANO);
  }

  lemma {:induction false} PayoutsAreShares(members: seq<Member>, total: real, pool: real)
    requires total != 0.0
    ensures forall k :: 0 <= k < |PayoutsFor(members, total, pool)| ==>
      var p := PayoutsFor(members, total, pool)[k];
      p.share == Share(p.score, total, pool) && p.score > 0 && p.share >= DUST
  {
    if |members| > 0 {
      PayoutsAreShares(members[..|members| - 1], total, pool);
    }
  }

  lemma CrossShares(a: int, b: int, total: real, pool: real)
    requires total != 0.0
    ensures Share(a, total, pool) * b as real == Share(b, total, pool) * a as real
  {
    ScaledQuotient(a as real, total, pool);
    ScaledQuotient(b as real, total, pool);
    CrossProduct(a as real, b as real, pool / total);
  }

  /** Any two members paid by one distribution are paid in the proportion of their
      positive scores. */
  lemma SharesProportional(members: seq<Member>, pool: real, i: int, j: int)
    requires 0 <= i < |Payouts(members, pool)| && 0 <= j < |Payouts(members, pool)|
    ensures var p, q := Payouts(members, pool)[i], Payouts(members, pool)[j];
      p.score > 0 && q.score > 0 && p.share * q.score as real == q.share * p.score as real
  {
    var ps, total := Payouts(members, pool), TotalScore(members);
    PayoutsAreShares(members, total, pool);
    CrossShares(ps[i].score, ps[j].score, total, pool);
  }

  /** Whoever scores at least as much as a paid member is paid, at least as much. */
  lemma PaymentFollowsScore(a: Member, b: Member, total: real, pool: real)
    requires pool > 0.0 && total > 0.0 && a.activity.Score() <= b.activity.Score()
    requires IsPaid(a, total, pool)
    ensures IsPaid(b, total, pool)
    ensures PayoutOf(a, total, pool).nano <= PayoutOf(b, total, pool).nano
  {
    ShareMonotone(a.activity.Score(), b.activity.Score(), total, pool);
  }

  lemma {:induction false} PaidIsListed(members: seq<Member>, total: real, pool: real, m: Member)
    requires total != 0.0 && m in members && IsPaid(m, total, pool)
    ensures PayoutOf(m, total, pool) in PayoutsFor(members, total, pool)
  {
    var n := |members| - 1;
    if m != members[n] {
      PaidIsListed(members[..n], total, pool, m);
    }
  }

  lemma {:induction false} ListedIsPaid(members: seq<Member>, total: real, pool: real, p: Payout) returns (m: Member)
    requires total != 0.0 && p in PayoutsFor(members, total, pool)
    ensures m in members && IsPaid(m, total, pool) && p == PayoutOf(m, total, pool)
  {
    var n := |members| - 1;
    if p in PayoutsFor(members[..n], total, pool) {
      m := ListedIsPaid(members[..n], total, pool, p);
    } else {
      m := members[n];
    }
  }

  /** In one distribution every active member who scores at least as much as a paid one
      has a payout of at least as many nanos. */
  lemma BetterScoreIsPaidMore(members: seq<Member>, pool: real, i: int, b: Member)
    requires pool > 0.0 && 0 <= i < |Payouts(members, pool)|
    requires b in members && b.activity.Score() >= Payouts(members, pool)[i].score
    ensures var ps := Payouts(members, pool);
      exists j :: 0 <= j < |ps| && ps[j].userId == b.userId && ps[j].nano >= ps[i].nano
  {
    var ps, total := Payouts(members, pool), TotalScore(members);
    PositiveTotal(members);
    var a := ListedIsPaid(members, total, pool, ps[i]);
    PaymentFollowsScore(a, b, total, pool);
    PaidIsListed(members, total, pool, b);
    var j :| 0 <= j < |ps| && ps[j] == PayoutOf(b, total, pool);
  }

  lemma {:induction false} AllDust(members: seq<Member>, total: real, pool: real)
    requires total > 0.0 && pool > 0.0
    requires |PayoutsFor(members, total, pool)| == 0
    ensures Count(members, Scores()) == 0 ==> ShareTotal(members, total, pool) == 0.0
    ensures Count(members, Scores()) > 0 ==>
      ShareTotal(members, total, pool) < DUST * Count(members, Scores()) as real
  {
    if |members| > 0 {
      AllDust(members[..|members| - 1], total, pool);
    }
  }

  /** A pool of at least the dust limit per scoring member always pays someone. */
  lemma LargePoolPaysSomeone(members: seq<Member>, pool: real)
    requires Count(members, Scores()) >= 1 && pool >= DUST * Count(members, Scores()) as real
    ensures |Payouts(members, pool)| >= 1
  {
    PositiveTotal(members);
    var total := TotalScore(members);
    SharesMakeUpPool(members, total, pool);
    if |PayoutsFor(members, total, pool)| == 0 {
      AllDust(members, total, pool);
      assert false;
    }
  }
}
