/** Who gets what: the messages of every payment, from the claim that caused it and the
    kind its community was registered with. */
module PaymentTerms {
  import opened Seqs
  import opened Numbers
  import opened CommunityModels
  import opened CommunityStore
  import opened RevenueEngine
  import opened MoneySafety

  // ---- what a registration fixes ------------------------------------------------------

  /** `es[i]` is the event that registered this row: its keys and kind, and nothing of
      a split. */
  predicate RegisteredBy(es: seq<Event>, x: Community, i: int) {
    && 0 <= i < |es|
    && es[i].input == Register(x.id, x.chatId, x.kind, x.invite)
    && x.ownerPercent == x.membersPercent == x.platformPercent == 0.0
  }

  ghost predicate AllRegistered(es: seq<Event>, cs: map<Uuid, Community>) {
    forall id :: id in cs ==> cs[id].id == id && exists i :: RegisteredBy(es, cs[id], i)
  }

  lemma RegisteredStays(es: seq<Event>, e: Event, x: Community, y: Community)
    requires exists i :: RegisteredBy(es, x, i)
    requires x.id == y.id && x.chatId == y.chatId && x.kind == y.kind && x.invite == y.invite
    requires x.ownerPercent == y.ownerPercent && x.membersPercent == y.membersPercent && x.platformPercent == y.platformPercent
    ensures exists i :: RegisteredBy(es + [e], y, i)
  {
    var i :| RegisteredBy(es, x, i);
    assert (es + [e])[i] == es[i];
    assert RegisteredBy(es + [e], y, i);
  }

  lemma PutRegistered(es: seq<Event>, e: Event, cs: map<Uuid, Community>, x: Community)
    requires AllRegistered(es, cs) && RowWrite(cs, x, e.input)
    ensures AllRegistered(es + [e], cs[x.id := x])
  {
    var ct := cs[x.id := x];
    forall id | id in ct ensures ct[id].id == id && exists i :: RegisteredBy(es + [e], ct[id], i) {
      if id in cs {
        RegisteredStays(es, e, cs[id], ct[id]);
      } else {
        assert (es + [e])[|es|] == e;
        assert RegisteredBy(es + [e], x, |es|);
      }
    }
  }

  lemma KeepRegistered(es: seq<Event>, e: Event, cs: map<Uuid, Community>)
    requires AllRegistered(es, cs)
    ensures AllRegistered(es + [e], cs)
  {
    forall id | id in cs ensures cs[id].id == id && exists i :: RegisteredBy(es + [e], cs[id], i) {
      RegisteredStays(es, e, cs[id], cs[id]);
    }
  }

  lemma EventKeepsRegistered(es: seq<Event>, s: State, e: Event)
    requires Inv(s) && AllRegistered(es, s.db.communities)
    ensures AllRegistered(es + [e], Apply(s, e).db.communities)
  {
    if e.input.RevenueGenerated? || e.input.AdminDistribute? {
      MoneyEventFrame(s, e);
      KeepRegistered(es, e, s.db.communities);
    } else if WrittenRow(s.db, e.input).Some? {
      WrittenRowOk(s.db, e.input);
      PutRegistered(es, e, s.db.communities, WrittenRow(s.db, e.input).value);
    } else {
      KeepRegistered(es, e, s.db.communities);
    }
  }

  /** In every run each community carries the chat, kind and invite of a registration
      event under its id, and no split of its own. */
  lemma {:induction false} RowsComeFromRegistrations(mongo: bool, es: seq<Event>)
    requires ValidRun(mongo, es)
    ensures AllRegistered(es, Run(mongo, es).db.communities)
  {
    if |es| > 0 {
      RowsComeFromRegistrations(mongo, es[..|es| - 1]);
      InvAfterEveryRun(mongo, es[..|es| - 1]);
      EventKeepsRegistered(es[..|es| - 1], Run(mongo, es[..|es| - 1]), es[|es| - 1]);
      HeadAndLast(es);
    }
  }

  /** In every run a reference names exactly the community with that id or that chat. */
  lemma ResolvesIff(mongo: bool, es: seq<Event>, ref: Ref, id: Uuid)
    requires ValidRun(mongo, es)
    ensures var cs := Run(mongo, es).db.communities;
      Resolve(Run(mongo, es).db, ref) == Some(id) <==>
        id in cs && (ref == ById(id) || ref == ByChatId(cs[id].chatId))
  {
    InvAfterEveryRun(mongo, es);
    if id in Run(mongo, es).db.communities {
      ByChatIs(Run(mongo, es).db.communities, id);
    }
  }

  // ---- a payment knows the kind of its community -----------------------------------------

  ghost predicate KindsMatch(s: State) {
    forall k :: 0 <= k < |s.payments| ==> KindMatches(s.db.communities, s.payments[k])
  }

  ghost predicate KindMatches(cs: map<Uuid, Community>, p: Payment) {
    p.revenue.community in cs && cs[p.revenue.community].kind == p.community.kind
  }

  ghost predicate KindsKept(cs: map<Uuid, Community>, ct: map<Uuid, Community>) {
    forall id :: id in cs ==> id in ct && ct[id].kind == cs[id].kind
  }

  lemma PutKeepsKinds(cs: map<Uuid, Community>, x: Community, i: Input)
    requires RowWrite(cs, x, i)
    ensures KindsKept(cs, cs[x.id := x])
  {
  }

  lemma PlainKeepsKinds(s: State, e: Event)
    requires Inv(s) && !e.input.RevenueGenerated? && !e.input.AdminDistribute?
    ensures KindsKept(s.db.communities, Apply(s, e).db.communities) && Apply(s, e).payments == s.payments
  {
    if WrittenRow(s.db, e.input).Some? {
      WrittenRowOk(s.db, e.input);
      PutKeepsKinds(s.db.communities, WrittenRow(s.db, e.input).value, e.input);
    }
  }

  lemma AcceptedKind(s: State, e: Event)
    requires Inv(s) && e.input.RevenueGenerated? && Accepts(s.db, e.input).Some?
    ensures KindMatches(s.db.communities, PaymentOf(s, e.input))
  {
  }

  lemma EventKeepsKindsMatch(s: State, e: Event)
    requires Inv(s) && KindsMatch(s)
    ensures KindsMatch(Apply(s, e))
  {
    if e.input.RevenueGenerated? {
      if Accepts(s.db, e.input).Some? {
        AcceptedState(s, e);
        AcceptedKind(s, e);
      }
    } else if e.input.AdminDistribute? {
      NothingPending(s, e.input.id);
    } else {
      PlainKeepsKinds(s, e);
      forall k | 0 <= k < |s.payments| ensures KindMatches(Apply(s, e).db.communities, s.payments[k]) {
        assert KindMatches(s.db.communities, s.payments[k]);
      }
    }
  }

  lemma {:induction false} KindsMatchAfterEveryRun(mongo: bool, es: seq<Event>)
    requires ValidRun(mongo, es)
    ensures KindsMatch(Run(mongo, es))
  {
    if |es| > 0 {
      KindsMatchAfterEveryRun(mongo, es[..|es| - 1]);
      InvAfterEveryRun(mongo, es[..|es| - 1]);
      EventKeepsKindsMatch(Run(mongo, es[..|es| - 1]), es[|es| - 1]);
    }
  }

  // ---- the parts ------------------------------------------------------------------------------

  /** The owner's, the members' and the platform's part of the multiplied revenue. */
  predicate Terms(kind: Kind, base: real, owner: real, pool: real, platform: real) {
    match kind
    case Group => owner == 0.5 * base && pool == 0.4 * base && platform == 0.1 * base
    case Channel => owner == 0.9 * base && pool == 0.0 && platform == 0.1 * base
    case Other => owner == 0.8 * base && pool == 0.0 && platform == 0.2 * base
  }

  /** The multiplier a score earns. */
  predicate Rate(score: int, multiplier: real) {
    && (multiplier == 1.0 <==> 80 <= score) && (multiplier == 0.8 <==> 50 <= score < 80)
    && (multiplier == 0.5 <==> 30 <= score < 50) && (multiplier == 0.0 <==> score < 30)
  }

  /** What is published for one claim: the owner's income to the claim's community, the
      members' rewards, the platform's commission and the summary. */
  ghost predicate Announces(block: seq<Message>, c: Claim, owner: real, pool: real, platform: real, rewards: seq<Message>) {
    && (forall k :: 0 <= k < |rewards| ==> rewards[k].MemberReward?)
    && block ==
         (if owner > 0.0 then [OwnerIncome(c.community, owner)] else [])
         + rewards
         + (if platform > 0.0 then [Commission(platform)] else [])
         + [RevenueDistributed(c.revId, c.community, owner, pool, platform)]
  }

  lemma RatePart(t: real, percent: real, k: real, rate: real)
    requires percent == 100.0 * rate
    ensures Part(t, percent, k) == rate * (t * k)
  {
    PartIs(t, percent, k);
  }

  lemma PaymentTermsOf(p: Payment)
    requires DefaultSplit(p.community)
    ensures Terms(p.community.kind, p.revenue.total * p.Multiplier(), p.Owner(), p.Pool(), p.Platform())
  {
    var t, k := p.revenue.total, p.Multiplier();
    PaymentAsParts(p);
    RatePart(t, 50.0, k, 0.5);
    RatePart(t, 40.0, k, 0.4);
    RatePart(t, 10.0, k, 0.1);
    RatePart(t, 90.0, k, 0.9);
    RatePart(t, 80.0, k, 0.8);
    RatePart(t, 20.0, k, 0.2);
    RatePart(t, 0.0, k, 0.0);
  }

  /** A split of its own, for a community that has one: percentages of the multiplied
      revenue, whatever they add up to. The members' part is paid in groups only. */
  lemma CustomTerms(p: Payment)
    requires p.community.ownerPercent > 0.0
    ensures var base, x := p.revenue.total * p.Multiplier(), p.community;
      && p.Owner() == x.ownerPercent / 100.0 * base
      && p.Pool() == x.membersPercent / 100.0 * base
      && p.Platform() == x.platformPercent / 100.0 * base
      && (x.kind != Group ==> p.MemberPayouts() == [] && p.Rows() == [])
  {
    var t, k, x := p.revenue.total, p.Multiplier(), p.community;
    PaymentAsParts(p);
    RatePart(t, x.ownerPercent, k, x.ownerPercent / 100.0);
    RatePart(t, x.membersPercent, k, x.membersPercent / 100.0);
    RatePart(t, x.platformPercent, k, x.platformPercent / 100.0);
  }

  lemma PaymentRate(p: Payment)
    ensures Rate(p.community.qualityScore, p.Multiplier())
  {
  }

  lemma PaymentAnnounces(p: Payment)
    ensures Announces(p.Block(), ClaimOf(p), p.Owner(), p.Pool(), p.Platform(), RewardMessages(p.MemberPayouts(), p.revId))
  {
    MapAt(p.MemberPayouts(), RewardOf(p.revId));
  }

  lemma PaymentAnswersClaim(p: Payment, c: Claim)
    requires PaymentOk(p) && c == ClaimOf(p)
    ensures Rate(p.community.qualityScore, c.multiplier)
    ensures Terms(p.community.kind, c.amount * c.multiplier, p.Owner(), p.Pool(), p.Platform())
    ensures Announces(p.Block(), c, p.Owner(), p.Pool(), p.Platform(), RewardMessages(p.MemberPayouts(), p.revId))
  {
    PaymentTermsOf(p);
    PaymentRate(p);
    PaymentAnnounces(p);
  }

  lemma PaymentOfClaim(mongo: bool, es: seq<Event>, k: int)
    requires ValidRun(mongo, es) && 0 <= k < |Claims(mongo, es)|
    ensures var ps := Run(mongo, es).payments;
      && |ps| == |Claims(mongo, es)| && Run(mongo, es).published == Blocks(ps)
      && PaymentOk(ps[k]) && Claims(mongo, es)[k] == ClaimOf(ps[k]) && KindMatches(Run(mongo, es).db.communities, ps[k])
  {
    InvAfterEveryRun(mongo, es);
    PaymentsAreClaims(mongo, es);
    KindsMatchAfterEveryRun(mongo, es);
    MapAt(Run(mongo, es).payments, ToClaim());
  }

  /** In every run the k-th claim, and nothing else, is answered by the k-th block of
      messages: for a group the owner gets 0.5, the members' pool is 0.4 and the platform
      gets 0.1 of amount times multiplier; for a channel 0.9, 0 and 0.1; else 0.8, 0 and
      0.2. The kind is that of the claim's community, the multiplier that of the score it
      held when the claim was made. */
  lemma ClaimTerms(mongo: bool, es: seq<Event>, k: int)
    returns (score: int, owner: real, pool: real, platform: real, rewards: seq<Message>)
    requires ValidRun(mongo, es) && 0 <= k < |Claims(mongo, es)|
    ensures |Run(mongo, es).payments| == |Claims(mongo, es)| && Run(mongo, es).published == Blocks(Run(mongo, es).payments)
    ensures var c, cs := Claims(mongo, es)[k], Run(mongo, es).db.communities;
      && c.community in cs
      && Rate(score, c.multiplier) && score == Run(mongo, es).payments[k].community.qualityScore
      && Terms(cs[c.community].kind, c.amount * c.multiplier, owner, pool, platform)
      && Announces(Run(mongo, es).payments[k].Block(), c, owner, pool, platform, rewards)
  {
    PaymentOfClaim(mongo, es, k);
    var p := Run(mongo, es).payments[k];
    PaymentAnswersClaim(p, Claims(mongo, es)[k]);
    score, owner, pool, platform := p.community.qualityScore, p.Owner(), p.Pool(), p.Platform();
    rewards := RewardMessages(p.MemberPayouts(), p.revId);
  }
}
