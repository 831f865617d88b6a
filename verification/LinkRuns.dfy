/** Runs of both services built from any run of the fraud engine: everything delivered
    to a community registered first, or everything delivered before it registers. */
module LinkRuns {
  import opened Seqs
  import opened FraudModels
  import opened CommunityModels
  import opened CommunityStore
  import opened ScoreLink
  import P = Processor
  import RE = RevenueEngine
  import MS = MoneySafety

  ghost predicate Registered(mongo: bool, steps: seq<Step>, c: int) {
    ByChat(Db(mongo, steps).communities, c).Some?
  }

  lemma AppendFraud(mongo: bool, steps: seq<Step>, e: P.Event, c: int)
    requires Valid(mongo, steps) && P.ValidRun(FraudTrace(steps)) && P.Enabled(P.Run(FraudTrace(steps)), e)
    ensures var all := steps + [Fraud(e)];
      && Valid(mongo, all) && FraudTrace(all) == FraudTrace(steps) + [e]
      && Delivered(all) == Delivered(steps) && ServiceTrace(all) == ServiceTrace(steps)
      && Heard(mongo, all, c) == Heard(mongo, steps, c)
  {
    SnocFront(steps, Fraud(e));
  }

  lemma AppendService(mongo: bool, steps: seq<Step>, e: RE.Event, c: int)
    requires Valid(mongo, steps) && !e.input.ScoreUpdated? && RE.Enabled(MS.Run(mongo, ServiceTrace(steps)), e)
    ensures var all := steps + [Service(e)];
      && Valid(mongo, all) && FraudTrace(all) == FraudTrace(steps) && Delivered(all) == Delivered(steps)
      && ServiceTrace(all) == ServiceTrace(steps) + [e]
      && Heard(mongo, all, c) == Heard(mongo, steps, c)
  {
    SnocFront(steps, Service(e));
  }

  lemma AppendDeliver(mongo: bool, steps: seq<Step>, at: int, c: int)
    requires Valid(mongo, steps) && Delivered(steps) < |Outbox(steps)|
    ensures var all := steps + [Deliver(at)];
      && Valid(mongo, all) && FraudTrace(all) == FraudTrace(steps) && Delivered(all) == Delivered(steps) + 1
      && ServiceTrace(all) == ServiceTrace(steps) + [Arrival(steps, at)]
      && Heard(mongo, all, c) ==
           if Registered(mongo, steps, c) then Heard(mongo, steps, c) + [Outbox(steps)[Delivered(steps)]]
           else Heard(mongo, steps, c)
  {
    SnocFront(steps, Deliver(at));
  }

  lemma RunSnoc(mongo: bool, fs: seq<RE.Event>, e: RE.Event)
    ensures MS.Run(mongo, fs + [e]) == RE.Apply(MS.Run(mongo, fs), e)
  {
    SnocFront(fs, e);
  }

  lemma ArrivalKeepsTables(s: RE.State, at: int, chat: int, score: int)
    ensures var db := RE.Apply(s, RE.Event(at, RE.ScoreUpdated(chat, score))).db;
      db.revenues == s.db.revenues && (s.db.communities == map[] ==> db.communities == map[])
  {
  }

  /** Who is registered, and the revenue table, do not change by a delivery. */
  lemma DeliveryKeeps(mongo: bool, steps: seq<Step>, at: int, c: int)
    requires Valid(mongo, steps) && Delivered(steps) < |Outbox(steps)|
    ensures var all := steps + [Deliver(at)];
      && (Registered(mongo, all, c) <==> Registered(mongo, steps, c))
      && Db(mongo, all).revenues == Db(mongo, steps).revenues
      && (Db(mongo, steps).communities == map[] ==> Db(mongo, all).communities == map[])
  {
    AppendDeliver(mongo, steps, at, c);
    var s, m := MS.Run(mongo, ServiceTrace(steps)), Outbox(steps)[Delivered(steps)];
    RunSnoc(mongo, ServiceTrace(steps), Arrival(steps, at));
    ValidParts(mongo, steps);
    MS.InvAfterEveryRun(mongo, ServiceTrace(steps));
    ArrivalSetsScore(s, at, m.communityId, m.score, c);
    ArrivalKeepsTables(s, at, m.communityId, m.score);
  }

  lemma LastApart(es: seq<P.Event>)
    requires P.ValidRun(es) && |es| > 0
    ensures P.ValidRun(es[..|es| - 1]) && P.Enabled(P.Run(es[..|es| - 1]), es[|es| - 1])
  {
  }

  /** Any run of the fraud engine can be appended before a single delivery. */
  lemma {:induction false} Feed(mongo: bool, steps: seq<Step>, es: seq<P.Event>, c: int) returns (all: seq<Step>)
    requires Valid(mongo, steps) && FraudTrace(steps) == [] && P.ValidRun(es)
    ensures Valid(mongo, all) && FraudTrace(all) == es
    ensures Delivered(all) == Delivered(steps) && ServiceTrace(all) == ServiceTrace(steps)
    ensures Heard(mongo, all, c) == Heard(mongo, steps, c)
  {
    all := steps;
    if |es| > 0 {
      var head, e := es[..|es| - 1], es[|es| - 1];
      LastApart(es);
      all := Feed(mongo, steps, head, c);
      AppendFraud(mongo, all, e, c);
      all := all + [Fraud(e)];
      HeadAndLast(es);
    }
  }

  /** The messages still in the channel. */
  function Pending(steps: seq<Step>): seq<ScoreMessage> {
    if Delivered(steps) <= |Outbox(steps)| then Outbox(steps)[Delivered(steps)..] else []
  }

  lemma DrainOne(mongo: bool, steps: seq<Step>, at: int, c: int)
    requires Valid(mongo, steps) && |Pending(steps)| > 0
    ensures var all := steps + [Deliver(at)];
      && Valid(mongo, all) && FraudTrace(all) == FraudTrace(steps) && Pending(all) == Pending(steps)[1..]
      && Heard(mongo, all, c) ==
           if Registered(mongo, steps, c) then Heard(mongo, steps, c) + [Pending(steps)[0]] else Heard(mongo, steps, c)
  {
    ValidParts(mongo, steps);
    AppendDeliver(mongo, steps, at, c);
  }

  lemma AppendHead<T>(heard: seq<T>, pending: seq<T>)
    requires |pending| > 0
    ensures heard + [pending[0]] + pending[1..] == heard + pending
  {
  }

  /** Any run can be drained. A registered community hears all of it, another nothing. */
  lemma {:induction false} Drain(mongo: bool, steps: seq<Step>, at: int, c: int) returns (all: seq<Step>)
    requires Valid(mongo, steps)
    ensures Valid(mongo, all) && FraudTrace(all) == FraudTrace(steps) && Delivered(all) == |Outbox(all)|
    ensures Registered(mongo, all, c) <==> Registered(mongo, steps, c)
    ensures Heard(mongo, all, c) == Heard(mongo, steps, c) + (if Registered(mongo, steps, c) then Pending(steps) else [])
    ensures Db(mongo, all).revenues == Db(mongo, steps).revenues
    ensures Db(mongo, steps).communities == map[] ==> Db(mongo, all).communities == map[]
    decreases |Pending(steps)|
  {
    ValidParts(mongo, steps);
    all := steps;
    if |Pending(steps)| > 0 {
      DrainOne(mongo, steps, at, c);
      DeliveryKeeps(mongo, steps, at, c);
      all := Drain(mongo, steps + [Deliver(at)], at, c);
      AppendHead(Heard(mongo, steps, c), Pending(steps));
    }
  }

  lemma NothingYet(mongo: bool, c: int)
    ensures Valid(mongo, []) && FraudTrace([]) == [] && ServiceTrace([]) == [] && Delivered([]) == 0
    ensures Heard(mongo, [], c) == [] && Db(mongo, []) == Empty(mongo)
  {
  }

  /** Registering a chat in an empty table. */
  lemma RegisterFirst(s: RE.State, at: int, id: Uuid, c: int, kind: Kind, invite: Invite)
    requires s.db.communities == map[]
    ensures RE.Apply(s, RE.Event(at, RE.Register(id, c, kind, invite))).db == PutCommunity(s.db, NewCommunity(id, c, kind, invite))
    ensures ByChat(map[id := NewCommunity(id, c, kind, invite)], c) == Some(id)
  {
    assert map[id := NewCommunity(id, c, kind, invite)][id].chatId == c;
  }

  lemma AppendRegistration(mongo: bool, steps: seq<Step>, at: int, id: Uuid, c: int, kind: Kind, invite: Invite)
    requires Valid(mongo, steps) && Db(mongo, steps).communities == map[]
    ensures var all := steps + [Service(RE.Event(at, RE.Register(id, c, kind, invite)))];
      && Valid(mongo, all) && FraudTrace(all) == FraudTrace(steps) && Delivered(all) == Delivered(steps)
      && Registered(mongo, all, c) && Heard(mongo, all, c) == Heard(mongo, steps, c)
      && Db(mongo, all).revenues == Db(mongo, steps).revenues
  {
    var e := RE.Event(at, RE.Register(id, c, kind, invite));
    AppendService(mongo, steps, e, c);
    RunSnoc(mongo, ServiceTrace(steps), e);
    RegisterFirst(MS.Run(mongo, ServiceTrace(steps)), at, id, c, kind, invite);
    assert map[][id := NewCommunity(id, c, kind, invite)] == map[id := NewCommunity(id, c, kind, invite)];
  }

  lemma RegisteredStart(mongo: bool, id: Uuid, c: int, kind: Kind, invite: Invite) returns (steps: seq<Step>)
    ensures Valid(mongo, steps) && FraudTrace(steps) == [] && Delivered(steps) == 0
    ensures Registered(mongo, steps, c) && Heard(mongo, steps, c) == [] && Db(mongo, steps).revenues == map[]
  {
    NothingYet(mongo, c);
    AppendRegistration(mongo, [], 0, id, c, kind, invite);
    steps := [] + [Service(RE.Event(0, RE.Register(id, c, kind, invite)))];
  }

  lemma AllPending(steps: seq<Step>)
    requires Delivered(steps) == 0
    ensures Pending(steps) == Outbox(steps)
  {
  }

  /** For every run of the fraud engine there is a drained run of both services in
      which community `c` is registered first and hears every message. */
  lemma EverythingHeard(mongo: bool, es: seq<P.Event>, id: Uuid, c: int, kind: Kind, invite: Invite) returns (steps: seq<Step>)
    requires P.ValidRun(es)
    ensures Valid(mongo, steps) && FraudTrace(steps) == es && Delivered(steps) == |Outbox(steps)|
    ensures Registered(mongo, steps, c) && Heard(mongo, steps, c) == Outbox(steps)
    ensures Db(mongo, steps).revenues == map[]
  {
    var first := RegisteredStart(mongo, id, c, kind, invite);
    var fed := Feed(mongo, first, es, c);
    steps := Drain(mongo, fed, 0, c);
    AllPending(fed);
    Unheard(Heard(mongo, steps, c), Outbox(fed));
  }

  lemma Unheard<T>(heard: seq<T>, sent: seq<T>)
    requires heard == [] + sent
    ensures heard == sent
  {
  }

  /** And one in which `c` registers only after everything was delivered. */
  lemma NothingHeard(mongo: bool, es: seq<P.Event>, id: Uuid, c: int, kind: Kind, invite: Invite) returns (steps: seq<Step>)
    requires P.ValidRun(es)
    ensures Valid(mongo, steps) && FraudTrace(steps) == es && Delivered(steps) == |Outbox(steps)|
    ensures Registered(mongo, steps, c) && Heard(mongo, steps, c) == []
  {
    NothingYet(mongo, c);
    var drained := Feed(mongo, [], es, c);
    drained := Drain(mongo, drained, 0, c);
    AppendRegistration(mongo, drained, 0, id, c, kind, invite);
    steps := drained + [Service(RE.Event(0, RE.Register(id, c, kind, invite)))];
  }

  // ---- communities registered before their first score ---------------------------------

  /** No score of `c` arrives while `c` is not registered. */
  ghost predicate RegisteredInTime(mongo: bool, steps: seq<Step>, c: int) {
    && (!Registered(mongo, steps, c) ==> !Mentions(Received(steps), c))
    && (|steps| > 0 ==> RegisteredInTime(mongo, steps[..|steps| - 1], c))
  }

  lemma InTimeDelivery(mongo: bool, rest: seq<Step>, at: int, c: int)
    requires Valid(mongo, rest) && Delivered(rest) < |Outbox(rest)|
    requires Mentions(Received(rest), c) ==> Mentions(Heard(mongo, rest, c), c)
    requires Mentions(Received(rest + [Deliver(at)]), c) && Registered(mongo, rest + [Deliver(at)], c)
    ensures Mentions(Heard(mongo, rest + [Deliver(at)], c), c)
  {
    var m := Outbox(rest)[Delivered(rest)];
    AppendDeliver(mongo, rest, at, c);
    DeliveryKeeps(mongo, rest, at, c);
    SnocFront(rest, Deliver(at));
    ReceivedGrows(mongo, rest + [Deliver(at)]);
    MentionsSnoc(Received(rest), m, c);
    MentionsSnoc(Heard(mongo, rest, c), m, c);
  }

  /** Such a community has heard a score as soon as one was delivered. */
  lemma {:induction false} InTimeHears(mongo: bool, steps: seq<Step>, c: int)
    requires Valid(mongo, steps) && RegisteredInTime(mongo, steps, c) && Mentions(Received(steps), c)
    ensures Mentions(Heard(mongo, steps, c), c)
  {
    if |steps| > 0 {
      var rest, last := steps[..|steps| - 1], steps[|steps| - 1];
      if Mentions(Received(rest), c) {
        InTimeHears(mongo, rest, c);
      }
      if last.Deliver? {
        HeadAndLast(steps);
        InTimeDelivery(mongo, rest, last.at, c);
      } else {
        ReceivedGrows(mongo, steps);
      }
    }
  }

  predicate NeverScored(snaps: seq<CommunitySnapshot>, c: int) {
    forall k :: 0 <= k < |snaps| ==> snaps[k].communityId != c
  }

  lemma NeverScoredSnoc(snaps: seq<CommunitySnapshot>, s: CommunitySnapshot, c: int)
    ensures NeverScored(snaps + [s], c) <==> NeverScored(snaps, c) && s.communityId != c
  {
    assert (snaps + [s])[|snaps|] == s;
    assert forall k :: 0 <= k < |snaps| ==> (snaps + [s])[k] == snaps[k];
  }

  /** A community whose last snapshot was published has a message about it. */
  lemma {:induction false} PublishedIsSent(es: seq<P.Event>, c: int)
    requires P.ValidRun(es) && LastSnapshotPublished(es, c) && !NeverScored(P.Run(es).db.communityScores, c)
    ensures Mentions(P.Run(es).outbox, c)
  {
    if |es| > 0 {
      var e, before, after := es[|es| - 1], P.Run(es[..|es| - 1]), P.Run(es);
      SnapshotEffect(before.db, e);
      var ss, st := before.db.communityScores, after.db.communityScores;
      if e.input.Join? || e.input.Leave? {
        NeverScoredSnoc(ss, st[|ss|], c);
        MentionsSnoc(before.outbox, P.ScoreNews(e.input.c, P.LastScore(after.db)), c);
      } else if e.input.AdminRecalcCommunity? {
        NeverScoredSnoc(ss, st[|ss|], c);
      }
      if LastSnapshotPublished(es[..|es| - 1], c) && !NeverScored(ss, c) {
        PublishedIsSent(es[..|es| - 1], c);
      }
    }
  }

  /** So the services agree, once the channel is drained, on every community registered
      before its first score whose one latest snapshot was published. */
  lemma InTimeAgrees(mongo: bool, steps: seq<Step>, c: int, k: int)
    requires Valid(mongo, steps) && Delivered(steps) == |Outbox(steps)|
    requires Registered(mongo, steps, c) && RegisteredInTime(mongo, steps, c)
    requires P.ValidRun(FraudTrace(steps)) && LastSnapshotPublished(FraudTrace(steps), c)
    requires UniqueLatest(P.Run(FraudTrace(steps)).db.communityScores, c, k)
    ensures var snap, cs := P.Run(FraudTrace(steps)).db.communityScores[k], Db(mongo, steps).communities;
      && RevenueMultiplier(HeldScore(cs, ByChat(cs, c).value)) == RevenueMultiplier(snap.score)
      && CommunityRevenueStatus(HeldScore(cs, ByChat(cs, c).value)) == snap.revenueStatus
  {
    PublishedIsSent(FraudTrace(steps), c);
    assert Received(steps) == Outbox(steps);
    InTimeHears(mongo, steps, c);
    MultiplierAgreesIff(mongo, steps, c, k);
  }
}
