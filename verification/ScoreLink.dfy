/** Both services together: scores published by the fraud engine reach the community
    service through a first-in first-out channel, and nowhere else does the service
    get a score from. */
module ScoreLink {
  import opened Seqs
  import opened FraudModels
  import opened Numbers
  import opened CommunityModels
  import opened CommunityStore
  import FS = FraudStore
  import P = Processor
  import FR = FraudRuns
  import RE = RevenueEngine
  import MS = MoneySafety

  datatype Step = Fraud(f: P.Event) | Deliver(at: int) | Service(s: RE.Event)

  function FraudTrace(steps: seq<Step>): seq<P.Event> {
    if |steps| == 0 then []
    else
      var before, last := FraudTrace(steps[..|steps| - 1]), steps[|steps| - 1];
      if last.Fraud? then before + [last.f] else before
  }

  function Delivered(steps: seq<Step>): nat {
    if |steps| == 0 then 0
    else Delivered(steps[..|steps| - 1]) + Bit(steps[|steps| - 1].Deliver?)
  }

  function Outbox(steps: seq<Step>): seq<ScoreMessage> {
    if P.ValidRun(FraudTrace(steps)) then P.Run(FraudTrace(steps)).outbox else []
  }

  function Arrival(steps: seq<Step>, at: int): RE.Event {
    var k := Delivered(steps);
    if k < |Outbox(steps)| then RE.Event(at, RE.ScoreUpdated(Outbox(steps)[k].communityId, Outbox(steps)[k].score))
    else RE.Event(at, RE.ScoreUpdated(0, 0))
  }

  /** What the community service sees: its own events and the delivered scores. */
  function ServiceTrace(steps: seq<Step>): seq<RE.Event> {
    if |steps| == 0 then []
    else
      var rest, last := steps[..|steps| - 1], steps[|steps| - 1];
      match last
      case Fraud(_) => ServiceTrace(rest)
      case Deliver(at) => ServiceTrace(rest) + [Arrival(rest, at)]
      case Service(e) => ServiceTrace(rest) + [e]
  }

  ghost function Db(mongo: bool, steps: seq<Step>): CommunityDb {
    MS.Run(mongo, ServiceTrace(steps)).db
  }

  ghost predicate Valid(mongo: bool, steps: seq<Step>) {
    |steps| == 0 ||
    (var rest, last := steps[..|steps| - 1], steps[|steps| - 1];
      && Valid(mongo, rest)
      && match last
         case Fraud(e) => P.ValidRun(FraudTrace(rest)) && P.Enabled(P.Run(FraudTrace(rest)), e)
         case Deliver(_) => Delivered(rest) < |Outbox(rest)|
         case Service(e) => !e.input.ScoreUpdated? && RE.Enabled(MS.Run(mongo, ServiceTrace(rest)), e))
  }

  lemma {:induction false} ValidParts(mongo: bool, steps: seq<Step>)
    requires Valid(mongo, steps)
    ensures P.ValidRun(FraudTrace(steps)) && MS.ValidRun(mongo, ServiceTrace(steps))
    ensures Delivered(steps) <= |Outbox(steps)|
  {
    if |steps| > 0 {
      var rest, last := steps[..|steps| - 1], steps[|steps| - 1];
      ValidParts(mongo, rest);
      match last
      case Fraud(e) =>
        FraudSnoc(FraudTrace(rest), e);
      case Deliver(at) =>
        ServiceSnoc(mongo, ServiceTrace(rest), Arrival(rest, at));
      case Service(e) =>
        ServiceSnoc(mongo, ServiceTrace(rest), e);
    }
  }

  lemma FraudSnoc(es: seq<P.Event>, e: P.Event)
    requires P.ValidRun(es) && P.Enabled(P.Run(es), e)
    ensures P.ValidRun(es + [e]) && P.Run(es).outbox <= P.Run(es + [e]).outbox
  {
    SnocFront(es, e);
  }

  lemma ServiceSnoc(mongo: bool, fs: seq<RE.Event>, e: RE.Event)
    requires MS.ValidRun(mongo, fs) && RE.Enabled(MS.Run(mongo, fs), e)
    ensures MS.ValidRun(mongo, fs + [e])
  {
    SnocFront(fs, e);
  }

  /** The outbox only grows, so what was delivered stays a prefix of it. */
  lemma OutboxGrows(mongo: bool, steps: seq<Step>)
    requires Valid(mongo, steps) && |steps| > 0
    ensures Outbox(steps[..|steps| - 1]) <= Outbox(steps)
    ensures !steps[|steps| - 1].Fraud? ==> Outbox(steps) == Outbox(steps[..|steps| - 1])
  {
    ValidParts(mongo, steps);
    ValidParts(mongo, steps[..|steps| - 1]);
    var es := FraudTrace(steps);
    if steps[|steps| - 1].Fraud? {
      assert es[..|es| - 1] == FraudTrace(steps[..|steps| - 1]);
    }
  }

  // ---- the last word on a community -----------------------------------------------------

  /** The score of the last message about `c`, or the default of a new community. */
  function LastMessage(ms: seq<ScoreMessage>, c: int): int {
    if |ms| == 0 then 50
    else if ms[|ms| - 1].communityId == c then ms[|ms| - 1].score
    else LastMessage(ms[..|ms| - 1], c)
  }

  function LastSnapshot(ss: seq<CommunitySnapshot>, c: int): int {
    if |ss| == 0 then 50
    else if ss[|ss| - 1].communityId == c then ss[|ss| - 1].score
    else LastSnapshot(ss[..|ss| - 1], c)
  }

  lemma LastMessageSnoc(ms: seq<ScoreMessage>, m: ScoreMessage, c: int)
    ensures LastMessage(ms + [m], c) == if m.communityId == c then m.score else LastMessage(ms, c)
  {
    SnocFront(ms, m);
  }

  lemma LastSnapshotSnoc(ss: seq<CommunitySnapshot>, s: CommunitySnapshot, c: int)
    ensures LastSnapshot(ss + [s], c) == if s.communityId == c then s.score else LastSnapshot(ss, c)
  {
    SnocFront(ss, s);
  }

  predicate Mentions(ms: seq<ScoreMessage>, c: int) {
    exists k :: 0 <= k < |ms| && ms[k].communityId == c
  }

  lemma {:induction false} NeverMentioned(ms: seq<ScoreMessage>, c: int)
    requires !Mentions(ms, c)
    ensures LastMessage(ms, c) == 50
  {
    if |ms| > 0 {
      assert ms[|ms| - 1].communityId != c;
      var head := ms[..|ms| - 1];
      forall k | 0 <= k < |head| ensures head[k].communityId != c {
        assert ms[k].communityId != c;
      }
      NeverMentioned(head, c);
    }
  }

  function Received(steps: seq<Step>): seq<ScoreMessage> {
    if Delivered(steps) <= |Outbox(steps)| then Outbox(steps)[..Delivered(steps)] else []
  }

  /** The scores that arrive while `c` is registered; earlier ones are lost. */
  ghost function Heard(mongo: bool, steps: seq<Step>, c: int): seq<ScoreMessage> {
    if |steps| == 0 then []
    else
      var rest := steps[..|steps| - 1];
      if steps[|steps| - 1].Deliver? && Delivered(rest) < |Outbox(rest)| && ByChat(Db(mongo, rest).communities, c).Some?
      then Heard(mongo, rest, c) + [Outbox(rest)[Delivered(rest)]]
      else Heard(mongo, rest, c)
  }

  /** A registered community holds exactly the last score heard, or the initial 50. */
  ghost predicate HoldsLast(cs: map<Uuid, Community>, heard: seq<ScoreMessage>, c: int) {
    if ByChat(cs, c).Some? then cs[ByChat(cs, c).value].qualityScore == LastMessage(heard, c) else heard == []
  }

  ghost predicate InStep(mongo: bool, steps: seq<Step>, c: int) {
    HoldsLast(Db(mongo, steps).communities, Heard(mongo, steps, c), c)
  }

  lemma ReceivedGrows(mongo: bool, steps: seq<Step>)
    requires Valid(mongo, steps) && |steps| > 0
    ensures var rest, last := steps[..|steps| - 1], steps[|steps| - 1];
      if last.Deliver? then
        Delivered(rest) < |Outbox(rest)| && Received(steps) == Received(rest) + [Outbox(rest)[Delivered(rest)]]
      else Received(steps) == Received(rest)
  {
    var rest := steps[..|steps| - 1];
    OutboxGrows(mongo, steps);
    ValidParts(mongo, steps);
    ValidParts(mongo, rest);
    ReceivedPrefix(Outbox(rest), Outbox(steps), Delivered(rest));
  }

  lemma ReceivedPrefix(before: seq<ScoreMessage>, after: seq<ScoreMessage>, n: nat)
    requires before <= after && n <= |before|
    ensures after[..n] == before[..n]
    ensures n < |before| ==> after[..n + 1] == before[..n] + [before[n]]
  {
  }

  /** Row `id` keeps its chat and score, or is new, at 50 and under a free chat. */
  ghost predicate RowKept(cs: map<Uuid, Community>, ct: map<Uuid, Community>, id: Uuid) {
    && (id in cs ==> id in ct && ct[id].chatId == cs[id].chatId && ct[id].qualityScore == cs[id].qualityScore)
    && (id in ct && id !in cs ==> ct[id].qualityScore == 50 && ByChat(cs, ct[id].chatId).None?)
  }

  lemma PutKeepsRow(cs: map<Uuid, Community>, x: Community, id: Uuid)
    requires if x.id in cs then x.chatId == cs[x.id].chatId && x.qualityScore == cs[x.id].qualityScore
             else x.qualityScore == 50 && ByChat(cs, x.chatId).None?
    ensures RowKept(cs, cs[x.id := x], id)
  {
  }

  /** What an own event of the service does to one community row. */
  lemma ServiceRow(db: CommunityDb, e: RE.Event, id: Uuid)
    requires !e.input.RevenueGenerated? && !e.input.AdminDistribute? && !e.input.ScoreUpdated?
    requires KeysOk(db.communities)
    ensures RowKept(db.communities, RE.ApplyDb(db, e).communities, id)
  {
    var row := RE.WrittenRow(db, e.input);
    if row.Some? {
      MS.WrittenRowOk(db, e.input);
      PutKeepsRow(db.communities, row.value, id);
    }
  }

  /** An own event of the service changes no score; a registration starts at 50. */
  lemma ServiceKeepsScores(s: RE.State, e: RE.Event, c: int)
    requires MS.Inv(s) && RE.Enabled(s, e) && !e.input.ScoreUpdated?
    ensures var cs, ct := s.db.communities, RE.Apply(s, e).db.communities;
      && (ByChat(cs, c).Some? ==> ByChat(ct, c).Some?)
      && (ByChat(ct, c).Some? ==>
        ct[ByChat(ct, c).value].qualityScore ==
          if ByChat(cs, c).Some? then cs[ByChat(cs, c).value].qualityScore else 50)
  {
    if e.input.RevenueGenerated? || e.input.AdminDistribute? {
      MS.MoneyEventFrame(s, e);
    } else {
      MS.PlainKeepsCommunities(s.db, e);
      var cs, ct := s.db.communities, RE.ApplyDb(s.db, e).communities;
      if ByChat(cs, c).Some? {
        ServiceRow(s.db, e, ByChat(cs, c).value);
        ByChatIs(ct, ByChat(cs, c).value);
      } else if ByChat(ct, c).Some? {
        ServiceRow(s.db, e, ByChat(ct, c).value);
      }
    }
  }

  lemma ScoreWritten(cs: map<Uuid, Community>, id: Uuid, score: int, c: int)
    requires KeysOk(cs) && id in cs
    ensures var ct := cs[id := cs[id].(qualityScore := score)];
      && ByChat(ct, c) == ByChat(cs, c)
      && (ByChat(ct, c).Some? ==>
            ct[ByChat(ct, c).value].qualityScore == if cs[id].chatId == c then score else cs[ByChat(cs, c).value].qualityScore)
  {
    var ct := cs[id := cs[id].(qualityScore := score)];
    assert KeysOk(ct);
    if ByChat(cs, c).Some? {
      ByChatIs(cs, ByChat(cs, c).value);
      ByChatIs(ct, ByChat(cs, c).value);
    }
  }

  lemma ArrivalSetsScore(s: RE.State, at: int, chat: int, score: int, c: int)
    requires KeysOk(s.db.communities)
    ensures var cs, ct := s.db.communities, RE.Apply(s, RE.Event(at, RE.ScoreUpdated(chat, score))).db.communities;
      && (ByChat(ct, c).Some? <==> ByChat(cs, c).Some?)
      && (ByChat(ct, c).Some? ==>
            ct[ByChat(ct, c).value].qualityScore == if chat == c then score else cs[ByChat(cs, c).value].qualityScore)
  {
    var cs := s.db.communities;
    if ByChat(cs, chat).Some? {
      ScoreWritten(cs, ByChat(cs, chat).value, score, c);
    }
  }

  lemma ServiceInStep(mongo: bool, fs: seq<RE.Event>, e: RE.Event, heard: seq<ScoreMessage>, c: int)
    requires MS.ValidRun(mongo, fs) && RE.Enabled(MS.Run(mongo, fs), e) && !e.input.ScoreUpdated?
    requires HoldsLast(MS.Run(mongo, fs).db.communities, heard, c)
    ensures HoldsLast(MS.Run(mongo, fs + [e]).db.communities, heard, c)
  {
    MS.InvAfterEveryRun(mongo, fs);
    ServiceKeepsScores(MS.Run(mongo, fs), e, c);
    SnocFront(fs, e);
  }

  lemma ArrivalInStep(mongo: bool, fs: seq<RE.Event>, at: int, m: ScoreMessage, heard: seq<ScoreMessage>, c: int)
    requires MS.ValidRun(mongo, fs) && HoldsLast(MS.Run(mongo, fs).db.communities, heard, c)
    ensures var e := RE.Event(at, RE.ScoreUpdated(m.communityId, m.score));
      HoldsLast(MS.Run(mongo, fs + [e]).db.communities,
                if ByChat(MS.Run(mongo, fs).db.communities, c).Some? then heard + [m] else heard, c)
  {
    MS.InvAfterEveryRun(mongo, fs);
    ArrivalSetsScore(MS.Run(mongo, fs), at, m.communityId, m.score, c);
    LastMessageSnoc(heard, m, c);
    SnocFront(fs, RE.Event(at, RE.ScoreUpdated(m.communityId, m.score)));
  }

  /** In every run of both services, whatever the order of registrations and scores. */
  lemma {:induction false} AlwaysInStep(mongo: bool, steps: seq<Step>, c: int)
    requires Valid(mongo, steps)
    ensures InStep(mongo, steps, c)
  {
    if |steps| > 0 {
      var rest, last := steps[..|steps| - 1], steps[|steps| - 1];
      AlwaysInStep(mongo, rest, c);
      ValidParts(mongo, rest);
      match last
      case Fraud(_) =>
      case Deliver(at) =>
        ArrivalInStep(mongo, ServiceTrace(rest), at, Outbox(rest)[Delivered(rest)], Heard(mongo, rest, c), c);
      case Service(e) =>
        ServiceInStep(mongo, ServiceTrace(rest), e, Heard(mongo, rest, c), c);
    }
  }

  /** Once a community has heard a score of its own, the last one it heard is the last
      one delivered, whatever was lost before its registration. */
  lemma {:induction false} LastHeardIsLastDelivered(mongo: bool, steps: seq<Step>, c: int)
    requires Valid(mongo, steps) && Mentions(Heard(mongo, steps, c), c)
    ensures LastMessage(Heard(mongo, steps, c), c) == LastMessage(Received(steps), c)
  {
    if |steps| > 0 {
      var rest, heard := steps[..|steps| - 1], Heard(mongo, steps[..|steps| - 1], c);
      ReceivedGrows(mongo, steps);
      AlwaysInStep(mongo, rest, c);
      if heard != Heard(mongo, steps, c) {
        var m := Outbox(rest)[Delivered(rest)];
        LastMessageSnoc(heard, m, c);
        LastMessageSnoc(Received(rest), m, c);
        MentionsSnoc(heard, m, c);
        if m.communityId != c {
          LastHeardIsLastDelivered(mongo, rest, c);
        }
      } else if !steps[|steps| - 1].Deliver? {
        LastHeardIsLastDelivered(mongo, rest, c);
      }
    }
  }

  lemma MentionsSnoc(ms: seq<ScoreMessage>, m: ScoreMessage, c: int)
    ensures Mentions(ms + [m], c) <==> Mentions(ms, c) || m.communityId == c
  {
    assert (ms + [m])[|ms|] == m;
    if Mentions(ms, c) {
      var k :| 0 <= k < |ms| && ms[k].communityId == c;
      assert (ms + [m])[k].communityId == c;
    }
  }

  // ---- agreement with the latest snapshot -----------------------------------------------

  /** The last event that stored a snapshot of `c` was a join or a leave, not the admin
      route, which stores without publishing. */
  predicate LastSnapshotPublished(es: seq<P.Event>, c: int) {
    |es| == 0 ||
    match es[|es| - 1].input
    case Join(_, d) => d == c || LastSnapshotPublished(es[..|es| - 1], c)
    case Leave(_, d, _) => d == c || LastSnapshotPublished(es[..|es| - 1], c)
    case AdminRecalcCommunity(d) => d != c && LastSnapshotPublished(es[..|es| - 1], c)
    case _ => LastSnapshotPublished(es[..|es| - 1], c)
  }

  lemma RescoreSnapshots(db: FS.FraudDb, user: Option<int>, community: Option<int>, now: int)
    ensures var after := P.Rescore(db, user, community, now).communityScores;
      if community.None? then after == db.communityScores
      else
        && |after| == |db.communityScores| + 1
        && after == db.communityScores + [after[|db.communityScores|]]
        && after[|db.communityScores|].communityId == community.value
        && after[|db.communityScores|].calculatedAt == now
        && after[|db.communityScores|].revenueStatus == CommunityRevenueStatus(after[|db.communityScores|].score)
  {
  }

  lemma OwnPartSnapshots(db: FS.FraudDb, e: P.Event)
    requires e.input.Leave? ==> FS.ValidChoice(db.memberships, e.input.u, e.input.c, e.input.choice)
    ensures P.OwnPart(db, e).communityScores == db.communityScores
  {
  }

  lemma SnapshotEffect(db: FS.FraudDb, e: P.Event)
    requires e.input.Leave? ==> FS.ValidChoice(db.memberships, e.input.u, e.input.c, e.input.choice)
    ensures var after := P.ApplyDb(db, e).communityScores;
      if e.input.Join? || e.input.Leave? || e.input.AdminRecalcCommunity? then
        && |after| == |db.communityScores| + 1
        && after == db.communityScores + [after[|db.communityScores|]]
        && after[|db.communityScores|].communityId == e.input.c
        && after[|db.communityScores|].calculatedAt == e.at
        && after[|db.communityScores|].revenueStatus == CommunityRevenueStatus(after[|db.communityScores|].score)
      else after == db.communityScores
  {
    OwnPartSnapshots(db, e);
    RescoreSnapshots(P.OwnPart(db, e), P.RescoredUser(db, e.input), P.RescoredCommunity(e.input), e.at);
  }

  /** The last message about a community carries its last snapshot's score. */
  lemma {:induction false} SnapshotsArePublished(es: seq<P.Event>, c: int)
    requires P.ValidRun(es) && LastSnapshotPublished(es, c)
    ensures LastSnapshot(P.Run(es).db.communityScores, c) == LastMessage(P.Run(es).outbox, c)
  {
    if |es| > 0 {
      var e, before, after := es[|es| - 1], P.Run(es[..|es| - 1]), P.Run(es);
      SnapshotEffect(before.db, e);
      if LastSnapshotPublished(es[..|es| - 1], c) {
        SnapshotsArePublished(es[..|es| - 1], c);
      }
      var n := |before.db.communityScores|;
      if e.input.Join? || e.input.Leave? {
        var snap := after.db.communityScores[n];
        LastSnapshotSnoc(before.db.communityScores, snap, c);
        LastMessageSnoc(before.outbox, P.ScoreNews(e.input.c, snap.score), c);
      } else if e.input.AdminRecalcCommunity? {
        LastSnapshotSnoc(before.db.communityScores, after.db.communityScores[n], c);
      }
    }
  }

  predicate SnapshotsOrdered(ss: seq<CommunitySnapshot>, clock: int) {
    && (forall i, j :: 0 <= i < j < |ss| ==> ss[i].calculatedAt <= ss[j].calculatedAt)
    && (forall i :: 0 <= i < |ss| ==> ss[i].calculatedAt <= clock)
  }

  lemma EventKeepsOrder(db: FS.FraudDb, e: P.Event, clock: int)
    requires e.input.Leave? ==> FS.ValidChoice(db.memberships, e.input.u, e.input.c, e.input.choice)
    requires SnapshotsOrdered(db.communityScores, clock) && clock <= e.at
    ensures SnapshotsOrdered(P.ApplyDb(db, e).communityScores, e.at)
  {
    SnapshotEffect(db, e);
  }

  lemma {:induction false} SnapshotsInOrder(es: seq<P.Event>)
    requires P.ValidRun(es)
    ensures SnapshotsOrdered(P.Run(es).db.communityScores, P.Run(es).clock)
  {
    if |es| > 0 {
      SnapshotsInOrder(es[..|es| - 1]);
      EventKeepsOrder(P.Run(es[..|es| - 1]).db, es[|es| - 1], P.Run(es[..|es| - 1]).clock);
    }
  }

  /** What the latest-score query returns is the last snapshot stored, unless another
      snapshot of the community carries the very same instant. */
  lemma {:induction false} LatestIsLast(ss: seq<CommunitySnapshot>, c: int, k: int, clock: int)
    requires SnapshotsOrdered(ss, clock) && FS.LatestSnapshot(ss, c, k)
    requires forall j :: 0 <= j < |ss| && j != k && ss[j].communityId == c ==> ss[j].calculatedAt != ss[k].calculatedAt
    ensures ss[k].score == LastSnapshot(ss, c)
  {
    var n := |ss| - 1;
    if k < n {
      assert ss[n].communityId != c;
      assert FS.LatestSnapshot(ss[..n], c, k);
      LatestIsLast(ss[..n], c, k, clock);
    }
  }

  /** The snapshots a latest-score query can return, when no two carry one instant. */
  ghost predicate UniqueLatest(ss: seq<CommunitySnapshot>, c: int, k: int) {
    && FS.LatestSnapshot(ss, c, k)
    && forall j :: 0 <= j < |ss| && j != k && ss[j].communityId == c ==> ss[j].calculatedAt != ss[k].calculatedAt
  }

  lemma StatusOfSnapshot(es: seq<P.Event>, k: int)
    requires P.ValidRun(es) && 0 <= k < |P.Run(es).db.communityScores|
    ensures var snap := P.Run(es).db.communityScores[k]; snap.revenueStatus == CommunityRevenueStatus(snap.score)
  {
    FR.ScoresInRangeAfterEveryRun(es);
  }

  lemma LatestInRun(es: seq<P.Event>, c: int, k: int)
    requires P.ValidRun(es) && UniqueLatest(P.Run(es).db.communityScores, c, k)
    ensures var snap := P.Run(es).db.communityScores[k];
      && snap.score == LastSnapshot(P.Run(es).db.communityScores, c)
      && snap.revenueStatus == CommunityRevenueStatus(snap.score)
  {
    SnapshotsInOrder(es);
    LatestIsLast(P.Run(es).db.communityScores, c, k, P.Run(es).clock);
    FR.ScoresInRangeAfterEveryRun(es);
  }

  function HeldScore(cs: map<Uuid, Community>, id: Uuid): int
    requires id in cs
  {
    cs[id].qualityScore
  }

  /** What a registered community holds once the channel is drained: the last score
      published about it if it has heard any of its own, and the initial 50 if not. */
  lemma DrainedScore(mongo: bool, steps: seq<Step>, c: int)
    requires Valid(mongo, steps) && Delivered(steps) == |Outbox(steps)|
    requires ByChat(Db(mongo, steps).communities, c).Some?
    ensures var cs := Db(mongo, steps).communities;
      HeldScore(cs, ByChat(cs, c).value) == if Mentions(Heard(mongo, steps, c), c) then LastMessage(Outbox(steps), c) else 50
  {
    AlwaysInStep(mongo, steps, c);
    if Mentions(Heard(mongo, steps, c), c) {
      LastHeardIsLastDelivered(mongo, steps, c);
      assert Received(steps) == Outbox(steps);
    } else {
      NeverMentioned(Heard(mongo, steps, c), c);
    }
  }

  /** Scores for which the engine applies one multiplier. */
  predicate SameBand(a: int, b: int) {
    (a >= 80 <==> b >= 80) && (a >= 50 <==> b >= 50) && (a >= 30 <==> b >= 30)
  }

  lemma BandsDecide(a: int, b: int)
    ensures RevenueMultiplier(a) == RevenueMultiplier(b) <==> SameBand(a, b)
    ensures CommunityRevenueStatus(a) == CommunityRevenueStatus(b) <==> SameBand(a, b)
  {
  }

  /** Cross-service agreement. Once the channel is drained, the multiplier the revenue
      engine applies to a registered community is the one of its latest snapshot, and
      the score held lies in the band of that snapshot's status, exactly when

      - some score reached the community after its registration, and the last one
        published lies in the snapshot's band, or
      - none did, and the snapshot lies in the band of the initial 50.

      This holds of every snapshot the query may return. When there is one only, and a
      join or a leave stored it, the last score published is that snapshot's own, and
      the community need only have heard something or the snapshot be in the band of 50. */
  lemma MultiplierAgreesIff(mongo: bool, steps: seq<Step>, c: int, k: int)
    requires Valid(mongo, steps) && Delivered(steps) == |Outbox(steps)|
    requires ByChat(Db(mongo, steps).communities, c).Some?
    requires P.ValidRun(FraudTrace(steps)) && FS.LatestSnapshot(P.Run(FraudTrace(steps)).db.communityScores, c, k)
    ensures var snap := P.Run(FraudTrace(steps)).db.communityScores[k];
      var held := HeldScore(Db(mongo, steps).communities, ByChat(Db(mongo, steps).communities, c).value);
      var heard := Mentions(Heard(mongo, steps, c), c);
      var agree := if heard then SameBand(LastMessage(Outbox(steps), c), snap.score) else 50 <= snap.score < 80;
      && (RevenueMultiplier(held) == RevenueMultiplier(snap.score) <==> agree)
      && (CommunityRevenueStatus(held) == snap.revenueStatus <==> agree)
      && (UniqueLatest(P.Run(FraudTrace(steps)).db.communityScores, c, k) && LastSnapshotPublished(FraudTrace(steps), c)
          ==> (agree <==> heard || 50 <= snap.score < 80))
  {
    var snap := P.Run(FraudTrace(steps)).db.communityScores[k];
    DrainedScore(mongo, steps, c);
    StatusOfSnapshot(FraudTrace(steps), k);
    BandsDecide(50, snap.score);
    BandsDecide(LastMessage(Outbox(steps), c), snap.score);
    if UniqueLatest(P.Run(FraudTrace(steps)).db.communityScores, c, k) && LastSnapshotPublished(FraudTrace(steps), c) {
      LatestInRun(FraudTrace(steps), c, k);
      SnapshotsArePublished(FraudTrace(steps), c);
    }
  }

  // ---- no community is ever paid in full -----------------------------------------------

  predicate BelowFull(cs: map<Uuid, Community>) {
    forall id :: id in cs ==> cs[id].qualityScore <= 75
  }

  lemma ServiceStaysBelowFull(s: RE.State, e: RE.Event)
    requires MS.Inv(s) && BelowFull(s.db.communities)
    requires e.input.ScoreUpdated? ==> e.input.score <= 75
    ensures BelowFull(RE.Apply(s, e).db.communities)
  {
    if e.input.RevenueGenerated? || e.input.AdminDistribute? {
      MS.MoneyEventFrame(s, e);
    } else if !e.input.ScoreUpdated? {
      forall id | id in RE.ApplyDb(s.db, e).communities
        ensures RE.ApplyDb(s.db, e).communities[id].qualityScore <= 75
      {
        ServiceRow(s.db, e, id);
      }
    }
  }

  predicate ClaimsBelowFull(cs: seq<MS.Claim>) {
    forall k :: 0 <= k < |cs| ==> cs[k].amount > 0.0 && cs[k].multiplier <= 0.8
  }

  lemma ClaimStaysBelowFull(before: seq<MS.Claim>, db: CommunityDb, i: RE.Input)
    requires i.RevenueGenerated? && ClaimsBelowFull(before) && BelowFull(db.communities)
    ensures ClaimsBelowFull(MS.WithClaim(before, db, i))
  {
    var c := RE.Resolve(db, i.ref);
    if c.Some? && c.value in db.communities {
      assert db.communities[c.value].qualityScore <= 75;
    }
  }

  lemma EventStaysBelowFull(s: RE.State, claims: seq<MS.Claim>, e: RE.Event)
    requires MS.Inv(s) && BelowFull(s.db.communities) && ClaimsBelowFull(claims)
    requires e.input.ScoreUpdated? ==> e.input.score <= 75
    ensures BelowFull(RE.Apply(s, e).db.communities)
    ensures ClaimsBelowFull(if e.input.RevenueGenerated? then MS.WithClaim(claims, s.db, e.input) else claims)
  {
    ServiceStaysBelowFull(s, e);
    if e.input.RevenueGenerated? {
      ClaimStaysBelowFull(claims, s.db, e.input);
    }
  }

  lemma TraceStaysBelowFull(mongo: bool, fs: seq<RE.Event>, e: RE.Event)
    requires MS.ValidRun(mongo, fs)
    requires BelowFull(MS.Run(mongo, fs).db.communities) && ClaimsBelowFull(MS.Claims(mongo, fs))
    requires e.input.ScoreUpdated? ==> e.input.score <= 75
    ensures BelowFull(MS.Run(mongo, fs + [e]).db.communities) && ClaimsBelowFull(MS.Claims(mongo, fs + [e]))
  {
    MS.InvAfterEveryRun(mongo, fs);
    EventStaysBelowFull(MS.Run(mongo, fs), MS.Claims(mongo, fs), e);
    SnocFront(fs, e);
  }

  lemma ArrivalBelowFull(mongo: bool, steps: seq<Step>, at: int)
    requires Valid(mongo, steps) && Delivered(steps) < |Outbox(steps)|
    ensures Arrival(steps, at).input.ScoreUpdated? && Arrival(steps, at).input.score <= 75
  {
    ValidParts(mongo, steps);
    FR.FullPayoutIsNeverPublished(FraudTrace(steps));
    assert FR.BelowFullPayout(P.Run(FraudTrace(steps)).outbox[Delivered(steps)]);
  }

  lemma {:induction false} NeverFull(mongo: bool, steps: seq<Step>)
    requires Valid(mongo, steps)
    ensures BelowFull(Db(mongo, steps).communities)
    ensures ClaimsBelowFull(MS.Claims(mongo, ServiceTrace(steps)))
  {
    if |steps| > 0 {
      var rest, last := steps[..|steps| - 1], steps[|steps| - 1];
      NeverFull(mongo, rest);
      ValidParts(mongo, rest);
      if last.Deliver? {
        ArrivalBelowFull(mongo, rest, last.at);
        TraceStaysBelowFull(mongo, ServiceTrace(rest), Arrival(rest, last.at));
      } else if last.Service? {
        TraceStaysBelowFull(mongo, ServiceTrace(rest), last.s);
      }
    }
  }

  function Amount(): MS.Claim -> real { (c: MS.Claim) => c.amount }

  lemma {:induction false} BudgetBelowFull(cs: seq<MS.Claim>)
    requires ClaimsBelowFull(cs)
    ensures MS.Budget(cs) <= 0.8 * Sum(cs, Amount())
  {
    if |cs| > 0 {
      var n := |cs| - 1;
      BudgetBelowFull(cs[..n]);
      ScaledAmount(cs[n].amount, cs[n].multiplier);
    }
  }

  lemma ScaledAmount(a: real, m: real)
    requires a > 0.0 && m <= 0.8
    ensures a * m <= 0.8 * a
  {
    ProductMonotone(m, 0.8, a);
  }

  /** Across both services: at most four fifths of the accepted revenue is ever paid
      out, because no reachable score lies in the full-payout band. */
  lemma AtMostFourFifthsIsPaid(mongo: bool, steps: seq<Step>)
    requires Valid(mongo, steps)
    ensures TotalTon(MS.Run(mongo, ServiceTrace(steps)).published)
      <= 0.8 * Sum(MS.Claims(mongo, ServiceTrace(steps)), Amount())
  {
    ValidParts(mongo, steps);
    NeverFull(mongo, steps);
    MS.MoneySafety(mongo, ServiceTrace(steps));
    BudgetBelowFull(MS.Claims(mongo, ServiceTrace(steps)));
  }
}
