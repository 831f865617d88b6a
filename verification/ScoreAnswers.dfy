/** Asking the fraud engine for a community's score: the message request
    (fraud-engine/internal/processor/processor.go:356-389) and the HTTP route
    (fraud-engine/internal/api/api.go:75-107), and what the community service does
    with a community nobody has scored. */
module ScoreAnswers {
  import opened Seqs
  import opened FraudModels
  import opened CommunityModels
  import opened CommunityStore
  import opened ScoreLink
  import FS = FraudStore
  import P = Processor
  import FR = FraudRuns
  import RE = RevenueEngine
  import MS = MoneySafety
  import LR = LinkRuns

  datatype Answer = Answer(communityId: int, score: int, status: RevenueStatus, multiplier: real, known: bool)

  const REQUEST_DEFAULT := 70
  const ROUTE_DEFAULT := 50

  /** Both answers read one latest snapshot and fall back to a default of their own. */
  function AnswerFrom(snaps: seq<CommunitySnapshot>, c: int, pick: Option<int>, default: int): Answer
    requires FS.LatestAnswer(snaps, c, pick)
  {
    match pick
    case None => Answer(c, default, Monitored, 0.8, false)
    case Some(k) => Answer(c, snaps[k].score, snaps[k].revenueStatus, RevenueMultiplier(snaps[k].score), true)
  }

  function RequestAnswer(snaps: seq<CommunitySnapshot>, c: int, pick: Option<int>): Answer
    requires FS.LatestAnswer(snaps, c, pick)
  {
    AnswerFrom(snaps, c, pick, REQUEST_DEFAULT)
  }

  function RouteAnswer(snaps: seq<CommunitySnapshot>, c: int, pick: Option<int>): Answer
    requires FS.LatestAnswer(snaps, c, pick)
  {
    AnswerFrom(snaps, c, pick, ROUTE_DEFAULT)
  }

  method HandleScoreRequest(store: FS.Store, c: int) returns (answer: Answer)
    ensures exists pick ::
      FS.LatestAnswer(store.communityScores, c, pick) && answer == RequestAnswer(store.communityScores, c, pick)
    ensures answer.known <==> !LR.NeverScored(store.communityScores, c)
  {
    var score, status, multiplier, known := 70, Monitored, 0.8, false;
    var snap, pick := store.GetLatestCommunityScore(c);
    if snap.Some? {
      score := snap.value.score;
      status := snap.value.revenueStatus;
      multiplier := RevenueMultiplier(score);
      known := true;
    }
    answer := Answer(c, score, status, multiplier, known);
  }

  method GetCommunityScore(store: FS.Store, c: int) returns (answer: Answer)
    ensures exists pick ::
      FS.LatestAnswer(store.communityScores, c, pick) && answer == RouteAnswer(store.communityScores, c, pick)
    ensures answer.known <==> !LR.NeverScored(store.communityScores, c)
  {
    var snap, pick := store.GetLatestCommunityScore(c);
    if snap.None? {
      return Answer(c, 50, Monitored, 0.8, false);
    }
    answer := Answer(c, snap.value.score, snap.value.revenueStatus, RevenueMultiplier(snap.value.score), true);
  }

  predicate Consistent(a: Answer) {
    a.status == CommunityRevenueStatus(a.score) && a.multiplier == RevenueMultiplier(a.score) <= 0.8
  }

  lemma AnswerIsConsistent(es: seq<P.Event>, c: int, pick: Option<int>, default: int)
    requires P.ValidRun(es) && FS.LatestAnswer(P.Run(es).db.communityScores, c, pick) && 50 <= default < 80
    ensures Consistent(AnswerFrom(P.Run(es).db.communityScores, c, pick, default))
  {
    FR.ScoresInRangeAfterEveryRun(es);
  }

  lemma KnownTogether(snaps: seq<CommunitySnapshot>, c: int, pick: Option<int>)
    requires FS.LatestAnswer(snaps, c, pick)
    ensures pick.None? <==> LR.NeverScored(snaps, c)
  {
  }

  /** Two queries of one store content, each free to choose among the latest snapshots
      (`p` answers the request and `q` the route): both answers carry the status and
      the multiplier of the score they give, never the full multiplier; they agree on
      whether there is a score, on status and multiplier exactly when there is none or
      the two snapshots chosen lie in one band, and on everything exactly when there
      is one and the two chosen carry one score. */
  lemma AnswersAgreeIff(es: seq<P.Event>, c: int, p: Option<int>, q: Option<int>)
    requires P.ValidRun(es)
    requires FS.LatestAnswer(P.Run(es).db.communityScores, c, p) && FS.LatestAnswer(P.Run(es).db.communityScores, c, q)
    ensures var snaps := P.Run(es).db.communityScores;
      var a, b := RequestAnswer(snaps, c, p), RouteAnswer(snaps, c, q);
      && Consistent(a) && Consistent(b) && a.known == b.known
      && (a.multiplier == b.multiplier <==> LR.NeverScored(snaps, c) || SameBand(snaps[p.value].score, snaps[q.value].score))
      && (a.status == b.status <==> LR.NeverScored(snaps, c) || SameBand(snaps[p.value].score, snaps[q.value].score))
      && (a == b <==> !LR.NeverScored(snaps, c) && snaps[p.value].score == snaps[q.value].score)
  {
    var snaps := P.Run(es).db.communityScores;
    AnswerIsConsistent(es, c, p, REQUEST_DEFAULT);
    AnswerIsConsistent(es, c, q, ROUTE_DEFAULT);
    KnownTogether(snaps, c, p);
    KnownTogether(snaps, c, q);
    if p.Some? {
      BandsDecide(snaps[p.value].score, snaps[q.value].score);
    }
  }

  /** A snapshot that is the only latest one gives two answers that agree on everything. */
  lemma AnswersAgreeOnUniqueLatest(es: seq<P.Event>, c: int, k: int, p: Option<int>, q: Option<int>)
    requires P.ValidRun(es) && UniqueLatest(P.Run(es).db.communityScores, c, k)
    requires FS.LatestAnswer(P.Run(es).db.communityScores, c, p) && FS.LatestAnswer(P.Run(es).db.communityScores, c, q)
    ensures RequestAnswer(P.Run(es).db.communityScores, c, p) == RouteAnswer(P.Run(es).db.communityScores, c, q)
  {
    var snaps := P.Run(es).db.communityScores;
    OnlyPick(snaps, c, k, p);
    OnlyPick(snaps, c, k, q);
  }

  lemma OnlyPick(snaps: seq<CommunitySnapshot>, c: int, k: int, pick: Option<int>)
    requires UniqueLatest(snaps, c, k) && FS.LatestAnswer(snaps, c, pick)
    ensures pick == Some(k)
  {
    assert snaps[k].communityId == c;
  }

  /** What was never scored was never announced. */
  lemma {:induction false} NeverScoredNeverSent(es: seq<P.Event>, c: int)
    requires P.ValidRun(es) && LR.NeverScored(P.Run(es).db.communityScores, c)
    ensures !Mentions(P.Run(es).outbox, c)
  {
    if |es| > 0 {
      var e, before, after := es[|es| - 1], P.Run(es[..|es| - 1]), P.Run(es);
      SnapshotEffect(before.db, e);
      var ss, st := before.db.communityScores, after.db.communityScores;
      forall k | 0 <= k < |ss| ensures ss[k].communityId != c {
        assert st[k] == ss[k];
      }
      NeverScoredNeverSent(es[..|es| - 1], c);
      if e.input.Join? || e.input.Leave? {
        assert st[|ss|].communityId == e.input.c;
        MentionsSnoc(before.outbox, P.ScoreNews(e.input.c, P.LastScore(after.db)), c);
      }
    }
  }

  lemma MentionsMore(before: seq<ScoreMessage>, after: seq<ScoreMessage>, c: int)
    requires before <= after && Mentions(before, c)
    ensures Mentions(after, c)
  {
    var k :| 0 <= k < |before| && before[k].communityId == c;
    assert after[k].communityId == c;
  }

  lemma MentionedAt(ms: seq<ScoreMessage>, k: nat)
    requires k < |ms|
    ensures Mentions(ms, ms[k].communityId)
  {
  }

  lemma {:induction false} HeardWasSent(mongo: bool, steps: seq<Step>, c: int)
    requires Valid(mongo, steps) && Mentions(Heard(mongo, steps, c), c)
    ensures Mentions(Outbox(steps), c)
  {
    if |steps| > 0 {
      var rest := steps[..|steps| - 1];
      OutboxGrows(mongo, steps);
      if Mentions(Heard(mongo, rest, c), c) {
        HeardWasSent(mongo, rest, c);
        MentionsMore(Outbox(rest), Outbox(steps), c);
      } else {
        MentionsSnoc(Heard(mongo, rest, c), Outbox(rest)[Delivered(rest)], c);
        MentionedAt(Outbox(rest), Delivered(rest));
        MentionsMore(Outbox(rest), Outbox(steps), c);
      }
    }
  }

  lemma UnheardHoldsInitialScore(mongo: bool, steps: seq<Step>, c: int)
    requires Valid(mongo, steps) && LR.Registered(mongo, steps, c) && !Mentions(Heard(mongo, steps, c), c)
    ensures var cs := Db(mongo, steps).communities; HeldScore(cs, ByChat(cs, c).value) == 50
  {
    AlwaysInStep(mongo, steps, c);
    NeverMentioned(Heard(mongo, steps, c), c);
  }

  /** A community nobody has scored, in any run of both services and whatever is still
      in the channel: both queries answer "unknown, monitored, 0.8", and if it is
      registered the service holds a score of that very status and multiplier. */
  lemma UnscoredCommunity(mongo: bool, steps: seq<Step>, c: int, pick: Option<int>)
    requires Valid(mongo, steps) && P.ValidRun(FraudTrace(steps))
    requires LR.NeverScored(P.Run(FraudTrace(steps)).db.communityScores, c)
    requires FS.LatestAnswer(P.Run(FraudTrace(steps)).db.communityScores, c, pick)
    ensures var snaps := P.Run(FraudTrace(steps)).db.communityScores;
      var a, b := RequestAnswer(snaps, c, pick), RouteAnswer(snaps, c, pick);
      && a == Answer(c, 70, Monitored, 0.8, false) && b == Answer(c, 50, Monitored, 0.8, false)
      && (LR.Registered(mongo, steps, c) ==>
            var held := HeldScore(Db(mongo, steps).communities, ByChat(Db(mongo, steps).communities, c).value);
            RevenueMultiplier(held) == a.multiplier && CommunityRevenueStatus(held) == a.status)
  {
    NeverScoredNeverSent(FraudTrace(steps), c);
    if LR.Registered(mongo, steps, c) {
      if Mentions(Heard(mongo, steps, c), c) {
        HeardWasSent(mongo, steps, c);
      }
      UnheardHoldsInitialScore(mongo, steps, c);
    }
  }

  lemma AcceptedMultiplier(s: RE.State, e: RE.Event)
    requires MS.Inv(s) && RE.Enabled(s, e) && e.input.RevenueGenerated? && RE.Accepts(s.db, e.input).Some?
    requires RE.Accepts(s.db, e.input).value.1 in s.db.communities
    ensures var ps := RE.Apply(s, e).payments;
      && |ps| == |s.payments| + 1
      && ps[|s.payments|].Multiplier() == RevenueMultiplier(s.db.communities[RE.Accepts(s.db, e.input).value.1].qualityScore)
  {
    MS.AcceptedState(s, e);
  }

  /** `e` is a revenue of `c` that the service accepts. */
  ghost predicate AcceptedFor(mongo: bool, steps: seq<Step>, c: int, e: RE.Event) {
    && LR.Registered(mongo, steps, c)
    && e.input.RevenueGenerated? && RE.Enabled(MS.Run(mongo, ServiceTrace(steps)), e)
    && RE.Accepts(Db(mongo, steps), e.input).Some?
    && RE.Accepts(Db(mongo, steps), e.input).value.1 == ByChat(Db(mongo, steps).communities, c).value
  }

  /** The payment made last is of revenue `revId`, at this multiplier. */
  ghost predicate LastPaidAt(mongo: bool, steps: seq<Step>, revId: Uuid, multiplier: real) {
    var ps := MS.Run(mongo, ServiceTrace(steps)).payments;
    |ps| > 0 && ps[|ps| - 1].revId == revId && ps[|ps| - 1].Multiplier() == multiplier
  }

  /** A revenue is paid at the multiplier of the score held when it is accepted. */
  lemma PaidAtHeldRate(mongo: bool, steps: seq<Step>, c: int, e: RE.Event)
    requires Valid(mongo, steps) && AcceptedFor(mongo, steps, c, e)
    ensures var cs := Db(mongo, steps).communities;
      && Valid(mongo, steps + [Service(e)])
      && LastPaidAt(mongo, steps + [Service(e)], e.input.revId, RevenueMultiplier(HeldScore(cs, ByChat(cs, c).value)))
  {
    ValidParts(mongo, steps);
    MS.InvAfterEveryRun(mongo, ServiceTrace(steps));
    LR.AppendService(mongo, steps, e, c);
    LR.RunSnoc(mongo, ServiceTrace(steps), e);
    AcceptedMultiplier(MS.Run(mongo, ServiceTrace(steps)), e);
    MS.AcceptedState(MS.Run(mongo, ServiceTrace(steps)), e);
  }

  /** A revenue accepted for a community that has heard no score of its own is paid at
      0.8, in every run of both services. */
  lemma UnheardIsPaidAtInitialRate(mongo: bool, steps: seq<Step>, c: int, e: RE.Event)
    requires Valid(mongo, steps) && AcceptedFor(mongo, steps, c, e) && !Mentions(Heard(mongo, steps, c), c)
    ensures Valid(mongo, steps + [Service(e)]) && LastPaidAt(mongo, steps + [Service(e)], e.input.revId, 0.8)
  {
    UnheardHoldsInitialScore(mongo, steps, c);
    PaidAtHeldRate(mongo, steps, c, e);
  }

  /** And one accepted, with the channel drained, for a community that has heard one is
      paid at the multiplier of its one latest snapshot, if that was published. */
  lemma HeardIsPaidAtLatestRate(mongo: bool, steps: seq<Step>, c: int, e: RE.Event, k: int)
    requires Valid(mongo, steps) && AcceptedFor(mongo, steps, c, e) && Mentions(Heard(mongo, steps, c), c)
    requires Delivered(steps) == |Outbox(steps)|
    requires P.ValidRun(FraudTrace(steps)) && LastSnapshotPublished(FraudTrace(steps), c)
    requires UniqueLatest(P.Run(FraudTrace(steps)).db.communityScores, c, k)
    ensures Valid(mongo, steps + [Service(e)])
    ensures LastPaidAt(mongo, steps + [Service(e)], e.input.revId,
                       RevenueMultiplier(P.Run(FraudTrace(steps)).db.communityScores[k].score))
  {
    MultiplierAgreesIff(mongo, steps, c, k);
    PaidAtHeldRate(mongo, steps, c, e);
  }
}
