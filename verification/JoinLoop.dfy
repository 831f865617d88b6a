/** Join-loop detection against the trace: what the store query sees is exactly
    what the event history says. */
module JoinLoop {
  import opened Seqs
  import opened FraudModels
  import opened FraudStore
  import opened Processor
  import R = FraudRuns

  function JoinOf(u: int, c: int): Event -> bool { (e: Event) => e.input == Join(u, c) }

  function JoinEventAfter(u: int, c: int, cutoff: int): Event -> bool {
    (e: Event) => e.input == Join(u, c) && e.at > cutoff
  }

  /** What a join calls for that ends the history `es`. */
  function Raised(es: seq<Event>, u: int, c: int, at: int): seq<FraudEvent> {
    var n := Count(es, JoinEventAfter(u, c, at - 7 * DAY));
    if n >= 3 then [JoinLeaveLoop(u, c, n, at)] else []
  }

  /** The fraud events a history calls for, read off the history alone. */
  function LoopsIn(es: seq<Event>): seq<FraudEvent> {
    if |es| == 0 then []
    else
      var e := es[|es| - 1];
      LoopsIn(es[..|es| - 1]) +
      (if e.input.Join? then Raised(es, e.input.u, e.input.c, e.at) else [])
  }

  lemma LeaveKeepsJoins(ms: seq<Membership>, v: int, d: int, now: int, choice: LeaveChoice, p: Membership -> bool)
    requires ValidChoice(ms, v, d, choice)
    requires forall m: Membership, at: int, n: int :: p(m.(leftAt := Some(at), durationSec := n)) == p(m)
    ensures Count(CloseChosen(ms, v, d, now, choice), p) == Count(ms, p)
  {
    CountAgree(CloseChosen(ms, v, d, now, choice), ms, p);
  }

  lemma RecentAfterEvent(db: FraudDb, e: Event, u: int, c: int, cutoff: int)
    requires e.input.Leave? ==> ValidChoice(db.memberships, e.input.u, e.input.c, e.input.choice)
    ensures Count(R.LedgerPart(db, e).memberships, JoinedAfter(u, c, cutoff))
      == Count(db.memberships, JoinedAfter(u, c, cutoff)) + Bit(JoinEventAfter(u, c, cutoff)(e))
  {
    var ms := db.memberships;
    match e.input
    case Join(v, d) =>
      FilterSnoc(ms, Membership(v, d, e.at, None, -1, Count(ms, OfKey(v, d))), JoinedAfter(u, c, cutoff));
    case Leave(v, d, choice) => LeaveKeepsJoins(ms, v, d, e.at, choice, JoinedAfter(u, c, cutoff));
    case _ =>
  }

  /** Records joined after an instant are the join events after it. */
  lemma {:induction false} RecordsMatchTrace(es: seq<Event>, u: int, c: int, cutoff: int)
    requires ValidRun(es)
    ensures Count(Run(es).db.memberships, JoinedAfter(u, c, cutoff)) == Count(es, JoinEventAfter(u, c, cutoff))
  {
    if |es| > 0 {
      var e, before := es[|es| - 1], Run(es[..|es| - 1]);
      RecordsMatchTrace(es[..|es| - 1], u, c, cutoff);
      R.OnlyLedgerPart(before.db, e);
      RecentAfterEvent(before.db, e, u, c, cutoff);
    }
  }

  /** What a join adds to the fraud events and to the records, whatever it rescores. */
  lemma JoinEffects(db: FraudDb, at: int, u: int, c: int)
    ensures var joined, after := JoinDb(db, u, c, at), ApplyDb(db, Event(at, Join(u, c)));
      && after.memberships == joined.memberships
      && after.fraudEvents == db.fraudEvents
           + (var n := RecentJoins(joined, u, c, at); if n >= 3 then [JoinLeaveLoop(u, c, n, at)] else [])
  {
  }

  /** The join just handled raises exactly the event the trace calls for. */
  lemma LastJoinDetected(es: seq<Event>, u: int, c: int, at: int)
    requires ValidRun(es) && |es| > 0 && es[|es| - 1] == Event(at, Join(u, c))
    ensures Run(es).db.fraudEvents == Run(es[..|es| - 1]).db.fraudEvents + Raised(es, u, c, at)
  {
    var db := Run(es[..|es| - 1]).db;
    JoinEffects(db, at, u, c);
    RecordsMatchTrace(es, u, c, at - 7 * DAY);
    assert RecentJoins(JoinDb(db, u, c, at), u, c, at) == Count(es, JoinEventAfter(u, c, at - 7 * DAY));
  }

  lemma OthersKeepEvents(db: FraudDb, e: Event)
    requires e.input.Leave? ==> ValidChoice(db.memberships, e.input.u, e.input.c, e.input.choice)
    requires !e.input.Join?
    ensures ApplyDb(db, e).fraudEvents == db.fraudEvents
  {
    RescoreKeeps(OwnPart(db, e), RescoredUser(db, e.input), RescoredCommunity(e.input), e.at);
  }

  /** For every run, the fraud events on record are exactly those the trace calls for:
      one for each join that is at least the third of its key within seven days. */
  lemma {:induction false} DetectionRefinesTrace(es: seq<Event>)
    requires ValidRun(es)
    ensures Run(es).db.fraudEvents == LoopsIn(es)
  {
    if |es| > 0 {
      var e := es[|es| - 1];
      DetectionRefinesTrace(es[..|es| - 1]);
      if e.input.Join? {
        LastJoinDetected(es, e.input.u, e.input.c, e.at);
      } else {
        OthersKeepEvents(Run(es[..|es| - 1]).db, e);
      }
    }
  }

  predicate InTimeOrder(es: seq<Event>) {
    forall i, j :: 0 <= i < j < |es| ==> es[i].at <= es[j].at
  }

  lemma {:induction false} RunsAreOrdered(es: seq<Event>)
    requires ValidRun(es)
    ensures InTimeOrder(es)
    ensures forall i :: 0 <= i < |es| ==> es[i].at <= Run(es).clock
  {
    if |es| > 0 {
      RunsAreOrdered(es[..|es| - 1]);
    }
  }

  lemma {:induction false} FilterKeepsOrder(es: seq<Event>, p: Event -> bool)
    requires InTimeOrder(es)
    ensures InTimeOrder(Filter(es, p))
  {
    if |es| > 0 {
      var n := |es| - 1;
      FilterKeepsOrder(es[..n], p);
      FilterIn(es[..n], p);
      forall e | e in Filter(es[..n], p) ensures e.at <= es[n].at {
        assert e in es[..n];
      }
    }
  }

  lemma CountThree(a: Event, b: Event, d: Event, p: Event -> bool)
    requires p(a) && p(b) && p(d)
    ensures Count([a, b, d], p) == 3
  {
    FilterSnoc([], a, p);
    FilterSnoc([a], b, p);
    FilterSnoc([a, b], d, p);
    assert [] + [a] == [a] && [a] + [b] == [a, b] && [a, b] + [d] == [a, b, d];
  }

  lemma LastThreeCount(rows: seq<Event>, u: int, c: int, cutoff: int)
    requires InTimeOrder(rows) && forall k :: 0 <= k < |rows| ==> rows[k].input == Join(u, c)
    requires |rows| >= 3 && rows[|rows| - 3].at > cutoff
    ensures Count(rows, JoinEventAfter(u, c, cutoff)) >= 3
  {
    var n := |rows|;
    CountSplit(rows, n - 3, JoinEventAfter(u, c, cutoff));
    assert rows[n - 3..] == [rows[n - 3], rows[n - 2], rows[n - 1]];
    CountThree(rows[n - 3], rows[n - 2], rows[n - 1], JoinEventAfter(u, c, cutoff));
  }

  lemma OldRowsCount(rows: seq<Event>, u: int, c: int, cutoff: int)
    requires InTimeOrder(rows) && |rows| >= 3 && rows[|rows| - 3].at <= cutoff
    ensures Count(rows, JoinEventAfter(u, c, cutoff)) < 3
  {
    var n, p := |rows|, JoinEventAfter(u, c, cutoff);
    CountSplit(rows, n - 2, p);
    CountZero(rows[..n - 2], p);
    CountAtMost(rows[n - 2..], p);
  }

  /** In an ordered history, "three joins after the cutoff" is one comparison. */
  lemma ThreeRecent(rows: seq<Event>, u: int, c: int, cutoff: int)
    requires InTimeOrder(rows) && forall k :: 0 <= k < |rows| ==> rows[k].input == Join(u, c)
    ensures Count(rows, JoinEventAfter(u, c, cutoff)) >= 3 <==> |rows| >= 3 && rows[|rows| - 3].at > cutoff
  {
    CountAtMost(rows, JoinEventAfter(u, c, cutoff));
    if |rows| >= 3 {
      if rows[|rows| - 3].at > cutoff {
        LastThreeCount(rows, u, c, cutoff);
      } else {
        OldRowsCount(rows, u, c, cutoff);
      }
    }
  }

  lemma OrderedThreeRecent(es: seq<Event>, u: int, c: int, cutoff: int)
    requires InTimeOrder(es)
    ensures var joins := Filter(es, JoinOf(u, c));
      Count(es, JoinEventAfter(u, c, cutoff)) >= 3 <==> |joins| >= 3 && joins[|joins| - 3].at > cutoff
  {
    FilterKeepsOrder(es, JoinOf(u, c));
    FilterIn(es, JoinOf(u, c));
    forall k | 0 <= k < |Filter(es, JoinOf(u, c))| ensures Filter(es, JoinOf(u, c))[k].input == Join(u, c) {
      assert Filter(es, JoinOf(u, c))[k] in Filter(es, JoinOf(u, c));
    }
    ThreeRecent(Filter(es, JoinOf(u, c)), u, c, cutoff);
    CountFilter(es, JoinOf(u, c), JoinEventAfter(u, c, cutoff));
  }

  lemma HistoryThreeRecent(es: seq<Event>, u: int, c: int, cutoff: int)
    requires ValidRun(es)
    ensures var joins := Filter(es, JoinOf(u, c));
      Count(es, JoinEventAfter(u, c, cutoff)) >= 3 <==> |joins| >= 3 && joins[|joins| - 3].at > cutoff
  {
    RunsAreOrdered(es);
    OrderedThreeRecent(es, u, c, cutoff);
  }

  /** A join raises a fraud event exactly when the third most recent join of that
      user to that community, this one included, is later than seven days ago. */
  lemma JoinRaisesEventIff(es: seq<Event>, u: int, c: int)
    requires ValidRun(es) && |es| > 0 && es[|es| - 1].input == Join(u, c)
    ensures var joins := Filter(es, JoinOf(u, c));
      |Run(es).db.fraudEvents| > |Run(es[..|es| - 1]).db.fraudEvents|
      <==> |joins| >= 3 && joins[|joins| - 3].at > es[|es| - 1].at - 7 * DAY
  {
    var at := es[|es| - 1].at;
    LastJoinDetected(es, u, c, at);
    HistoryThreeRecent(es, u, c, at - 7 * DAY);
  }
}
