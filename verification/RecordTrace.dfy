/** The membership records of the fraud engine from the events of the trace. */
module RecordTrace {
  import opened Seqs
  import opened FraudModels
  import opened FraudStore
  import opened Processor
  import R = FraudRuns

  function IsJoin(): Event -> bool { (e: Event) => e.input.Join? }

  /** The record of a join: its user, community and time. */
  predicate RecordOf(m: Membership, e: Event) {
    e.input.Join? && m.userId == e.input.u && m.communityId == e.input.c && m.joinedAt == e.at
  }

  predicate OnePerJoin(ms: seq<Membership>, joins: seq<Event>) {
    |ms| == |joins| && forall k :: 0 <= k < |ms| ==> RecordOf(ms[k], joins[k])
  }

  predicate LeaveAt(es: seq<Event>, i: int, m: Membership) {
    && 0 <= i < |es| && es[i].input.Leave?
    && es[i].input.u == m.userId && es[i].input.c == m.communityId && m.leftAt == Some(es[i].at)
  }

  /** A closed record was closed by a leave of its user and community, at its time. */
  ghost predicate LeftByLeave(es: seq<Event>, m: Membership) {
    m.leftAt == None || exists i :: LeaveAt(es, i, m)
  }

  ghost predicate AllLeftByLeave(es: seq<Event>, ms: seq<Membership>) {
    forall k :: 0 <= k < |ms| ==> LeftByLeave(es, ms[k])
  }

  function StillOpen(u: int, c: int): Membership -> bool {
    (m: Membership) => m.userId == u && m.communityId == c && m.leftAt == None
  }

  /** Joins minus leaves of a user in a community, a leave of nothing not counted. */
  function Standing(es: seq<Event>, u: int, c: int): nat {
    if |es| == 0 then 0
    else
      var n, i := Standing(es[..|es| - 1], u, c), es[|es| - 1].input;
      if i.Join? && i.u == u && i.c == c then n + 1
      else if i.Leave? && i.u == u && i.c == c && n > 0 then n - 1
      else n
  }

  // ---- joins -------------------------------------------------------------------------

  lemma JoinShows(ms: seq<Membership>, joins: seq<Event>, m: Membership, e: Event)
    requires OnePerJoin(ms, joins) && RecordOf(m, e)
    ensures OnePerJoin(ms + [m], joins + [e])
  {
  }

  lemma LedgerShows(db: FraudDb, joins: seq<Event>, e: Event)
    requires e.input.Leave? ==> ValidChoice(db.memberships, e.input.u, e.input.c, e.input.choice)
    requires OnePerJoin(db.memberships, joins)
    ensures OnePerJoin(R.LedgerPart(db, e).memberships, if e.input.Join? then joins + [e] else joins)
  {
    match e.input
    case Join(u, c) =>
      JoinShows(db.memberships, joins, Membership(u, c, e.at, None, -1, Count(db.memberships, OfKey(u, c))), e);
    case Leave(u, c, choice) =>
    case _ =>
  }

  /** In every run the records are, in order, those of the join events. */
  lemma {:induction false} RecordsAreJoins(es: seq<Event>)
    requires ValidRun(es)
    ensures OnePerJoin(Run(es).db.memberships, Filter(es, IsJoin()))
  {
    if |es| > 0 {
      var before, e := Run(es[..|es| - 1]), es[|es| - 1];
      RecordsAreJoins(es[..|es| - 1]);
      LedgerShows(before.db, Filter(es[..|es| - 1], IsJoin()), e);
      R.OnlyLedgerPart(before.db, e);
      assert Filter(es[..|es| - 1], IsJoin()) + [] == Filter(es[..|es| - 1], IsJoin());
    }
  }

  // ---- leaves ------------------------------------------------------------------------

  lemma StaysLeft(es: seq<Event>, e: Event, m: Membership)
    requires LeftByLeave(es, m)
    ensures LeftByLeave(es + [e], m)
  {
    if i :| LeaveAt(es, i, m) {
      assert LeaveAt(es + [e], i, m);
    }
  }

  lemma AllStayLeft(es: seq<Event>, e: Event, ms: seq<Membership>)
    requires AllLeftByLeave(es, ms)
    ensures AllLeftByLeave(es + [e], ms)
  {
    forall k | 0 <= k < |ms| ensures LeftByLeave(es + [e], ms[k]) {
      StaysLeft(es, e, ms[k]);
    }
  }

  lemma LedgerLeaves(db: FraudDb, es: seq<Event>, e: Event)
    requires e.input.Leave? ==> ValidChoice(db.memberships, e.input.u, e.input.c, e.input.choice)
    requires AllLeftByLeave(es, db.memberships)
    ensures AllLeftByLeave(es + [e], R.LedgerPart(db, e).memberships)
  {
    AllStayLeft(es, e, db.memberships);
    if e.input.Leave? && e.input.choice.Picked? {
      assert LeaveAt(es + [e], |es|, R.LedgerPart(db, e).memberships[e.input.choice.closed]);
    }
  }

  /** In every run each closed record carries the time of a leave of its own user and
      community. */
  lemma {:induction false} ClosedByLeaves(es: seq<Event>)
    requires ValidRun(es)
    ensures AllLeftByLeave(es, Run(es).db.memberships)
  {
    if |es| > 0 {
      var before, e := Run(es[..|es| - 1]), es[|es| - 1];
      ClosedByLeaves(es[..|es| - 1]);
      LedgerLeaves(before.db, es[..|es| - 1], e);
      R.OnlyLedgerPart(before.db, e);
      HeadAndLast(es);
    }
  }

  // ---- how many are open -----------------------------------------------------------------

  lemma CloseCounts(ms: seq<Membership>, v: int, d: int, now: int, choice: LeaveChoice, u: int, c: int)
    requires ValidChoice(ms, v, d, choice)
    ensures Count(CloseChosen(ms, v, d, now, choice), StillOpen(u, c)) ==
      (var n := Count(ms, StillOpen(u, c)); if v == u && d == c && n > 0 then n - 1 else n)
  {
    match choice
    case NothingOpen =>
      if v == u && d == c {
        forall i | 0 <= i < |ms| ensures !StillOpen(u, c)(ms[i]) {
          assert !OpenAt(ms, v, d, i);
        }
        CountZero(ms, StillOpen(u, c));
      }
    case Picked(m, i) =>
      CountUpdate(ms, i, ms[i].(leftAt := Some(now), durationSec := WholeSeconds(now - ms[m].joinedAt)), StillOpen(u, c));
      if v == u && d == c {
        CountPositive(ms, i, StillOpen(u, c));
      }
  }

  lemma LedgerStanding(db: FraudDb, e: Event, u: int, c: int)
    requires e.input.Leave? ==> ValidChoice(db.memberships, e.input.u, e.input.c, e.input.choice)
    ensures var n, i := Count(db.memberships, StillOpen(u, c)), e.input;
      Count(R.LedgerPart(db, e).memberships, StillOpen(u, c)) ==
        if i.Join? && i.u == u && i.c == c then n + 1
        else if i.Leave? && i.u == u && i.c == c && n > 0 then n - 1
        else n
  {
    match e.input
    case Join(v, d) =>
      FilterSnoc(db.memberships, Membership(v, d, e.at, None, -1, Count(db.memberships, OfKey(v, d))), StillOpen(u, c));
    case Leave(v, d, choice) => CloseCounts(db.memberships, v, d, e.at, choice, u, c);
    case _ =>
  }

  /** In every run, whichever records the leaves picked: every leave of a member closes
      one record, so a user's open records of a community are the joins not left yet. */
  lemma {:induction false} OpenIsStanding(es: seq<Event>, u: int, c: int)
    requires ValidRun(es)
    ensures Count(Run(es).db.memberships, StillOpen(u, c)) == Standing(es, u, c)
  {
    if |es| > 0 {
      var before, e := Run(es[..|es| - 1]), es[|es| - 1];
      OpenIsStanding(es[..|es| - 1], u, c);
      LedgerStanding(before.db, e, u, c);
      R.OnlyLedgerPart(before.db, e);
    }
  }
}
