/** Joins and leaves as the message broker runs them: any number at once, one
    atomic step per store call (fraud-engine/internal/store/store.go:124-197).
    Every other handler is a step that may rewrite anything but the membership
    records and the community statistics, which only joins and leaves write. */
module LedgerInterleaving {
  import opened Seqs
  import opened FraudModels
  import opened FraudStore

  /** The next store call of an operation in flight, with what it has read. */
  datatype Op =
    | JoinCount(u: int, c: int, at: int)
    | JoinProfile(u: int, c: int, at: int, count: nat)
    | JoinStats(u: int, c: int, at: int, count: nat)
    | JoinInsert(u: int, c: int, at: int, count: nat)
    | LeaveFind(u: int, c: int, at: int)
    | LeaveClose(u: int, c: int, at: int, joinedAt: int)
    | LeaveProfile(u: int, c: int, at: int, closed: bool)
    | LeaveStats(u: int, c: int, at: int, closed: bool)
    | Done

  datatype Sys = Sys(db: FraudDb, ops: seq<Op>, clock: int)

  /** `pick` is the record a query returns or an update matches; -1 is "none". */
  datatype Move =
    | StartJoin(u: int, c: int, at: int)
    | StartLeave(u: int, c: int, at: int)
    | Advance(op: int, pick: int)
    | OtherHandler(db: FraudDb)

  predicate NoneOpen(ms: seq<Membership>, u: int, c: int) {
    forall i :: 0 <= i < |ms| ==> !OpenAt(ms, u, c, i)
  }

  predicate CanDo(s: Sys, m: Move) {
    match m
    case StartJoin(_, _, at) => s.clock <= at
    case StartLeave(_, _, at) => s.clock <= at
    case Advance(i, pick) =>
      && 0 <= i < |s.ops| && !s.ops[i].Done?
      && (s.ops[i].LeaveFind? ==>
            if pick == -1 then NoneOpen(s.db.memberships, s.ops[i].u, s.ops[i].c)
            else LatestOpen(s.db.memberships, s.ops[i].u, s.ops[i].c, pick))
      && (s.ops[i].LeaveClose? ==>
            if pick == -1 then NoneOpen(s.db.memberships, s.ops[i].u, s.ops[i].c)
            else OpenAt(s.db.memberships, s.ops[i].u, s.ops[i].c, pick))
    case OtherHandler(db) => db.memberships == s.db.memberships && db.stats == s.db.stats
  }

  /** One store call: the new store content and what the operation does next. */
  function Call(db: FraudDb, op: Op, pick: int): (FraudDb, Op)
    requires !op.Done?
    requires op.LeaveFind? && pick != -1 ==> 0 <= pick < |db.memberships|
    requires op.LeaveClose? && pick != -1 ==> 0 <= pick < |db.memberships|
  {
    match op
    case JoinCount(u, c, at) => (db, JoinProfile(u, c, at, Count(db.memberships, OfKey(u, c))))
    case JoinProfile(u, c, at, n) => (IncUserJoins(db, u), JoinStats(u, c, at, n))
    case JoinStats(u, c, at, n) => (db.(stats := CountJoin(db.stats, c)), JoinInsert(u, c, at, n))
    case JoinInsert(u, c, at, n) => (InsertMembership(db, u, c, at, n), Done)
    case LeaveFind(u, c, at) =>
      (db, if pick == -1 then LeaveProfile(u, c, at, false) else LeaveClose(u, c, at, db.memberships[pick].joinedAt))
    case LeaveClose(u, c, at, joinedAt) =>
      if pick == -1 then (db, LeaveProfile(u, c, at, false))
      else (db.(memberships := CloseAt(db.memberships, pick, at, WholeSeconds(at - joinedAt))),
            LeaveProfile(u, c, at, true))
    case LeaveProfile(u, c, at, closed) => (IncUserLeaves(db, u), LeaveStats(u, c, at, closed))
    case LeaveStats(u, c, at, closed) => (db.(stats := CountLeave(db.stats, c)), Done)
  }

  function Do(s: Sys, m: Move): Sys
    requires CanDo(s, m)
  {
    match m
    case StartJoin(u, c, at) => s.(ops := s.ops + [JoinCount(u, c, at)], clock := at)
    case StartLeave(u, c, at) => s.(ops := s.ops + [LeaveFind(u, c, at)], clock := at)
    case Advance(i, pick) =>
      var (db, op) := Call(s.db, s.ops[i], pick);
      s.(db := db, ops := s.ops[i := op])
    case OtherHandler(db) => s.(db := db)
  }

  const START := Sys(EMPTY, [], 0)

  predicate Schedule(s: Sys, moves: seq<Move>)
    decreases moves
  {
    |moves| == 0 || (CanDo(s, moves[0]) && Schedule(Do(s, moves[0]), moves[1..]))
  }

  function Exec(s: Sys, moves: seq<Move>): Sys
    requires Schedule(s, moves)
    decreases moves
  {
    if |moves| == 0 then s else Exec(Do(s, moves[0]), moves[1..])
  }

  lemma {:induction false} ScheduleConcat(s: Sys, a: seq<Move>, b: seq<Move>)
    requires Schedule(s, a) && Schedule(Exec(s, a), b)
    ensures Schedule(s, a + b) && Exec(s, a + b) == Exec(Exec(s, a), b)
    decreases a
  {
    if |a| == 0 {
      assert a + b == b;
    } else {
      ScheduleConcat(Do(s, a[0]), a[1..], b);
      assert (a + b)[1..] == a[1..] + b;
    }
  }

  /** `t` can be the state after some interleaved steps from `s`. */
  ghost predicate Reaches(s: Sys, t: Sys) {
    exists moves :: Schedule(s, moves) && Exec(s, moves) == t
  }

  lemma ReachRefl(s: Sys)
    ensures Reaches(s, s)
  {
    assert Schedule(s, []) && Exec(s, []) == s;
  }

  lemma ReachStep(s: Sys, t: Sys, m: Move)
    requires Reaches(s, t) && CanDo(t, m)
    ensures Reaches(s, Do(t, m))
  {
    var moves :| Schedule(s, moves) && Exec(s, moves) == t;
    assert Schedule(Do(t, m), []);
    assert [m][1..] == [];
    assert Schedule(t, [m]) && Exec(t, [m]) == Do(t, m);
    ScheduleConcat(s, moves, [m]);
  }

  /** Advancing the newest operation. */
  lemma ReachNewest(s: Sys, db: FraudDb, rest: seq<Op>, op: Op, clock: int, pick: int)
    requires Reaches(s, Sys(db, rest + [op], clock))
    requires CanDo(Sys(db, rest + [op], clock), Advance(|rest|, pick))
    ensures Reaches(s, Sys(Call(db, op, pick).0, rest + [Call(db, op, pick).1], clock))
  {
    var t := Sys(db, rest + [op], clock);
    ReachStep(s, t, Advance(|rest|, pick));
    assert t.ops[|rest| := Call(db, op, pick).1] == rest + [Call(db, op, pick).1];
  }

  // ---- the ledger invariant ------------------------------------------------

  function Joins(stats: map<int, Stats>, c: int): int { if c in stats then stats[c].totalJoins else 0 }

  function Leaves(stats: map<int, Stats>, c: int): int { if c in stats then stats[c].totalLeaves else 0 }

  /** Joins of `c` between their statistics step and their insert. */
  function Inserting(c: int): Op -> bool { (op: Op) => op.JoinInsert? && op.c == c }

  /** Leaves of `c` that closed a record and have not yet counted it. */
  function Uncounted(c: int): Op -> bool {
    (op: Op) => (op.LeaveProfile? || op.LeaveStats?) && op.c == c && op.closed
  }

  ghost predicate Balanced(stats: map<int, Stats>, ms: seq<Membership>, ops: seq<Op>, c: int) {
    BalancedBy(stats, c, Count(ms, InCommunity(c)), Count(ms, ClosedIn(c)), Count(ops, Inserting(c)), Count(ops, Uncounted(c)))
  }

  /** So many records, closed ones among them, and operations of either kind. */
  ghost predicate BalancedBy(stats: map<int, Stats>, c: int, records: nat, closed: nat, inserting: nat, uncounted: nat) {
    && (c in stats ==> stats[c].Ok())
    && Joins(stats, c) == records + inserting
    && closed <= Leaves(stats, c) + uncounted
    && (uncounted > 0 ==> c in stats)
  }

  ghost predicate CommunityInv(s: Sys, c: int) {
    Balanced(s.db.stats, s.db.memberships, s.ops, c)
  }

  /** Replacing an operation by one that is in neither window moves no counter. */
  lemma OpMoves(ops: seq<Op>, i: int, next: Op, c: int)
    requires 0 <= i < |ops|
    ensures Count(ops[i := next], Inserting(c)) + Bit(Inserting(c)(ops[i])) == Count(ops, Inserting(c)) + Bit(Inserting(c)(next))
    ensures Count(ops[i := next], Uncounted(c)) + Bit(Uncounted(c)(ops[i])) == Count(ops, Uncounted(c)) + Bit(Uncounted(c)(next))
  {
    CountUpdate(ops, i, next, Inserting(c));
    CountUpdate(ops, i, next, Uncounted(c));
  }

  lemma BalancedInsert(stats: map<int, Stats>, ms: seq<Membership>, ops: seq<Op>, i: int, m: Membership, c: int)
    requires Balanced(stats, ms, ops, c)
    requires 0 <= i < |ops| && ops[i].JoinInsert? && m.communityId == ops[i].c && IsOpen(m)
    ensures Balanced(stats, ms + [m], ops[i := Done], c)
  {
    OpMoves(ops, i, Done, c);
    FilterSnoc(ms, m, InCommunity(c));
    FilterSnoc(ms, m, ClosedIn(c));
  }

  lemma BalancedClose(stats: map<int, Stats>, ms: seq<Membership>, ops: seq<Op>, i: int, pick: int, now: int, d: int, c: int)
    requires Balanced(stats, ms, ops, c)
    requires 0 <= i < |ops| && ops[i].LeaveClose? && OpenAt(ms, ops[i].u, ops[i].c, pick)
    ensures Balanced(stats, CloseAt(ms, pick, now, d), ops[i := LeaveProfile(ops[i].u, ops[i].c, ops[i].at, true)], c)
  {
    var m := ms[pick].(leftAt := Some(now), durationSec := d);
    OpMoves(ops, i, LeaveProfile(ops[i].u, ops[i].c, ops[i].at, true), c);
    CountUpdate(ms, pick, m, InCommunity(c));
    CountUpdate(ms, pick, m, ClosedIn(c));
    if ms[pick].communityId == c {
      CountPositive(ms, pick, InCommunity(c));
    }
  }

  lemma BalancedLeave(stats: map<int, Stats>, ms: seq<Membership>, ops: seq<Op>, i: int, c: int)
    requires Balanced(stats, ms, ops, c)
    requires 0 <= i < |ops| && ops[i].LeaveStats?
    ensures Balanced(CountLeave(stats, ops[i].c), ms, ops[i := Done], c)
  {
    OpMoves(ops, i, Done, c);
    if ops[i].closed && ops[i].c == c {
      CountPositive(ops, i, Uncounted(c));
    }
  }

  lemma OneMoreJoin(stats: map<int, Stats>, k: int, c: int, records: nat, closed: nat, inserting: nat, uncounted: nat)
    requires BalancedBy(stats, c, records, closed, inserting, uncounted)
    ensures BalancedBy(CountJoin(stats, k), c, records, closed, inserting + Bit(k == c), uncounted)
  {
  }

  lemma BalancedJoin(stats: map<int, Stats>, ms: seq<Membership>, ops: seq<Op>, i: int, next: Op, c: int)
    requires Balanced(stats, ms, ops, c)
    requires 0 <= i < |ops| && ops[i].JoinStats? && next.JoinInsert? && next.c == ops[i].c
    ensures Balanced(CountJoin(stats, ops[i].c), ms, ops[i := next], c)
  {
    OpMoves(ops, i, next, c);
    OneMoreJoin(stats, ops[i].c, c, Count(ms, InCommunity(c)), Count(ms, ClosedIn(c)),
                Count(ops, Inserting(c)), Count(ops, Uncounted(c)));
  }

  /** What one store call does to the two collections, and where it leaves the operation;
      `d` is the duration a close writes. */
  predicate Effect(db: FraudDb, op: Op, pick: int, after: FraudDb, next: Op, d: int)
    requires op.LeaveClose? && pick != -1 ==> 0 <= pick < |db.memberships|
  {
    if op.JoinStats? then
      && after.stats == CountJoin(db.stats, op.c) && after.memberships == db.memberships
      && next == JoinInsert(op.u, op.c, op.at, op.count)
    else if op.JoinInsert? then
      && after.stats == db.stats && next == Done
      && after.memberships == db.memberships + [Membership(op.u, op.c, op.at, None, -1, op.count)]
    else if op.LeaveStats? then
      && after.stats == CountLeave(db.stats, op.c) && after.memberships == db.memberships && next == Done
    else if op.LeaveClose? && pick != -1 then
      && after.stats == db.stats && after.memberships == CloseAt(db.memberships, pick, op.at, d)
      && next == LeaveProfile(op.u, op.c, op.at, true)
    else
      && after.stats == db.stats && after.memberships == db.memberships && !next.JoinInsert?
      && ((next.LeaveProfile? || next.LeaveStats?) && next.closed ==>
            op.LeaveProfile? && op.closed && op.c == next.c)
      && (op.LeaveProfile? && op.closed ==> next.LeaveStats? && next.closed && op.c == next.c)
  }

  lemma CallEffect(db: FraudDb, op: Op, pick: int) returns (d: int)
    requires !op.Done?
    requires (op.LeaveFind? || op.LeaveClose?) && pick != -1 ==> 0 <= pick < |db.memberships|
    ensures Effect(db, op, pick, Call(db, op, pick).0, Call(db, op, pick).1, d)
  {
    d := if op.LeaveClose? then WholeSeconds(op.at - op.joinedAt) else 0;
  }

  lemma EffectKeepsBalance(db: FraudDb, ops: seq<Op>, i: int, pick: int, after: FraudDb, next: Op, d: int, c: int)
    requires Balanced(db.stats, db.memberships, ops, c) && 0 <= i < |ops|
    requires ops[i].LeaveClose? && pick != -1 ==> OpenAt(db.memberships, ops[i].u, ops[i].c, pick)
    requires Effect(db, ops[i], pick, after, next, d)
    ensures Balanced(after.stats, after.memberships, ops[i := next], c)
  {
    var op, stats, ms := ops[i], db.stats, db.memberships;
    if op.JoinStats? {
      BalancedJoin(stats, ms, ops, i, next, c);
    } else if op.JoinInsert? {
      BalancedInsert(stats, ms, ops, i, Membership(op.u, op.c, op.at, None, -1, op.count), c);
    } else if op.LeaveStats? {
      BalancedLeave(stats, ms, ops, i, c);
    } else if op.LeaveClose? && pick != -1 {
      BalancedClose(stats, ms, ops, i, pick, op.at, d, c);
    } else {
      OpMoves(ops, i, next, c);
    }
  }

  lemma CommunityCall(s: Sys, i: int, pick: int, c: int)
    requires CommunityInv(s, c) && CanDo(s, Advance(i, pick))
    ensures CommunityInv(Do(s, Advance(i, pick)), c)
  {
    var d := CallEffect(s.db, s.ops[i], pick);
    var (after, next) := Call(s.db, s.ops[i], pick);
    EffectKeepsBalance(s.db, s.ops, i, pick, after, next, d, c);
  }

  lemma CommunityStep(s: Sys, m: Move, c: int)
    requires CommunityInv(s, c) && CanDo(s, m)
    ensures CommunityInv(Do(s, m), c)
  {
    match m
    case StartJoin(u, k, at) =>
      FilterSnoc(s.ops, JoinCount(u, k, at), Inserting(c));
      FilterSnoc(s.ops, JoinCount(u, k, at), Uncounted(c));
    case StartLeave(u, k, at) =>
      FilterSnoc(s.ops, LeaveFind(u, k, at), Inserting(c));
      FilterSnoc(s.ops, LeaveFind(u, k, at), Uncounted(c));
    case Advance(i, pick) => CommunityCall(s, i, pick, c);
    case OtherHandler(_) =>
  }

  lemma {:induction false} CommunityExec(s: Sys, moves: seq<Move>, c: int)
    requires CommunityInv(s, c) && Schedule(s, moves)
    ensures CommunityInv(Exec(s, moves), c)
    decreases moves
  {
    if |moves| > 0 {
      CommunityStep(s, moves[0], c);
      CommunityExec(Do(s, moves[0]), moves[1..], c);
    }
  }

  lemma ReachableBalanced(s: Sys, c: int)
    requires Reaches(START, s)
    ensures CommunityInv(s, c)
  {
    var moves :| Schedule(START, moves) && Exec(START, moves) == s;
    CommunityExec(START, moves, c);
  }

  lemma {:induction false} OpenPlusClosed(ms: seq<Membership>, c: int)
    ensures Count(ms, InCommunity(c)) == Count(ms, OpenIn(c)) + Count(ms, ClosedIn(c))
  {
    if |ms| > 0 {
      OpenPlusClosed(ms[..|ms| - 1], c);
    }
  }

  /** In every reachable state of every interleaving, for every community: the
      member count is joins minus leaves, and the join counter is ahead of the
      records by exactly the joins between their counter step and their insert. */
  lemma LedgerAgreesInEveryInterleaving(s: Sys, c: int)
    requires Reaches(START, s)
    ensures
      && (c in s.db.stats ==> s.db.stats[c].memberCount == s.db.stats[c].totalJoins - s.db.stats[c].totalLeaves)
      && Joins(s.db.stats, c) - Count(s.db.memberships, InCommunity(c)) == Count(s.ops, Inserting(c))
      && (c !in s.db.stats ==> forall i :: 0 <= i < |s.db.memberships| ==> s.db.memberships[i].communityId != c)
  {
    ReachableBalanced(s, c);
    if c !in s.db.stats {
      forall i | 0 <= i < |s.db.memberships|
        ensures s.db.memberships[i].communityId != c
      {
        if s.db.memberships[i].communityId == c {
          CountPositive(s.db.memberships, i, InCommunity(c));
        }
      }
    }
  }

  predicate Quiescent(s: Sys) {
    forall i :: 0 <= i < |s.ops| ==> s.ops[i].Done?
  }

  /** With nothing in flight the join counter is the number of records, and at
      least `memberCount` of them are still open. */
  lemma LedgerWhenQuiescent(s: Sys, c: int)
    requires Reaches(START, s) && Quiescent(s)
    ensures
      && Joins(s.db.stats, c) == Count(s.db.memberships, InCommunity(c))
      && (c in s.db.stats ==> Count(s.db.memberships, OpenIn(c)) >= s.db.stats[c].memberCount)
  {
    ReachableBalanced(s, c);
    CountZero(s.ops, Inserting(c));
    CountZero(s.ops, Uncounted(c));
    OpenPlusClosed(s.db.memberships, c);
  }

  // ---- rejoin counts under interleaving -------------------------------------

  predicate Counted(op: Op) { op.JoinProfile? || op.JoinStats? || op.JoinInsert? }

  predicate CountedOk(op: Op, ms: seq<Membership>) {
    Counted(op) ==> op.count <= Count(ms, OfKey(op.u, op.c))
  }

  predicate OpsCounted(ops: seq<Op>, ms: seq<Membership>) {
    forall i :: 0 <= i < |ops| ==> CountedOk(ops[i], ms)
  }

  predicate RejoinsOk(ms: seq<Membership>) {
    forall k :: 0 <= k < |ms| ==> RejoinAt(ms, k)
  }

  ghost predicate RejoinInv(s: Sys) {
    RejoinsOk(s.db.memberships) && OpsCounted(s.ops, s.db.memberships)
  }

  /** No key loses records. */
  ghost predicate KeysGrow(ms: seq<Membership>, mt: seq<Membership>) {
    forall u, c :: Count(mt, OfKey(u, c)) >= Count(ms, OfKey(u, c))
  }

  /** Record `k` counts no more rejoins than there are records of its key before it. */
  predicate RejoinAt(ms: seq<Membership>, k: int)
    requires 0 <= k < |ms|
  {
    ms[k].rejoinCount <= Count(ms[..k], OfKey(ms[k].userId, ms[k].communityId))
  }

  lemma CloseKeepsKeys(ms: seq<Membership>, i: int, now: int, d: int, k: int, u: int, c: int)
    requires 0 <= i < |ms| && 0 <= k <= |ms|
    ensures Count(CloseAt(ms, i, now, d)[..k], OfKey(u, c)) == Count(ms[..k], OfKey(u, c))
  {
    CountAgree(CloseAt(ms, i, now, d)[..k], ms[..k], OfKey(u, c));
  }

  lemma InsertKeepsRejoins(ms: seq<Membership>, m: Membership)
    requires RejoinsOk(ms) && m.rejoinCount <= Count(ms, OfKey(m.userId, m.communityId))
    ensures RejoinsOk(ms + [m]) && KeysGrow(ms, ms + [m])
  {
    var mt := ms + [m];
    forall k | 0 <= k < |mt| ensures RejoinAt(mt, k) {
      assert mt[..k] == ms[..k];
      if k == |ms| {
        assert ms[..k] == ms;
      } else {
        assert RejoinAt(ms, k);
      }
    }
    forall u, c ensures Count(mt, OfKey(u, c)) >= Count(ms, OfKey(u, c)) {
      FilterSnoc(ms, m, OfKey(u, c));
    }
  }

  lemma CloseKeepsRejoins(ms: seq<Membership>, i: int, now: int, d: int)
    requires 0 <= i < |ms| && RejoinsOk(ms)
    ensures RejoinsOk(CloseAt(ms, i, now, d)) && KeysGrow(ms, CloseAt(ms, i, now, d))
  {
    var mt := CloseAt(ms, i, now, d);
    forall k | 0 <= k < |mt| ensures RejoinAt(mt, k) {
      assert RejoinAt(ms, k);
      CloseKeepsKeys(ms, i, now, d, k, ms[k].userId, ms[k].communityId);
    }
    forall u, c ensures Count(mt, OfKey(u, c)) >= Count(ms, OfKey(u, c)) {
      CloseKeepsKeys(ms, i, now, d, |ms|, u, c);
      assert mt[..|ms|] == mt && ms[..|ms|] == ms;
    }
  }

  /** One store call: the records and the operation's own count stay in order. */
  lemma CallKeepsRejoins(db: FraudDb, op: Op, pick: int)
    requires !op.Done? && RejoinsOk(db.memberships) && CountedOk(op, db.memberships)
    requires (op.LeaveFind? || op.LeaveClose?) && pick != -1 ==> 0 <= pick < |db.memberships|
    ensures var (after, next) := Call(db, op, pick);
      RejoinsOk(after.memberships) && KeysGrow(db.memberships, after.memberships) && CountedOk(next, after.memberships)
  {
    if op.JoinInsert? {
      InsertKeepsRejoins(db.memberships, Membership(op.u, op.c, op.at, None, -1, op.count));
    } else if op.LeaveClose? && pick != -1 {
      CloseKeepsRejoins(db.memberships, pick, op.at, WholeSeconds(op.at - op.joinedAt));
    }
  }

  lemma OpsStayCounted(ops: seq<Op>, ms: seq<Membership>, mt: seq<Membership>, i: int, next: Op)
    requires OpsCounted(ops, ms) && KeysGrow(ms, mt) && 0 <= i < |ops| && CountedOk(next, mt)
    ensures OpsCounted(ops[i := next], mt)
  {
    var after := ops[i := next];
    forall j | 0 <= j < |after| ensures CountedOk(after[j], mt) {
      assert CountedOk(ops[j], ms);
    }
  }

  lemma RejoinStep(s: Sys, m: Move)
    requires RejoinInv(s) && CanDo(s, m)
    ensures RejoinInv(Do(s, m))
  {
    if m.Advance? {
      CallKeepsRejoins(s.db, s.ops[m.op], m.pick);
      var (after, next) := Call(s.db, s.ops[m.op], m.pick);
      OpsStayCounted(s.ops, s.db.memberships, after.memberships, m.op, next);
    }
  }

  lemma {:induction false} RejoinExec(s: Sys, moves: seq<Move>)
    requires RejoinInv(s) && Schedule(s, moves)
    ensures RejoinInv(Exec(s, moves))
    decreases moves
  {
    if |moves| > 0 {
      RejoinStep(s, moves[0]);
      RejoinExec(Do(s, moves[0]), moves[1..]);
    }
  }

  /** However joins overlap, no record claims more earlier memberships than exist. */
  lemma RejoinNeverOvercounts(s: Sys, k: int)
    requires Reaches(START, s) && 0 <= k < |s.db.memberships|
    ensures var m := s.db.memberships[k];
      m.rejoinCount <= Count(s.db.memberships[..k], OfKey(m.userId, m.communityId))
  {
    var moves :| Schedule(START, moves) && Exec(START, moves) == s;
    RejoinExec(START, moves);
    assert RejoinAt(s.db.memberships, k);
  }

  // ---- stored durations under interleaving ----------------------------------

  /** The two readers of a record agree on whether its user is still a member:
      one looks at `leftAt`, the other at the sign of the duration. */
  predicate ReadersAgree(m: Membership) {
    IsOpen(m) <==> m.durationSec < 0
  }

  predicate AllAgree(ms: seq<Membership>) {
    forall i :: 0 <= i < |ms| ==> ReadersAgree(ms[i])
  }

  /** The move that closes a record breaks the agreement exactly when the leave
      measured a record joined a whole second or more after its own clock reading. */
  predicate Late(s: Sys, m: Move)
    requires CanDo(s, m)
  {
    m.Advance? && s.ops[m.op].LeaveClose? && m.pick != -1 && s.ops[m.op].joinedAt - s.ops[m.op].at >= SECOND
  }

  lemma AgreementStep(s: Sys, m: Move)
    requires AllAgree(s.db.memberships) && CanDo(s, m)
    ensures AllAgree(Do(s, m).db.memberships) <==> !Late(s, m)
  {
    var t := Do(s, m);
    if m.Advance? && s.ops[m.op].LeaveClose? && m.pick != -1 {
      assert t.db.memberships[m.pick].durationSec == WholeSeconds(s.ops[m.op].at - s.ops[m.op].joinedAt);
      assert ReadersAgree(t.db.memberships[m.pick]) <==> !Late(s, m);
    }
  }

  predicate NeverLate(s: Sys, moves: seq<Move>)
    requires Schedule(s, moves)
    decreases moves
  {
    |moves| == 0 || (!Late(s, moves[0]) && NeverLate(Do(s, moves[0]), moves[1..]))
  }

  /** Once broken, the agreement is never restored: closed records are never rewritten. */
  lemma {:induction false} DisagreementStays(s: Sys, moves: seq<Move>, i: int)
    requires Schedule(s, moves) && 0 <= i < |s.db.memberships|
    requires !IsOpen(s.db.memberships[i])
    ensures |s.db.memberships| <= |Exec(s, moves).db.memberships|
    ensures Exec(s, moves).db.memberships[i] == s.db.memberships[i]
    decreases moves
  {
    if |moves| > 0 {
      DisagreementStays(Do(s, moves[0]), moves[1..], i);
    }
  }

  /** Exactly the interleavings without a late close keep the readers in agreement. */
  lemma {:induction false} AgreementExec(s: Sys, moves: seq<Move>)
    requires AllAgree(s.db.memberships) && Schedule(s, moves)
    ensures AllAgree(Exec(s, moves).db.memberships) <==> NeverLate(s, moves)
    decreases moves
  {
    if |moves| > 0 {
      var t := Do(s, moves[0]);
      AgreementStep(s, moves[0]);
      if Late(s, moves[0]) {
        var i := moves[0].pick;
        assert !ReadersAgree(t.db.memberships[i]) && !IsOpen(t.db.memberships[i]);
        DisagreementStays(t, moves[1..], i);
        assert !ReadersAgree(Exec(s, moves).db.memberships[i]);
      } else {
        AgreementExec(t, moves[1..]);
      }
    }
  }

  /** A leave that read the clock at 0 and has not queried yet, and a whole join at 2s. */
  lemma JoinDuringLeave() returns (db: FraudDb)
    ensures db.memberships == [Membership(1, 1, 2 * SECOND, None, -1, 0)]
    ensures Reaches(START, Sys(db, [LeaveFind(1, 1, 0), Done], 2 * SECOND))
  {
    var t, leave := 2 * SECOND, LeaveFind(1, 1, 0);
    ReachRefl(START);
    ReachStep(START, START, StartLeave(1, 1, 0));
    assert START.ops + [leave] == [leave];
    ReachStep(START, Sys(EMPTY, [leave], 0), StartJoin(1, 1, t));
    ReachNewest(START, EMPTY, [leave], JoinCount(1, 1, t), t, 0);
    ReachNewest(START, EMPTY, [leave], JoinProfile(1, 1, t, 0), t, 0);
    ReachNewest(START, EMPTY, [leave], JoinStats(1, 1, t, 0), t, 0);
    var counted := EMPTY.(stats := CountJoin(map[], 1));
    ReachNewest(START, counted, [leave], JoinInsert(1, 1, t, 0), t, 0);
    db := InsertMembership(counted, 1, 1, t, 0);
    assert [leave] + [Done] == [leave, Done];
  }

  /** Late closes do happen: a leave reads the clock, a join of the same user then
      runs to completion two seconds later, and the leave measures that record.
      The record ends up with a `leftAt` and a duration of -2 seconds. */
  lemma LateCloseIsReachable() returns (s: Sys)
    ensures Reaches(START, s) && !AllAgree(s.db.memberships)
  {
    var t := 2 * SECOND;
    var db := JoinDuringLeave();
    ReachStep(START, Sys(db, [LeaveFind(1, 1, 0), Done], t), Advance(0, 0));
    var measured := Sys(db, [LeaveClose(1, 1, 0, t), Done], t);
    assert measured == Do(Sys(db, [LeaveFind(1, 1, 0), Done], t), Advance(0, 0));
    ReachStep(START, measured, Advance(0, 0));
    s := Do(measured, Advance(0, 0));
    assert s.db.memberships[0].durationSec == -2 && s.db.memberships[0].leftAt == Some(0);
    assert !ReadersAgree(s.db.memberships[0]);
  }
}
