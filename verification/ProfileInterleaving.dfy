/** The join and leave counters of a profile while any number of joins and leaves run
    at once, one store call at a time. */
module ProfileInterleaving {
  import opened Seqs
  import opened FraudModels
  import opened FraudStore
  import opened LedgerInterleaving

  /** Joins of a user that have not reached their profile call yet. */
  function JoinAhead(u: int): Op -> bool { (op: Op) => (op.JoinCount? || op.JoinProfile?) && op.u == u }

  function LeaveAhead(u: int): Op -> bool {
    (op: Op) => (op.LeaveFind? || op.LeaveClose? || op.LeaveProfile?) && op.u == u
  }

  function JoinBegins(u: int): Move -> bool { (m: Move) => m.StartJoin? && m.u == u }

  function LeaveBegins(u: int): Move -> bool { (m: Move) => m.StartLeave? && m.u == u }

  /** The profile is there on both sides with the same counters, or on neither. */
  predicate SameCounters(a: FraudDb, b: FraudDb, u: int) {
    && (u in a.profiles <==> u in b.profiles)
    && (u in a.profiles ==>
          && a.profiles[u].totalJoins == b.profiles[u].totalJoins
          && a.profiles[u].totalLeaves == b.profiles[u].totalLeaves)
  }

  /** No other handler rewrites the counters of the user on the way. */
  predicate NoRewrite(s: Sys, moves: seq<Move>, u: int)
    requires Schedule(s, moves)
    decreases moves
  {
    |moves| == 0 ||
    (&& (moves[0].OtherHandler? ==> SameCounters(s.db, moves[0].db, u))
     && NoRewrite(Do(s, moves[0]), moves[1..], u))
  }

  /** From `s` to `t` the counters grew by `joins` and `leaves`, what is still ahead
      counted on both sides. */
  predicate Grew(s: Sys, t: Sys, u: int, joins: int, leaves: int) {
    && (u in s.db.profiles <==> u in t.db.profiles)
    && (u in s.db.profiles ==>
          var p, q := s.db.profiles[u], t.db.profiles[u];
          && q.totalJoins + Count(t.ops, JoinAhead(u)) == p.totalJoins + Count(s.ops, JoinAhead(u)) + joins
          && q.totalLeaves + Count(t.ops, LeaveAhead(u)) == p.totalLeaves + Count(s.ops, LeaveAhead(u)) + leaves)
  }

  /** One store call writes the counter of its user, at its profile call and nowhere else. */
  lemma CallCounts(s: Sys, i: int, pick: int, u: int)
    requires CanDo(s, Advance(i, pick))
    ensures var (db, next) := Call(s.db, s.ops[i], pick);
      && (u in s.db.profiles <==> u in db.profiles)
      && (u in s.db.profiles ==>
            && db.profiles[u].totalJoins + Bit(JoinAhead(u)(next)) == s.db.profiles[u].totalJoins + Bit(JoinAhead(u)(s.ops[i]))
            && db.profiles[u].totalLeaves + Bit(LeaveAhead(u)(next)) == s.db.profiles[u].totalLeaves + Bit(LeaveAhead(u)(s.ops[i])))
  {
  }

  lemma MoveCounts(s: Sys, m: Move, u: int)
    requires CanDo(s, m) && (m.OtherHandler? ==> SameCounters(s.db, m.db, u))
    ensures Grew(s, Do(s, m), u, Bit(JoinBegins(u)(m)), Bit(LeaveBegins(u)(m)))
  {
    match m
    case Advance(i, pick) =>
      CallCounts(s, i, pick, u);
      var next := Call(s.db, s.ops[i], pick).1;
      CountUpdate(s.ops, i, next, JoinAhead(u));
      CountUpdate(s.ops, i, next, LeaveAhead(u));
    case StartJoin(v, c, at) =>
      FilterSnoc(s.ops, JoinCount(v, c, at), JoinAhead(u));
      FilterSnoc(s.ops, JoinCount(v, c, at), LeaveAhead(u));
    case StartLeave(v, c, at) =>
      FilterSnoc(s.ops, LeaveFind(v, c, at), JoinAhead(u));
      FilterSnoc(s.ops, LeaveFind(v, c, at), LeaveAhead(u));
    case OtherHandler(_) =>
  }

  lemma CountFirst<T>(s: seq<T>, p: T -> bool)
    requires |s| > 0
    ensures Count(s, p) == Bit(p(s[0])) + Count(s[1..], p)
  {
    CountSplit(s, 1, p);
    FilterSnoc([], s[0], p);
    assert s[..1] == [] + [s[0]];
  }

  /** However the calls interleave and from whatever state: as long as nobody rewrites
      the counters of a user, every join and every leave that begins is counted for it,
      once. With nothing ahead on either side the counters grow by exactly those. */
  lemma {:induction false} EveryCallCounts(s: Sys, moves: seq<Move>, u: int)
    requires Schedule(s, moves) && NoRewrite(s, moves, u)
    ensures Grew(s, Exec(s, moves), u, Count(moves, JoinBegins(u)), Count(moves, LeaveBegins(u)))
    decreases moves
  {
    if |moves| > 0 {
      MoveCounts(s, moves[0], u);
      EveryCallCounts(Do(s, moves[0]), moves[1..], u);
      CountFirst(moves, JoinBegins(u));
      CountFirst(moves, LeaveBegins(u));
    }
  }

  /** From quiet to quiet. */
  lemma QuietGrowth(s: Sys, moves: seq<Move>, u: int)
    requires Schedule(s, moves) && NoRewrite(s, moves, u) && u in s.db.profiles
    requires Quiescent(s) && Quiescent(Exec(s, moves))
    ensures u in Exec(s, moves).db.profiles
    ensures var p, q := s.db.profiles[u], Exec(s, moves).db.profiles[u];
      && q.totalJoins == p.totalJoins + Count(moves, JoinBegins(u))
      && q.totalLeaves == p.totalLeaves + Count(moves, LeaveBegins(u))
  {
    EveryCallCounts(s, moves, u);
    CountZero(s.ops, JoinAhead(u));
    CountZero(s.ops, LeaveAhead(u));
    CountZero(Exec(s, moves).ops, JoinAhead(u));
    CountZero(Exec(s, moves).ops, LeaveAhead(u));
  }
}
