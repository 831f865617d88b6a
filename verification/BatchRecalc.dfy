/** The periodic recalculation of all users
    (fraud-engine/internal/processor/processor.go:287-319), a loop over the pages. */
module BatchRecalc {
  import opened Seqs
  import opened Numbers
  import opened FraudModels
  import opened FraudStore
  import opened Pages
  import P = Processor
  import US = UserScorer

  datatype Outcome = Finished | StoreError | Cancelled

  /** Rescoring users one after another, at one clock reading. */
  function AfterVisits(s: P.State, ids: seq<UserId>, now: int): (t: P.State)
    requires s.clock <= now
    ensures t.clock <= now
  {
    if |ids| == 0 then s
    else P.Apply(AfterVisits(s, ids[..|ids| - 1], now), P.Event(now, P.RecalcUser(ids[|ids| - 1])))
  }

  lemma AfterOneMore(s: P.State, ids: seq<UserId>, u: UserId, now: int)
    requires s.clock <= now
    ensures AfterVisits(s, ids + [u], now) == P.Apply(AfterVisits(s, ids, now), P.Event(now, P.RecalcUser(u)))
  {
    SnocFront(ids, u);
  }

  /** One page of visits, checking for cancellation before each. `start` is the state
      in which the batch began. */
  method VisitPage(p: P.Processor, before: seq<UserId>, page: seq<UserId>, cancelled: nat -> bool, now: int, ghost start: P.State)
    returns (visited: seq<UserId>, stopped: bool)
    requires p.Valid() && start.clock <= now && p.Now() == AfterVisits(start, before, now)
    modifies p, p.store
    ensures before <= visited <= before + page
    ensures stopped ==> cancelled(|visited|)
    ensures !stopped ==> visited == before + page
    ensures p.Valid() && p.Now() == AfterVisits(start, visited, now)
  {
    visited := before;
    for i := 0 to |page|
      invariant visited == before + page[..i]
      invariant p.Valid() && p.Now() == AfterVisits(start, visited, now)
    {
      if cancelled(|visited|) {
        return visited, true;
      }
      p.HandleRecalc(page[i], now);
      AfterOneMore(start, visited, page[i], now);
      PrefixSnoc(page, i);
      ConcatAssoc(before, page[..i], [page[i]]);
      visited := visited + [page[i]];
    }
    stopped := false;
  }

  predicate Succeed(fails: nat -> bool, n: nat) {
    forall j: nat :: j < n ==> !fails(j)
  }

  /** Where a batch stands before query `k`: what it has visited and what is to come
      make up all visits and all queries of an undisturbed batch. */
  ghost predicate Progress(users: nat -> set<UserId>, all: seq<UserId>, total: nat, visited: seq<UserId>, k: nat, after: int) {
    && after <= MAX_ID
    && all == visited + Visits(users, k, after)
    && total == k + Queries(users, k, after)
  }

  /** What one page does to it. */
  lemma PageProgress(users: nat -> set<UserId>, all: seq<UserId>, total: nat, visited: seq<UserId>, k: nat, after: int,
                     page: seq<UserId>)
    requires Progress(users, all, total, visited, k, after) && page == Page(users(k), after, BATCH_SIZE)
    ensures k < total && visited <= visited + page <= all
    ensures |page| < BATCH_SIZE ==> visited + page == all && k + 1 == total
    ensures |page| == 0 ==> visited == all
    ensures |page| >= BATCH_SIZE ==>
      after < page[|page| - 1] && Progress(users, all, total, visited + page, k + 1, page[|page| - 1])
  {
    VisitsStep(users, k, after);
    if |page| >= BATCH_SIZE {
      var last := page[|page| - 1];
      Beyond(users, k, after, last);
      ConcatAssoc(visited, page, Visits(users, k + 1, last));
    }
  }

  lemma PrefixOfPrefix(a: seq<UserId>, b: seq<UserId>, c: seq<UserId>)
    requires a <= b <= c
    ensures a <= c
  {
  }

  /** The loop body after a successful query. `result` is None when the batch goes on
      behind the cursor `next`. */
  method OnePage(p: P.Processor, users: nat -> set<UserId>, cancelled: nat -> bool, now: int, before: seq<UserId>,
                 ghost k: nat, lastId: int, page: seq<UserId>, ghost start: P.State, ghost all: seq<UserId>, ghost total: nat)
    returns (visited: seq<UserId>, next: int, result: Option<Outcome>)
    requires Progress(users, all, total, before, k, lastId) && page == Page(users(k), lastId, BATCH_SIZE)
    requires p.Valid() && start.clock <= now && p.Now() == AfterVisits(start, before, now)
    modifies p, p.store
    ensures p.Valid() && p.Now() == AfterVisits(start, visited, now)
    ensures visited <= all
    ensures result.None? ==> lastId < next && Progress(users, all, total, visited, k + 1, next)
    ensures result.Some? ==> !result.value.StoreError?
    ensures result == Some(Finished) ==> visited == all && k + 1 == total
    ensures result == Some(Cancelled) ==> cancelled(|visited|)
  {
    PageProgress(users, all, total, before, k, lastId, page);
    next := lastId;
    if |page| == 0 {
      return before, lastId, Some(Finished);
    }
    var stopped;
    visited, stopped := VisitPage(p, before, page, cancelled, now, start);
    PrefixOfPrefix(visited, before + page, all);
    if stopped {
      return visited, lastId, Some(Cancelled);
    }
    next := page[|page| - 1];
    result := if |page| < BATCH_SIZE then Some(Finished) else None;
  }

  lemma QueryIsMade(users: nat -> set<UserId>, all: seq<UserId>, total: nat, visited: seq<UserId>, k: nat, after: int)
    requires Progress(users, all, total, visited, k, after)
    ensures k < total && visited <= all
  {
    PageProgress(users, all, total, visited, k, after, Page(users(k), after, BATCH_SIZE));
  }

  /** The batch loop; `fails(k)` is a store error on query `k`, `cancelled(n)` a
      cancellation seen before visit `n`. It terminates because ids are bounded and
      the cursor only grows, whatever other handlers do to the user set. Every visit
      rescores its user, and nothing else is written. */
  method BatchRecalcUsers(p: P.Processor, users: nat -> set<UserId>, fails: nat -> bool, cancelled: nat -> bool, now: int)
    returns (visited: seq<UserId>, ghost queries: nat, outcome: Outcome)
    requires p.Valid() && p.Now().clock <= now
    modifies p, p.store
    ensures visited <= Visits(users, 0, 0)
    ensures p.Valid() && p.Now() == AfterVisits(old(p.Now()), visited, now)
    ensures queries < Queries(users, 0, 0) && Succeed(fails, queries)
    ensures outcome.StoreError? <==> fails(queries)
    ensures outcome.Finished? ==> visited == Visits(users, 0, 0) && queries + 1 == Queries(users, 0, 0)
    ensures outcome.Cancelled? ==> cancelled(|visited|)
  {
    visited, outcome, queries := [], Finished, 0;
    ghost var start, all, total := p.Now(), Visits(users, 0, 0), Queries(users, 0, 0);
    var lastId: int := 0;
    var k: nat := 0;
    while true
      invariant Progress(users, all, total, visited, k, lastId) && queries == k && Succeed(fails, k)
      invariant p.Valid() && p.Now() == AfterVisits(start, visited, now)
      decreases MAX_ID - lastId
    {
      QueryIsMade(users, all, total, visited, k, lastId);
      if fails(k) {
        return visited, k, StoreError;
      }
      var page := ListUsersForRecalc(users(k), lastId, BATCH_SIZE);
      var result;
      visited, lastId, result := OnePage(p, users, cancelled, now, visited, k, lastId, page, start, all, total);
      if result.Some? {
        return visited, k, result.value;
      }
      k := k + 1;
      queries := k;
    }
  }

  // ---- what the visits write ---------------------------------------------------------

  lemma SameBreakdown(p: Profile, score: int, ms: seq<Membership>, days: nat, now: int)
    ensures US.Breakdown(p.(trustScore := score), ms, days, now) == US.Breakdown(p, ms, days, now)
  {
  }

  lemma SamePenalty(total: int, p: Profile, score: int)
    ensures US.Penalized(total, p.(trustScore := score)) == US.Penalized(total, p)
  {
  }

  /** A computed score depends on records, activity and the rest of the profile only. */
  lemma SameScore(db: FraudDb, after: FraudDb, u: int, now: int)
    requires after.memberships == db.memberships && after.activity == db.activity
    requires if u in db.profiles then u in after.profiles && after.profiles[u] == db.profiles[u].(trustScore := after.profiles[u].trustScore)
             else u !in after.profiles
    ensures US.UserScore(after, u, now) == US.UserScore(db, u, now)
  {
    if u in db.profiles {
      var p, q := db.profiles[u], after.profiles[u];
      SameBreakdown(p, q.trustScore, US.Recent(db, u, now), ActivityDays(db, u, now - 30 * DAY), now);
      assert US.UserBreakdown(after, u, now) == US.UserBreakdown(db, u, now);
      SamePenalty(Trunc(MinReal(US.Total(US.UserBreakdown(db, u, now)), 100.0)), p, q.trustScore);
    }
  }

  /** No user's computed score depends on a stored trust score. */
  lemma RecalcKeepsComputedScores(db: FraudDb, v: int, u: int, now: int)
    ensures US.UserScore(P.RecalcUserDb(db, v, now), u, now) == US.UserScore(db, u, now)
  {
    SameScore(db, P.RecalcUserDb(db, v, now), u, now);
  }

  predicate Fresh(db: FraudDb, u: int, now: int)
    requires u in db.profiles
  {
    db.profiles[u].trustScore == US.UserScore(db, u, now)
  }

  /** After a batch every visited user with a profile has a stored trust score equal to
      the score computed from the final store, which is the one computed before it. */
  lemma {:induction false} VisitedIsFresh(s: P.State, ids: seq<UserId>, now: int, u: UserId)
    requires s.clock <= now
    ensures var t := AfterVisits(s, ids, now).db;
      && t.profiles.Keys == s.db.profiles.Keys && US.UserScore(t, u, now) == US.UserScore(s.db, u, now)
      && (u in ids && u in s.db.profiles ==> Fresh(t, u, now))
  {
    if |ids| > 0 {
      var n := |ids| - 1;
      VisitedIsFresh(s, ids[..n], now, u);
      RecalcKeepsComputedScores(AfterVisits(s, ids[..n], now).db, ids[n], u, now);
      assert ids == ids[..n] + [ids[n]];
    }
  }

  /** A batch over an unchanging set of profiles leaves the stored score of every user
      with a positive id equal to the computed one. */
  lemma StaticBatchRefreshesAll(s: P.State, users: nat -> set<UserId>, now: int, u: UserId)
    requires s.clock <= now && u in s.db.profiles && u > 0
    requires forall j: nat :: users(j) == set v: UserId | v in s.db.profiles
    ensures var t := AfterVisits(s, Visits(users, 0, 0), now).db;
      u in t.profiles && Fresh(t, u, now)
  {
    PresentIsVisited(users, 0, 0, u);
    VisitedIsFresh(s, Visits(users, 0, 0), now, u);
  }
}
