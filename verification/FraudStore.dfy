/** The document store of the fraud engine (fraud-engine/internal/store/store.go).
    `FraudDb` is its content as a value and each function below is one store call
    on it; the class performs the same calls in place, one collection at a time. */
module FraudStore {
  import opened Seqs
  import opened FraudModels

  datatype FraudDb = FraudDb(
    profiles: map<int, Profile>,
    stats: map<int, Stats>,
    memberships: seq<Membership>,
    activity: map<(int, int, int), ActivityDay>,
    userScores: seq<UserSnapshot>,
    communityScores: seq<CommunitySnapshot>,
    fraudEvents: seq<FraudEvent>)

  const EMPTY := FraudDb(map[], map[], [], map[], [], [], [])

  // ---- single store calls -------------------------------------------------

  /** `$inc total_joins` without upsert: a user without profile is not touched. */
  function IncUserJoins(db: FraudDb, u: int): FraudDb {
    if u in db.profiles then
      var p := db.profiles[u];
      db.(profiles := db.profiles[u := p.(totalJoins := p.totalJoins + 1)])
    else db
  }

  function IncUserLeaves(db: FraudDb, u: int): FraudDb {
    if u in db.profiles then
      var p := db.profiles[u];
      db.(profiles := db.profiles[u := p.(totalLeaves := p.totalLeaves + 1)])
    else db
  }

  /** Upserting `$inc total_joins, member_count`: creates the document on first use. */
  function CountJoin(stats: map<int, Stats>, c: int): map<int, Stats> {
    var st := if c in stats then stats[c] else Stats(0, 0, 0, 0);
    stats[c := st.AfterJoin()]
  }

  /** `$inc total_leaves, member_count: -1` without upsert. */
  function CountLeave(stats: map<int, Stats>, c: int): map<int, Stats> {
    if c in stats then stats[c := stats[c].AfterLeave()] else stats
  }

  function InsertMembership(db: FraudDb, u: int, c: int, joinedAt: int, rejoin: nat): FraudDb {
    db.(memberships := db.memberships + [Membership(u, c, joinedAt, None, -1, rejoin)])
  }

  predicate OpenAt(ms: seq<Membership>, u: int, c: int, i: int) {
    0 <= i < |ms| && IsKey(ms[i], u, c) && IsOpen(ms[i])
  }

  /** Record `i` may be what the query for the latest open membership returns. */
  predicate LatestOpen(ms: seq<Membership>, u: int, c: int, i: int) {
    && OpenAt(ms, u, c, i)
    && forall j :: 0 <= j < |ms| && OpenAt(ms, u, c, j) ==> ms[j].joinedAt <= ms[i].joinedAt
  }

  /** `$set left_at, duration_sec` on record `i`. */
  function CloseAt(ms: seq<Membership>, i: int, now: int, duration: int): seq<Membership>
    requires 0 <= i < |ms|
  {
    ms[i := ms[i].(leftAt := Some(now), durationSec := duration)]
  }

  lemma {:induction false} LatestOpenExists(ms: seq<Membership>, u: int, c: int, i: int)
    requires OpenAt(ms, u, c, i)
    ensures exists m :: 0 <= m < |ms| && LatestOpen(ms, u, c, m)
    decreases |ms|
  {
    var n := |ms| - 1;
    var head := ms[..n];
    if j :| 0 <= j < n && OpenAt(ms, u, c, j) {
      assert OpenAt(head, u, c, j);
      LatestOpenExists(head, u, c, j);
      var m :| 0 <= m < |head| && LatestOpen(head, u, c, m);
      assert forall k :: 0 <= k < n && OpenAt(ms, u, c, k) ==> OpenAt(head, u, c, k);
      if OpenAt(ms, u, c, n) && ms[n].joinedAt > ms[m].joinedAt {
        assert LatestOpen(ms, u, c, n);
      } else {
        assert LatestOpen(ms, u, c, m);
      }
    } else {
      assert i == n && LatestOpen(ms, u, c, n);
    }
  }

  /** What a leave found: nothing open, or a measured record (the one the query
      returned) and a closed one (the one the update matched: any open record). */
  datatype LeaveChoice = NothingOpen | Picked(measured: int, closed: int)

  predicate ValidChoice(ms: seq<Membership>, u: int, c: int, choice: LeaveChoice) {
    match choice
    case NothingOpen => forall i :: 0 <= i < |ms| ==> !OpenAt(ms, u, c, i)
    case Picked(m, i) => LatestOpen(ms, u, c, m) && OpenAt(ms, u, c, i)
  }

  function CloseChosen(ms: seq<Membership>, u: int, c: int, now: int, choice: LeaveChoice): seq<Membership>
    requires ValidChoice(ms, u, c, choice)
  {
    match choice
    case NothingOpen => ms
    case Picked(m, i) => CloseAt(ms, i, now, WholeSeconds(now - ms[m].joinedAt))
  }

  // ---- whole operations, run without interference -------------------------

  function JoinDb(db: FraudDb, u: int, c: int, now: int): FraudDb {
    var rejoin := Count(db.memberships, OfKey(u, c));
    InsertMembership(IncUserJoins(db, u).(stats := CountJoin(db.stats, c)), u, c, now, rejoin)
  }

  function LeaveDb(db: FraudDb, u: int, c: int, now: int, choice: LeaveChoice): FraudDb
    requires ValidChoice(db.memberships, u, c, choice)
  {
    IncUserLeaves(db, u).(
      memberships := CloseChosen(db.memberships, u, c, now, choice),
      stats := CountLeave(db.stats, c))
  }

  function ActivityDb(db: FraudDb, u: int, c: int, messages: int, replies: int, reactions: int, now: int): FraudDb {
    var key := (u, c, now / DAY);
    var a := if key in db.activity then db.activity[key] else ActivityDay(0, 0, 0, now);
    db.(activity := db.activity[key :=
      ActivityDay(a.messages + messages, a.replies + replies, a.reactions + reactions, now)])
  }

  /** Number of activity documents of the user touched since an instant. */
  function ActivityDays(db: FraudDb, u: int, since: int): nat { RowsSince(db.activity, u, since) }

  function RowsSince(activity: map<(int, int, int), ActivityDay>, u: int, since: int): nat {
    |set k | k in activity && k.0 == u && activity[k].updatedAt >= since|
  }

  /** Trust scores of the members of a community: one per open membership whose
      user has a profile. */
  function MemberTrust(ms: seq<Membership>, profiles: map<int, Profile>, c: int): seq<int> {
    if |ms| == 0 then []
    else
      var m := ms[|ms| - 1];
      MemberTrust(ms[..|ms| - 1], profiles, c)
      + (if m.communityId == c && IsOpen(m) && m.userId in profiles then [profiles[m.userId].trustScore] else [])
  }

  function AsReal(): int -> real { (x: int) => x as real }

  function AvgTrust(db: FraudDb, c: int): real {
    var scores := MemberTrust(db.memberships, db.profiles, c);
    if |scores| == 0 then 50.0 else Sum(scores, AsReal()) / |scores| as real
  }

  function TrustScoreDb(db: FraudDb, u: int, score: int, breakdown: ScoreBreakdown, now: int): FraudDb {
    var profiles :=
      if u in db.profiles then db.profiles[u := db.profiles[u].(trustScore := score)] else db.profiles;
    db.(profiles := profiles, userScores := db.userScores + [UserSnapshot(u, score, breakdown, now)])
  }

  function CommunityScoreDb(db: FraudDb, c: int, score: int, breakdown: CommunityBreakdown, now: int): FraudDb {
    db.(communityScores := db.communityScores
      + [CommunitySnapshot(c, score, breakdown, now, CommunityRevenueStatus(score))])
  }

  /** A profile write either replaces the document or, when the store rejects the
      update, changes nothing. */
  function UpsertProfileDb(db: FraudDb, u: int, p: Profile, applied: bool): FraudDb {
    if applied then db.(profiles := db.profiles[u := p]) else db
  }

  /** Snapshot `k` may be what the query for the latest community score returns. */
  predicate LatestSnapshot(snaps: seq<CommunitySnapshot>, c: int, k: int) {
    && 0 <= k < |snaps| && snaps[k].communityId == c
    && forall j :: 0 <= j < |snaps| && snaps[j].communityId == c ==> snaps[j].calculatedAt <= snaps[k].calculatedAt
  }

  /** What the query for the latest community score may return: no snapshot, when there
      is none, or one of the latest. */
  predicate LatestAnswer(snaps: seq<CommunitySnapshot>, c: int, pick: Option<int>) {
    match pick
    case None => forall i :: 0 <= i < |snaps| ==> snaps[i].communityId != c
    case Some(k) => LatestSnapshot(snaps, c, k)
  }

  lemma {:induction false} LatestSnapshotExists(snaps: seq<CommunitySnapshot>, c: int, i: int)
    requires 0 <= i < |snaps| && snaps[i].communityId == c
    ensures exists k :: 0 <= k < |snaps| && LatestSnapshot(snaps, c, k)
    decreases |snaps|
  {
    var n := |snaps| - 1;
    var head := snaps[..n];
    if j :| 0 <= j < n && snaps[j].communityId == c {
      assert head[j].communityId == c;
      LatestSnapshotExists(head, c, j);
      var k :| 0 <= k < |head| && LatestSnapshot(head, c, k);
      assert forall l :: 0 <= l < n && snaps[l].communityId == c ==> head[l].calculatedAt <= head[k].calculatedAt;
      if snaps[n].communityId == c && snaps[n].calculatedAt > snaps[k].calculatedAt {
        assert LatestSnapshot(snaps, c, n);
      } else {
        assert LatestSnapshot(snaps, c, k);
      }
    } else {
      assert i == n && LatestSnapshot(snaps, c, n);
    }
  }

  predicate LatestFirst(s: seq<Membership>) {
    forall i, j :: 0 <= i < j < |s| ==> s[i].joinedAt >= s[j].joinedAt
  }

  /** `s` with `m` put behind the records that joined no earlier. */
  function InsertByJoin(s: seq<Membership>, m: Membership): seq<Membership> {
    if |s| == 0 || s[|s| - 1].joinedAt >= m.joinedAt then s + [m]
    else InsertByJoin(s[..|s| - 1], m) + [s[|s| - 1]]
  }

  lemma {:induction false} InsertPermutes(s: seq<Membership>, m: Membership)
    ensures multiset(InsertByJoin(s, m)) == multiset(s) + multiset{m}
  {
    if !(|s| == 0 || s[|s| - 1].joinedAt >= m.joinedAt) {
      InsertPermutes(s[..|s| - 1], m);
      assert s == s[..|s| - 1] + [s[|s| - 1]];
    }
  }

  predicate AtLeast(s: seq<Membership>, bound: int) {
    forall i :: 0 <= i < |s| ==> s[i].joinedAt >= bound
  }

  lemma {:induction false} InsertKeepsBound(s: seq<Membership>, m: Membership, bound: int)
    requires AtLeast(s, bound) && m.joinedAt >= bound
    ensures AtLeast(InsertByJoin(s, m), bound)
  {
    if !(|s| == 0 || s[|s| - 1].joinedAt >= m.joinedAt) {
      InsertKeepsBound(s[..|s| - 1], m, bound);
    }
  }

  lemma {:induction false} InsertKeepsOrder(s: seq<Membership>, m: Membership)
    requires LatestFirst(s)
    ensures LatestFirst(InsertByJoin(s, m))
  {
    if !(|s| == 0 || s[|s| - 1].joinedAt >= m.joinedAt) {
      var n := |s| - 1;
      InsertKeepsOrder(s[..n], m);
      InsertKeepsBound(s[..n], m, s[n].joinedAt);
    }
  }

  /** The order a history query asks for. */
  function SortByJoin(s: seq<Membership>): (r: seq<Membership>)
    ensures LatestFirst(r) && multiset(r) == multiset(s)
  {
    if |s| == 0 then []
    else
      var head := SortByJoin(s[..|s| - 1]);
      InsertPermutes(head, s[|s| - 1]);
      InsertKeepsOrder(head, s[|s| - 1]);
      assert s == s[..|s| - 1] + [s[|s| - 1]];
      InsertByJoin(head, s[|s| - 1])
  }

  // ---- the store ----------------------------------------------------------

  class Store {
    var profiles: map<int, Profile>
    var stats: map<int, Stats>
    var memberships: seq<Membership>
    var activity: map<(int, int, int), ActivityDay>
    var userScores: seq<UserSnapshot>
    var communityScores: seq<CommunitySnapshot>
    var fraudEvents: seq<FraudEvent>

    ghost function Db(): FraudDb
      reads this
    {
      FraudDb(profiles, stats, memberships, activity, userScores, communityScores, fraudEvents)
    }

    constructor ()
      ensures Db() == EMPTY
    {
      profiles, stats, memberships, activity := map[], map[], [], map[];
      userScores, communityScores, fraudEvents := [], [], [];
    }

    method RecordJoin(u: int, c: int, now: int)
      modifies this
      ensures Db() == JoinDb(old(Db()), u, c, now)
    {
      var count := Count(memberships, OfKey(u, c));
      if u in profiles {
        profiles := profiles[u := profiles[u].(totalJoins := profiles[u].totalJoins + 1)];
      }
      var st := if c in stats then stats[c] else Stats(0, 0, 0, 0);
      stats := stats[c := st.(totalJoins := st.totalJoins + 1, memberCount := st.memberCount + 1)];
      memberships := memberships + [Membership(u, c, now, None, -1, count)];
    }

    method RecordLeave(u: int, c: int, now: int) returns (ghost choice: LeaveChoice)
      modifies this
      ensures ValidChoice(old(memberships), u, c, choice)
      ensures Db() == LeaveDb(old(Db()), u, c, now, choice)
    {
      choice := NothingOpen;
      if m :| 0 <= m < |memberships| && LatestOpen(memberships, u, c, m) {
        var duration := WholeSeconds(now - memberships[m].joinedAt);
        var i :| 0 <= i < |memberships| && OpenAt(memberships, u, c, i);
        choice := Picked(m, i);
        memberships := memberships[i := memberships[i].(leftAt := Some(now), durationSec := duration)];
      } else {
        forall i | 0 <= i < |memberships|
          ensures !OpenAt(memberships, u, c, i)
        {
          if OpenAt(memberships, u, c, i) {
            LatestOpenExists(memberships, u, c, i);
          }
        }
      }
      if u in profiles {
        profiles := profiles[u := profiles[u].(totalLeaves := profiles[u].totalLeaves + 1)];
      }
      if c in stats {
        stats := stats[c := stats[c].(totalLeaves := stats[c].totalLeaves + 1, memberCount := stats[c].memberCount - 1)];
      }
    }

    method GetProfile(u: int) returns (p: Option<Profile>)
      ensures p == if u in profiles then Some(profiles[u]) else None
    {
      p := if u in profiles then Some(profiles[u]) else None;
    }

    method GetRecentMemberships(u: int, since: int) returns (list: seq<Membership>)
      ensures list == Filter(memberships, JoinedSince(u, since))
    {
      list := Filter(memberships, JoinedSince(u, since));
    }

    method GetMembershipHistory(u: int, c: int) returns (list: seq<Membership>)
      ensures LatestFirst(list)
      ensures multiset(list) == multiset(Filter(memberships, OfKey(u, c)))
    {
      list := SortByJoin(Filter(memberships, OfKey(u, c)));
    }

    method GetActivityDays(u: int, since: int) returns (count: nat)
      ensures count == ActivityDays(Db(), u, since)
    {
      count := |set k | k in activity && k.0 == u && activity[k].updatedAt >= since|;
    }

    method GetCommunityStats(c: int) returns (st: Option<Stats>)
      ensures st == if c in stats then Some(stats[c]) else None
    {
      st := if c in stats then Some(stats[c]) else None;
    }

    method GetLatestCommunityScore(c: int) returns (snap: Option<CommunitySnapshot>, ghost pick: Option<int>)
      ensures LatestAnswer(communityScores, c, pick)
      ensures snap == if pick.Some? then Some(communityScores[pick.value]) else None
    {
      snap, pick := None, None;
      if k :| 0 <= k < |communityScores| && LatestSnapshot(communityScores, c, k) {
        snap, pick := Some(communityScores[k]), Some(k);
      } else {
        forall i | 0 <= i < |communityScores| ensures communityScores[i].communityId != c {
          if communityScores[i].communityId == c {
            LatestSnapshotExists(communityScores, c, i);
          }
        }
      }
    }

    method GetAvgTrustScore(c: int) returns (avg: real)
      ensures avg == AvgTrust(Db(), c)
    {
      var scores := MemberTrust(memberships, profiles, c);
      avg := if |scores| == 0 then 50.0 else Sum(scores, AsReal()) / |scores| as real;
    }

    method RecordActivity(u: int, c: int, messages: int, replies: int, reactions: int, now: int)
      modifies this
      ensures Db() == ActivityDb(old(Db()), u, c, messages, replies, reactions, now)
    {
      var key := (u, c, now / DAY);
      var a := if key in activity then activity[key] else ActivityDay(0, 0, 0, now);
      activity := activity[key :=
        ActivityDay(a.messages + messages, a.replies + replies, a.reactions + reactions, now)];
    }

    method UpsertProfile(u: int, p: Profile, applied: bool)
      modifies this
      ensures Db() == UpsertProfileDb(old(Db()), u, p, applied)
    {
      if applied {
        profiles := profiles[u := p];
      }
    }

    method UpdateTrustScore(u: int, score: int, breakdown: ScoreBreakdown, now: int)
      modifies this
      ensures Db() == TrustScoreDb(old(Db()), u, score, breakdown, now)
    {
      if u in profiles {
        profiles := profiles[u := profiles[u].(trustScore := score)];
      }
      userScores := userScores + [UserSnapshot(u, score, breakdown, now)];
    }

    method UpdateCommunityScore(c: int, score: int, breakdown: CommunityBreakdown, now: int)
      modifies this
      ensures Db() == CommunityScoreDb(old(Db()), c, score, breakdown, now)
    {
      communityScores := communityScores + [CommunitySnapshot(c, score, breakdown, now, CommunityRevenueStatus(score))];
    }

    method RecordFraudEvent(e: FraudEvent)
      modifies this
      ensures Db() == old(Db()).(fraudEvents := old(fraudEvents) + [e])
    {
      fraudEvents := fraudEvents + [e];
    }
  }
}
