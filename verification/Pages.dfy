/** The user query of the paginated recalculation (fraud-engine/internal/store/store.go:339-355)
    and the sequence of pages a batch reads. Other handlers may add or remove users
    between page queries: `users(k)` is the set of user ids when the k-th query runs. */
module Pages {
  import opened Seqs

  const MAX_ID: int := 0x7fff_ffff_ffff_ffff

  /** User ids are int64. */
  type UserId = x: int | -0x8000_0000_0000_0000 <= x <= 0x7fff_ffff_ffff_ffff

  const BATCH_SIZE: nat := 100

  predicate Ascending(s: seq<UserId>) {
    forall i, j :: 0 <= i < j < |s| ==> s[i] < s[j]
  }

  predicate Smallest(x: UserId, ids: set<UserId>) {
    x in ids && forall y :: y in ids ==> x <= y
  }

  lemma {:induction false} HasSmallest(ids: set<UserId>)
    requires ids != {}
    ensures exists x :: x in ids && Smallest(x, ids)
    decreases |ids|
  {
    var x :| x in ids;
    if ids == {x} {
      assert Smallest(x, ids);
    } else {
      HasSmallest(ids - {x});
      var z :| z in ids - {x} && Smallest(z, ids - {x});
      var least := if x < z then x else z;
      forall y | y in ids ensures least <= y {
        assert y == x || y in ids - {x};
      }
      assert Smallest(least, ids);
    }
  }

  /** The ids in ascending order. */
  function Enumerate(ids: set<UserId>): (s: seq<UserId>)
    ensures Ascending(s) && |s| == |ids|
    ensures forall x :: x in s <==> x in ids
  {
    if ids == {} then []
    else
      HasSmallest(ids);
      var x :| x in ids && Smallest(x, ids);
      [x] + Enumerate(ids - {x})
  }

  function Above(ids: set<UserId>, after: int): set<UserId> {
    set x | x in ids && x > after
  }

  /** The query `_id > after`, ascending, limited. */
  function Page(ids: set<UserId>, after: int, limit: nat): seq<UserId> {
    var all := Enumerate(Above(ids, after));
    if |all| <= limit then all else all[..limit]
  }

  lemma EnumerateSmallest(ids: set<UserId>, x: UserId)
    requires Smallest(x, ids)
    ensures Enumerate(ids) == [x] + Enumerate(ids - {x})
  {
  }

  /** What a page is: ascending ids above the cursor, at most `limit`, and an id is left
      out only behind a full page of smaller ones. */
  ghost predicate IsPage(page: seq<UserId>, ids: set<UserId>, after: int, limit: nat) {
    && Ascending(page) && |page| <= limit
    && (forall x :: x in page ==> x in ids && x > after)
    && (forall x :: x in ids && x > after && x !in page ==> |page| == limit && forall y :: y in page ==> y < x)
  }

  lemma PageFacts(ids: set<UserId>, after: int, limit: nat)
    ensures IsPage(Page(ids, after, limit), ids, after, limit)
  {
    var all, page := Enumerate(Above(ids, after)), Page(ids, after, limit);
    assert forall j :: 0 <= j < |page| ==> page[j] == all[j];
    forall x | x in page ensures x in ids && x > after {
      assert x in all;
    }
    forall x | x in ids && x > after && x !in page ensures |page| == limit && forall y :: y in page ==> y < x {
      assert x in all;
      var i :| 0 <= i < |all| && all[i] == x;
    }
  }

  /** The first `limit` elements, from a prefix that is full or all there is. */
  lemma FullPrefix(page: seq<UserId>, tail: seq<UserId>, limit: nat)
    requires |page| <= limit && (|page| == limit || tail == [])
    ensures page == if |page + tail| <= limit then page + tail else (page + tail)[..limit]
  {
    if |page| == limit {
      assert (page + tail)[..limit] == page;
    }
  }

  /** Taking the smallest id off the rest goes on with the enumeration. */
  lemma TakeSmallest(all: seq<UserId>, page: seq<UserId>, rest: set<UserId>, x: UserId)
    requires all == page + Enumerate(rest) && Smallest(x, rest)
    ensures all == page + [x] + Enumerate(rest - {x})
  {
    EnumerateSmallest(rest, x);
    ConcatAssoc(page, [x], Enumerate(rest - {x}));
  }

  /** The query's sort and limit, one id at a time. */
  method FirstIds(ids: set<UserId>, limit: nat) returns (page: seq<UserId>)
    ensures page == if |ids| <= limit then Enumerate(ids) else Enumerate(ids)[..limit]
  {
    page := [];
    var rest := ids;
    while |page| < limit && rest != {}
      invariant |page| <= limit && Enumerate(ids) == page + Enumerate(rest)
      decreases rest
    {
      HasSmallest(rest);
      var x :| x in rest && Smallest(x, rest);
      TakeSmallest(Enumerate(ids), page, rest, x);
      page := page + [x];
      rest := rest - {x};
    }
    FullPrefix(page, Enumerate(rest), limit);
  }

  method ListUsersForRecalc(ids: set<UserId>, after: int, limit: nat) returns (page: seq<UserId>)
    ensures IsPage(page, ids, after, limit)
    ensures page == Page(ids, after, limit)
  {
    page := FirstIds(Above(ids, after), limit);
    PageFacts(ids, after, limit);
  }

  /** The visits of a batch that is neither cancelled nor stopped by the store. */
  function Visits(users: nat -> set<UserId>, k: nat, after: int): seq<UserId>
    requires after <= MAX_ID
    decreases MAX_ID - after
  {
    var page := Page(users(k), after, BATCH_SIZE);
    if |page| < BATCH_SIZE then page
    else
      assert page[|page| - 1] in Above(users(k), after);
      page + Visits(users, k + 1, page[|page| - 1])
  }

  /** The number of page queries such a batch makes. */
  function Queries(users: nat -> set<UserId>, k: nat, after: int): nat
    requires after <= MAX_ID
    decreases MAX_ID - after
  {
    var page := Page(users(k), after, BATCH_SIZE);
    if |page| < BATCH_SIZE then 1
    else
      assert page[|page| - 1] in Above(users(k), after);
      1 + Queries(users, k + 1, page[|page| - 1])
  }

  /** What is still to visit and to query splits into the page at hand and those behind. */
  lemma VisitsStep(users: nat -> set<UserId>, k: nat, after: int)
    requires after <= MAX_ID
    ensures var page := Page(users(k), after, BATCH_SIZE);
      && page <= Visits(users, k, after)
      && (|page| < BATCH_SIZE ==> Visits(users, k, after) == page && Queries(users, k, after) == 1)
      && (|page| >= BATCH_SIZE ==>
            && after < page[|page| - 1] <= MAX_ID
            && Visits(users, k, after) == page + Visits(users, k + 1, page[|page| - 1])
            && Queries(users, k, after) == 1 + Queries(users, k + 1, page[|page| - 1]))
  {
    PageFacts(users(k), after, BATCH_SIZE);
  }

  // ---- what the visits are --------------------------------------------------------

  lemma AscendingConcat(s: seq<UserId>, t: seq<UserId>, last: UserId)
    requires Ascending(s) && Ascending(t)
    requires (forall x :: x in s ==> x <= last) && (forall x :: x in t ==> x > last)
    ensures Ascending(s + t)
  {
    forall i, j | 0 <= i < j < |s + t| ensures (s + t)[i] < (s + t)[j] {
      if i < |s| <= j {
        assert s[i] in s && t[j - |s|] in t;
      }
    }
  }

  lemma LastIsLargest(s: seq<UserId>)
    requires Ascending(s) && |s| > 0
    ensures s[|s| - 1] in s && forall x :: x in s ==> x <= s[|s| - 1]
  {
  }

  /** Ids are visited in strictly ascending order, so never twice, and are positive. */
  lemma {:induction false} VisitsAscend(users: nat -> set<UserId>, k: nat, after: int)
    requires after <= MAX_ID
    ensures Ascending(Visits(users, k, after))
    ensures forall x :: x in Visits(users, k, after) ==> x > after
    decreases MAX_ID - after
  {
    var page := Page(users(k), after, BATCH_SIZE);
    PageFacts(users(k), after, BATCH_SIZE);
    if |page| == BATCH_SIZE {
      var last := page[|page| - 1];
      LastIsLargest(page);
      VisitsAscend(users, k + 1, last);
      AscendingConcat(page, Visits(users, k + 1, last), last);
    }
  }

  /** An id above the cursor is on the page or beyond a full one. */
  lemma OnPageOrBeyond(ids: set<UserId>, after: int, id: UserId)
    requires id in ids && id > after && id !in Page(ids, after, BATCH_SIZE)
    ensures var page := Page(ids, after, BATCH_SIZE); |page| == BATCH_SIZE && page[|page| - 1] < id
  {
    PageFacts(ids, after, BATCH_SIZE);
    var page := Page(ids, after, BATCH_SIZE);
    assert page[|page| - 1] in page;
  }

  /** What a full page leaves to do. */
  lemma Beyond(users: nat -> set<UserId>, k: nat, after: int, last: UserId)
    requires after <= MAX_ID && |Page(users(k), after, BATCH_SIZE)| >= BATCH_SIZE
    requires last == Page(users(k), after, BATCH_SIZE)[|Page(users(k), after, BATCH_SIZE)| - 1]
    ensures after < last
    ensures Visits(users, k, after) == Page(users(k), after, BATCH_SIZE) + Visits(users, k + 1, last)
    ensures Queries(users, k, after) == 1 + Queries(users, k + 1, last)
  {
    VisitsStep(users, k, after);
  }

  predicate PresentFor(users: nat -> set<UserId>, k: nat, n: nat, id: UserId) {
    forall j: nat :: k <= j < k + n ==> id in users(j)
  }

  lemma PresentNext(users: nat -> set<UserId>, k: nat, n: nat, id: UserId)
    requires PresentFor(users, k, n + 1, id)
    ensures id in users(k) && PresentFor(users, k + 1, n, id)
  {
  }

  lemma InPrefix(page: seq<UserId>, all: seq<UserId>, id: UserId)
    requires page <= all && id in page
    ensures id in all
  {
  }

  lemma QueriesPositive(users: nat -> set<UserId>, k: nat, after: int)
    requires after <= MAX_ID
    ensures Queries(users, k, after) >= 1
  {
  }

  lemma OnThisPage(users: nat -> set<UserId>, k: nat, after: int, id: UserId)
    requires after <= MAX_ID && id in Page(users(k), after, BATCH_SIZE)
    ensures id in Visits(users, k, after)
  {
    VisitsStep(users, k, after);
    InPrefix(Page(users(k), after, BATCH_SIZE), Visits(users, k, after), id);
  }

  /** An id the page at hand leaves out is behind its last id, and still present. */
  lemma LeftForLater(users: nat -> set<UserId>, k: nat, after: int, id: UserId) returns (last: UserId)
    requires after <= MAX_ID && id > after && id !in Page(users(k), after, BATCH_SIZE)
    requires PresentFor(users, k, Queries(users, k, after), id)
    ensures after < last < id && PresentFor(users, k + 1, Queries(users, k + 1, last), id)
    ensures Visits(users, k, after) == Page(users(k), after, BATCH_SIZE) + Visits(users, k + 1, last)
  {
    QueriesPositive(users, k, after);
    PresentNext(users, k, Queries(users, k, after) - 1, id);
    OnPageOrBeyond(users(k), after, id);
    var page := Page(users(k), after, BATCH_SIZE);
    last := page[|page| - 1];
    Beyond(users, k, after, last);
  }

  /** Visited now, or a matter of the pages behind `last`. */
  lemma NowOrLater(users: nat -> set<UserId>, k: nat, after: int, id: UserId) returns (now: bool, last: UserId)
    requires after <= MAX_ID && id > after
    requires PresentFor(users, k, Queries(users, k, after), id)
    ensures now ==> id in Visits(users, k, after)
    ensures !now ==>
      && after < last < id && PresentFor(users, k + 1, Queries(users, k + 1, last), id)
      && (id in Visits(users, k + 1, last) ==> id in Visits(users, k, after))
  {
    now, last := id in Page(users(k), after, BATCH_SIZE), id;
    if now {
      OnThisPage(users, k, after, id);
    } else {
      last := LeftForLater(users, k, after, id);
    }
  }

  /** Every id above the cursor that is present at each query the batch makes is visited. */
  lemma {:induction false} PresentIsVisited(users: nat -> set<UserId>, k: nat, after: int, id: UserId)
    requires after <= MAX_ID && id > after
    requires PresentFor(users, k, Queries(users, k, after), id)
    ensures id in Visits(users, k, after)
    decreases MAX_ID - after
  {
    var now, last := NowOrLater(users, k, after, id);
    if !now {
      PresentIsVisited(users, k + 1, last, id);
    }
  }

  /** Nobody is visited who was absent from every query. */
  lemma {:induction false} VisitedWasPresent(users: nat -> set<UserId>, k: nat, after: int, id: UserId)
    requires after <= MAX_ID && id in Visits(users, k, after)
    ensures exists j: nat :: k <= j < k + Queries(users, k, after) && id in users(j)
    decreases MAX_ID - after
  {
    var page := Page(users(k), after, BATCH_SIZE);
    PageFacts(users(k), after, BATCH_SIZE);
    if id in page {
      assert id in users(k);
    } else {
      assert page[|page| - 1] in page;
      VisitedWasPresent(users, k + 1, page[|page| - 1], id);
    }
  }

  lemma {:induction false} AscendingUnique(s: seq<UserId>, t: seq<UserId>)
    requires Ascending(s) && Ascending(t) && forall x :: x in s <==> x in t
    ensures s == t
  {
    assert |t| > 0 ==> t[0] in s;
    if |s| > 0 {
      assert s[0] in t && t[0] in s;
      var i :| 0 <= i < |t| && t[i] == s[0];
      var j :| 0 <= j < |s| && s[j] == t[0];
      assert s[0] == t[0];
      forall x ensures x in s[1..] <==> x in t[1..] {
        assert x in s[1..] <==> x in s && x != s[0];
        assert x in t[1..] <==> x in t && x != t[0];
      }
      AscendingUnique(s[1..], t[1..]);
    }
  }

  /** On a user set that does not change the batch visits exactly the positive ids,
      in order. */
  lemma StaticSetIsVisitedExactly(users: nat -> set<UserId>, ids: set<UserId>)
    requires forall j: nat :: users(j) == ids
    ensures Visits(users, 0, 0) == Enumerate(Above(ids, 0))
  {
    VisitsAscend(users, 0, 0);
    forall x: UserId ensures x in Visits(users, 0, 0) <==> x in Above(ids, 0) {
      if x in Visits(users, 0, 0) {
        VisitedWasPresent(users, 0, 0, x);
      }
      if x in Above(ids, 0) {
        PresentIsVisited(users, 0, 0, x);
      }
    }
    AscendingUnique(Visits(users, 0, 0), Enumerate(Above(ids, 0)));
  }

  lemma LastOrHundred(users: nat -> set<UserId>, k: nat, after: int) returns (done: bool, last: UserId)
    requires after <= MAX_ID
    ensures done ==> Queries(users, k, after) == 1 && |Visits(users, k, after)| < 100
    ensures !done ==>
      && after < last && Queries(users, k, after) == 1 + Queries(users, k + 1, last)
      && |Visits(users, k, after)| == 100 + |Visits(users, k + 1, last)|
  {
    var page := Page(users(k), after, BATCH_SIZE);
    PageFacts(users(k), after, BATCH_SIZE);
    VisitsStep(users, k, after);
    done, last := |page| < 100, 0;
    if !done {
      last := page[|page| - 1];
    }
  }

  /** Whatever the user set does between the queries: every page but the last brings a
      hundred users and the last fewer. */
  lemma {:induction false} HundredAPage(users: nat -> set<UserId>, k: nat, after: int)
    requires after <= MAX_ID
    ensures 100 * (Queries(users, k, after) - 1) <= |Visits(users, k, after)| < 100 * Queries(users, k, after)
    decreases MAX_ID - after
  {
    var done, last := LastOrHundred(users, k, after);
    if !done {
      HundredAPage(users, k + 1, last);
    }
  }
}
