/** The transaction pager: filter, newest-first stable order, offset and cap. */
module Pager {
  import opened Types

  datatype Transaction = Transaction(identity: nat, incoming: bool, createdAt: nat, succeeded: bool)

  datatype Query = Query(
    from: Option<nat>, until: Option<nat>, limit: nat, offset: nat, incoming: Option<bool>, includeUnpaid: bool)

  predicate TransactionMatches(t: Transaction, q: Query) {
    && (q.from.None? || q.from.value <= t.createdAt)
    && (q.until.None? || t.createdAt <= q.until.value)
    && (q.incoming.None? || q.incoming.value == t.incoming)
    && (q.includeUnpaid || t.succeeded)
  }

  /** The matching transactions in the wallet's own order. */
  function Matching(all: seq<Transaction>, q: Query): seq<Transaction> {
    if all == [] then []
    else
      var last := all[|all| - 1];
      Matching(all[..|all| - 1], q) + (if TransactionMatches(last, q) then [last] else [])
  }

  /** A transaction is shown if it lies between the bounds, in the wanted direction, and paid unless all are wanted. */
  lemma {:induction false} MatchingExactly(all: seq<Transaction>, q: Query, t: Transaction)
    ensures t in Matching(all, q) <==>
              && t in all
              && (q.from.Some? ==> t.createdAt >= q.from.value) && (q.until.Some? ==> t.createdAt <= q.until.value)
              && (q.incoming.Some? ==> t.incoming == q.incoming.value) && (t.succeeded || q.includeUnpaid)
    decreases |all|
  {
    if all != [] {
      MatchingExactly(all[..|all| - 1], q, t);
      assert all == all[..|all| - 1] + [all[|all| - 1]];
    }
  }

  /** The matching transactions keep the order of the wallet's list. */
  lemma {:induction false} MatchingKeepsOrder(a: seq<Transaction>, b: seq<Transaction>, q: Query)
    ensures Matching(a + b, q) == Matching(a, q) + Matching(b, q)
    decreases |b|
  {
    if b == [] {
      assert a + b == a;
    } else {
      assert (a + b)[..|a + b| - 1] == a + b[..|b| - 1];
      MatchingKeepsOrder(a, b[..|b| - 1], q);
    }
  }

  predicate NewestFirst(s: seq<Transaction>) {
    forall i, j :: 0 <= i < j < |s| ==> s[i].createdAt >= s[j].createdAt
  }

  /** The transactions of one creation time, in order. */
  function AtTime(s: seq<Transaction>, time: nat): seq<Transaction> {
    if s == [] then []
    else
      var last := s[|s| - 1];
      AtTime(s[..|s| - 1], time) + (if last.createdAt == time then [last] else [])
  }

  /** What a stable newest-first sort of a sequence is. */
  ghost predicate SortsStably(sorted: seq<Transaction>, s: seq<Transaction>) {
    NewestFirst(sorted) && |sorted| == |s| && forall time: nat :: AtTime(sorted, time) == AtTime(s, time)
  }

  lemma {:induction false} AtTimeAppends(a: seq<Transaction>, b: seq<Transaction>, time: nat)
    ensures AtTime(a + b, time) == AtTime(a, time) + AtTime(b, time)
    decreases |b|
  {
    if b == [] {
      assert a + b == a;
    } else {
      assert (a + b)[..|a + b| - 1] == a + b[..|b| - 1];
      AtTimeAppends(a, b[..|b| - 1], time);
    }
  }

  lemma {:induction false} AtTimeMembers(s: seq<Transaction>, t: Transaction)
    requires t in s
    ensures t in AtTime(s, t.createdAt)
    decreases |s|
  {
    if s[|s| - 1] != t {
      assert t in s[..|s| - 1];
      AtTimeMembers(s[..|s| - 1], t);
    }
  }

  /** Nothing of another time is listed. */
  lemma {:induction false} AtTimeOnly(s: seq<Transaction>, time: nat)
    ensures forall t <- AtTime(s, time) :: t.createdAt == time && t in s
    decreases |s|
  {
    if s != [] {
      AtTimeOnly(s[..|s| - 1], time);
    }
  }

  /** Order and stability leave no freedom: any two stable sorts of a sequence are equal. */
  lemma {:induction false} StableSortIsUnique(a: seq<Transaction>, b: seq<Transaction>, s: seq<Transaction>)
    requires SortsStably(a, s) && SortsStably(b, s)
    ensures a == b
  {
    SameTimesSameSequence(a, b);
  }

  /** Dropping the last transaction drops the last of its own time and nothing else. */
  lemma LastAtTime(s: seq<Transaction>, time: nat)
    requires s != []
    ensures var all, rest := AtTime(s, time), AtTime(s[..|s| - 1], time);
            if s[|s| - 1].createdAt == time then all != [] && all[|all| - 1] == s[|s| - 1] && rest == all[..|all| - 1]
            else rest == all
  {
  }

  lemma {:induction false} SameTimesSameSequence(a: seq<Transaction>, b: seq<Transaction>)
    requires NewestFirst(a) && NewestFirst(b) && |a| == |b|
    requires forall time: nat :: AtTime(a, time) == AtTime(b, time)
    ensures a == b
    decreases |a|
  {
    if a != [] {
      var x, y := a[|a| - 1], b[|b| - 1];
      OldestTimesAgree(a, b);
      LastAtTime(a, x.createdAt);
      LastAtTime(b, x.createdAt);
      assert x == y;
      var u, v := a[..|a| - 1], b[..|b| - 1];
      forall time: nat
        ensures AtTime(u, time) == AtTime(v, time)
      {
        LastAtTime(a, time);
        LastAtTime(b, time);
      }
      SameTimesSameSequence(u, v);
    }
  }

  /** The last of a newest-first sequence is as old as any. */
  lemma OldestTimesAgree(a: seq<Transaction>, b: seq<Transaction>)
    requires NewestFirst(a) && NewestFirst(b) && |a| == |b| > 0
    requires forall time: nat :: AtTime(a, time) == AtTime(b, time)
    ensures a[|a| - 1].createdAt == b[|b| - 1].createdAt
  {
    var x, y := a[|a| - 1], b[|b| - 1];
    assert AtTime(a, x.createdAt) == AtTime(b, x.createdAt) && AtTime(a, y.createdAt) == AtTime(b, y.createdAt);
    NotNewerThanLast(a, b, x);
    NotNewerThanLast(b, a, y);
  }

  lemma NotNewerThanLast(a: seq<Transaction>, b: seq<Transaction>, x: Transaction)
    requires x in a && NewestFirst(b) && |b| > 0 && AtTime(a, x.createdAt) == AtTime(b, x.createdAt)
    ensures x.createdAt >= b[|b| - 1].createdAt
  {
    AtTimeMembers(a, x);
    AtTimeOnly(b, x.createdAt);
    var k :| 0 <= k < |b| && b[k] == x;
  }

  // ---- The page ----

  /** The rows between an offset and its cap. */
  function Window(sorted: seq<Transaction>, offset: nat, limit: nat): seq<Transaction> {
    if offset >= |sorted| then []
    else if offset + limit >= |sorted| then sorted[offset..]
    else sorted[offset..offset + limit]
  }

  /** The rows from the offset on, as many as the limit allows. */
  lemma WindowExactly(sorted: seq<Transaction>, offset: nat, limit: nat)
    ensures |Window(sorted, offset, limit)|
            == if offset >= |sorted| then 0 else if |sorted| - offset <= limit then |sorted| - offset else limit
    ensures forall k :: 0 <= k < |Window(sorted, offset, limit)| ==> Window(sorted, offset, limit)[k] == sorted[offset + k]
  {
  }

  /** Collects, sorts and slices one page. */
  method PrepareTransactionPage(all: seq<Transaction>, q: Query) returns (page: seq<Transaction>)
    ensures exists sorted :: SortsStably(sorted, Matching(all, q))
    ensures forall sorted :: SortsStably(sorted, Matching(all, q)) ==> page == Window(sorted, q.offset, q.limit)
  {
    var rows: seq<Transaction> := [];
    var n := 0;
    while n < |all|
      invariant n <= |all|
      invariant SortsStably(rows, Matching(all[..n], q))
    {
      ghost var soFar := Matching(all[..n], q);
      assert all[..n + 1][..n] == all[..n] && soFar + [] == soFar;
      if TransactionMatches(all[n], q) {
        rows := InsertNewestFirst(rows, all[n], Matching(all[..n], q));
      }
      n := n + 1;
    }
    assert all[..n] == all;
    page := if q.offset >= |rows| then []
            else if q.offset + q.limit >= |rows| then rows[q.offset..]
            else rows[q.offset..q.offset + q.limit];
    forall sorted | SortsStably(sorted, Matching(all, q))
      ensures page == Window(sorted, q.offset, q.limit)
    {
      StableSortIsUnique(sorted, rows, Matching(all, q));
    }
  }

  /** Puts one more transaction behind every one that is not older. */
  method InsertNewestFirst(rows: seq<Transaction>, t: Transaction, ghost before: seq<Transaction>) returns (longer: seq<Transaction>)
    requires SortsStably(rows, before)
    ensures SortsStably(longer, before + [t])
  {
    var k := |rows|;
    while k > 0 && rows[k - 1].createdAt < t.createdAt
      invariant 0 <= k <= |rows|
      invariant forall j :: k <= j < |rows| ==> rows[j].createdAt < t.createdAt
    {
      k := k - 1;
    }
    longer := rows[..k] + [t] + rows[k..];
    InsertionIsStable(rows, k, t, before);
  }

  lemma InsertionIsStable(rows: seq<Transaction>, k: nat, t: Transaction, before: seq<Transaction>)
    requires SortsStably(rows, before) && k <= |rows|
    requires forall j :: k <= j < |rows| ==> rows[j].createdAt < t.createdAt
    requires k > 0 ==> rows[k - 1].createdAt >= t.createdAt
    ensures SortsStably(rows[..k] + [t] + rows[k..], before + [t])
  {
    assert rows == rows[..k] + rows[k..];
    forall time: nat
      ensures AtTime(rows[..k] + [t] + rows[k..], time) == AtTime(before + [t], time)
    {
      assert AtTime(rows, time) == AtTime(before, time);
      InsertedAtTime(rows[..k], t, rows[k..], before, time);
    }
  }

  lemma InsertedAtTime(newer: seq<Transaction>, t: Transaction, older: seq<Transaction>, before: seq<Transaction>, time: nat)
    requires forall u <- older :: u.createdAt != t.createdAt
    requires AtTime(newer + older, time) == AtTime(before, time)
    ensures AtTime(newer + [t] + older, time) == AtTime(before + [t], time)
  {
    AtTimeAppends(newer + [t], older, time);
    AtTimeAppends(newer, [t], time);
    AtTimeAppends(newer, older, time);
    AtTimeAppends(before, [t], time);
    if time == t.createdAt {
      NoneAtTime(older, time);
    } else {
      NoneAtTime([t], time);
    }
  }

  lemma {:induction false} NoneAtTime(s: seq<Transaction>, time: nat)
    requires forall t <- s :: t.createdAt != time
    ensures AtTime(s, time) == []
    decreases |s|
  {
    if s != [] {
      NoneAtTime(s[..|s| - 1], time);
    }
  }

  // ---- Pages together ----

  /** The first `pages` pages of one query, one after another. */
  function Pages(sorted: seq<Transaction>, limit: nat, pages: nat): seq<Transaction>
    decreases pages
  {
    if pages == 0 then [] else Pages(sorted, limit, pages - 1) + Window(sorted, (pages - 1) * limit, limit)
  }

  /**
   Reading page after page shows every matching transaction exactly once, newest first: the pages are
   the first rows of the one stable order, and enough pages are all of it.
   */
  lemma {:induction false} PagesCoverEverythingOnce(sorted: seq<Transaction>, limit: nat, pages: nat)
    ensures Pages(sorted, limit, pages) == Window(sorted, 0, pages * limit)
    ensures limit > 0 && pages * limit >= |sorted| ==> Pages(sorted, limit, pages) == sorted
    decreases pages
  {
    if pages > 0 {
      PagesCoverEverythingOnce(sorted, limit, pages - 1);
      assert pages * limit == (pages - 1) * limit + limit;
      WindowsJoin(sorted, (pages - 1) * limit, limit);
    }
  }

  lemma WindowsJoin(sorted: seq<Transaction>, offset: nat, limit: nat)
    ensures Window(sorted, 0, offset) + Window(sorted, offset, limit) == Window(sorted, 0, offset + limit)
  {
    if offset < |sorted| {
      assert Window(sorted, 0, offset) == sorted[..offset];
    }
  }
}
