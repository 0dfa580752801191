/**
 * Paging through a fixed table, newest first. The queries order by created_at alone, so the database may order rows
 * with equal timestamps differently in each query.
 */
module Pagination {

  datatype Row = Row(id: nat, createdAt: int)

  predicate NoRepeats(s: seq<Row>) {
    forall i, j | 0 <= i < j < |s| :: s[i] != s[j]
  }

  predicate NewestFirst(s: seq<Row>) {
    forall i, j | 0 <= i < j < |s| :: s[i].createdAt >= s[j].createdAt
  }

  function Elements(s: seq<Row>): set<Row> {
    set r | r in s
  }

  /** An order the query may deliver the table in. */
  predicate Ordering(rows: set<Row>, o: seq<Row>) {
    NoRepeats(o) && NewestFirst(o) && Elements(o) == rows && |o| == |rows|
  }

  function Min(a: nat, b: nat): nat {
    if a <= b then a else b
  }

  function Slice(o: seq<Row>, skip: nat, limit: nat): seq<Row> {
    o[Min(skip, |o|)..Min(skip + limit, |o|)]
  }

  /** ORDER BY created_at DESC OFFSET skip LIMIT limit. */
  ghost predicate IsPage(rows: set<Row>, skip: nat, limit: nat, page: seq<Row>) {
    exists o :: Ordering(rows, o) && page == Slice(o, skip, limit)
  }

  function Offset(k: nat, limit: nat): nat {
    k * limit
  }

  /** Answers to the queries at skip 0, limit, 2 * limit and so on up to the total. */
  ghost predicate Answered(rows: set<Row>, limit: nat, pages: seq<seq<Row>>) {
    && (forall k: nat :: k < |pages| <==> Offset(k, limit) < |rows|)
    && (forall k: nat | k < |pages| :: IsPage(rows, Offset(k, limit), limit, pages[k]))
  }

  function Joined(pages: seq<seq<Row>>): seq<Row> {
    if pages == [] then [] else Joined(pages[..|pages| - 1]) + pages[|pages| - 1]
  }

  predicate ExactlyOnce(rows: set<Row>, list: seq<Row>) {
    NoRepeats(list) && Elements(list) == rows
  }

  function Newer(rows: set<Row>, t: int): set<Row> {
    set q | q in rows && q.createdAt > t
  }

  function NotOlder(rows: set<Row>, t: int): set<Row> {
    set q | q in rows && q.createdAt >= t
  }

  /** Rows with one timestamp lie on both sides of position `m`: a condition on the table, not on any order. */
  predicate TieAt(rows: set<Row>, m: nat) {
    exists r :: r in rows && |Newer(rows, r.createdAt)| < m < |NotOlder(rows, r.createdAt)|
  }

  // ---------------------------------------------------------------- ranks

  lemma {:induction false} CountOf(s: seq<Row>)
    requires NoRepeats(s)
    ensures |Elements(s)| == |s|
  {
    if s != [] {
      var front, last := s[..|s| - 1], s[|s| - 1];
      CountOf(front);
      assert Elements(s) == Elements(front) + {last};
      assert last !in Elements(front);
    }
  }

  lemma Smaller(a: set<Row>, b: set<Row>)
    requires a <= b
    ensures |a| <= |b| && (|a| == |b| ==> a == b)
  {
    assert b == a + (b - a);
  }

  lemma PrefixCount(rows: set<Row>, o: seq<Row>, m: nat)
    requires Ordering(rows, o) && m <= |o|
    ensures |Elements(o[..m])| == m && Elements(o[..m]) <= rows
  {
    CountOf(o[..m]);
  }

  /** The rows before a strict drop in time are exactly the rows newer than what follows it. */
  lemma PrefixIsNewer(rows: set<Row>, o: seq<Row>, m: nat)
    requires Ordering(rows, o) && 0 < m < |o| && o[m - 1].createdAt > o[m].createdAt
    ensures Elements(o[..m]) == Newer(rows, o[m].createdAt)
  {
  }

  /** Whatever order is chosen, the table decides whether the rows around a position are tied. */
  lemma TieMeansEqual(rows: set<Row>, o: seq<Row>, m: nat)
    requires Ordering(rows, o) && 0 < m < |o|
    ensures TieAt(rows, m) <==> o[m - 1].createdAt == o[m].createdAt
  {
    if o[m - 1].createdAt == o[m].createdAt {
      EqualMeansTie(rows, o, m);
    } else {
      var t := o[m].createdAt;
      PrefixIsNewer(rows, o, m);
      PrefixCount(rows, o, m);
      forall r | r in rows ensures !(|Newer(rows, r.createdAt)| < m < |NotOlder(rows, r.createdAt)|) {
        if r.createdAt > t {
          Smaller(NotOlder(rows, r.createdAt), Newer(rows, t));
        } else {
          Smaller(Newer(rows, t), Newer(rows, r.createdAt));
        }
      }
    }
  }

  lemma EqualMeansTie(rows: set<Row>, o: seq<Row>, m: nat)
    requires Ordering(rows, o) && 0 < m < |o| && o[m - 1].createdAt == o[m].createdAt
    ensures TieAt(rows, m)
  {
    NewerAhead(rows, o, m - 1);
    NotOlderUpTo(rows, o, m);
    TieWitness(rows, o, m);
  }

  lemma TieWitness(rows: set<Row>, o: seq<Row>, m: nat)
    requires Elements(o) == rows && m < |o|
    requires |Newer(rows, o[m].createdAt)| < m < |NotOlder(rows, o[m].createdAt)|
    ensures TieAt(rows, m)
  {
  }

  lemma NewerAhead(rows: set<Row>, o: seq<Row>, i: nat)
    requires Ordering(rows, o) && i < |o|
    ensures |Newer(rows, o[i].createdAt)| <= i
  {
    forall q | q in Newer(rows, o[i].createdAt) ensures q in o[..i] {
      assert q in Elements(o);
      var j :| 0 <= j < |o| && o[j] == q;
      assert o[..i][j] == q;
    }
    Smaller(Newer(rows, o[i].createdAt), Elements(o[..i]));
    PrefixCount(rows, o, i);
  }

  lemma NotOlderUpTo(rows: set<Row>, o: seq<Row>, i: nat)
    requires Ordering(rows, o) && i < |o|
    ensures i < |NotOlder(rows, o[i].createdAt)|
  {
    forall q | q in o[..i + 1] ensures q in NotOlder(rows, o[i].createdAt) {
      var j :| 0 <= j < i + 1 && o[..i + 1][j] == q;
      assert q in Elements(o);
    }
    Smaller(Elements(o[..i + 1]), NotOlder(rows, o[i].createdAt));
    PrefixCount(rows, o, i + 1);
  }

  /** Where no tie straddles a position, every order puts the same rows before it. */
  lemma SamePrefix(rows: set<Row>, o1: seq<Row>, o2: seq<Row>, m: nat)
    requires Ordering(rows, o1) && Ordering(rows, o2) && Clean(rows, m)
    ensures Elements(o1[..Min(m, |o1|)]) == Elements(o2[..Min(m, |o2|)])
  {
    if 0 < m < |rows| {
      TieMeansEqual(rows, o1, m);
      TieMeansEqual(rows, o2, m);
      PrefixIsNewer(rows, o1, m);
      PrefixIsNewer(rows, o2, m);
      PrefixCount(rows, o1, m);
      PrefixCount(rows, o2, m);
      if o1[m].createdAt <= o2[m].createdAt {
        Smaller(Newer(rows, o2[m].createdAt), Newer(rows, o1[m].createdAt));
      } else {
        Smaller(Newer(rows, o1[m].createdAt), Newer(rows, o2[m].createdAt));
      }
    } else if m > 0 {
      assert o1[..|o1|] == o1 && o2[..|o2|] == o2;
    }
  }

  // ---------------------------------------------------------------- no tie at a page boundary: exactly once

  predicate CleanBoundaries(rows: set<Row>, limit: nat) {
    forall k: nat | 0 < k && k < |rows| && Offset(k, limit) < |rows| :: !TieAt(rows, Offset(k, limit))
  }

  lemma CleanAt(rows: set<Row>, limit: nat, k: nat)
    requires limit > 0 && CleanBoundaries(rows, limit)
    ensures Clean(rows, Offset(k, limit))
  {
  }

  lemma JoinApart(a: seq<Row>, b: seq<Row>)
    requires NoRepeats(a) && NoRepeats(b) && Elements(a) !! Elements(b)
    ensures NoRepeats(a + b) && Elements(a + b) == Elements(a) + Elements(b)
  {
    forall i, j | 0 <= i < |a| && 0 <= j < |b| ensures a[i] != b[j] {
      assert a[i] in Elements(a) && b[j] in Elements(b);
    }
  }

  /** A page adds to the rows before it exactly the rows up to its end. */
  lemma PageExtends(rows: set<Row>, o: seq<Row>, skip: nat, limit: nat)
    requires Ordering(rows, o)
    ensures var page := Slice(o, skip, limit);
      && NoRepeats(page) && Elements(page) !! Elements(o[..Min(skip, |o|)])
      && Elements(o[..Min(skip + limit, |o|)]) == Elements(o[..Min(skip, |o|)]) + Elements(page)
  {
  }

  lemma PageStep(rows: set<Row>, o: seq<Row>, p: seq<Row>, skip: nat, limit: nat, before: seq<Row>)
    requires Ordering(rows, o) && Ordering(rows, p)
    requires Clean(rows, skip) && Clean(rows, skip + limit)
    requires NoRepeats(before) && Elements(before) == Elements(o[..Min(skip, |o|)])
    ensures NoRepeats(before + Slice(p, skip, limit))
    ensures Elements(before + Slice(p, skip, limit)) == Elements(o[..Min(skip + limit, |o|)])
  {
    SamePrefix(rows, o, p, skip);
    SamePrefix(rows, o, p, skip + limit);
    PageExtends(rows, p, skip, limit);
    JoinApart(before, Slice(p, skip, limit));
  }

  lemma JoinedSnoc(pages: seq<seq<Row>>, j: nat)
    requires 0 < j <= |pages|
    ensures Joined(pages[..j]) == Joined(pages[..j - 1]) + pages[j - 1]
  {
    assert pages[..j][..j - 1] == pages[..j - 1];
  }

  lemma OffsetNext(k: nat, limit: nat)
    requires k > 0
    ensures Offset(k, limit) == Offset(k - 1, limit) + limit
  {
  }

  /** The order behind an answered page. */
  lemma PageOrder(rows: set<Row>, limit: nat, pages: seq<seq<Row>>, k: nat) returns (p: seq<Row>)
    requires Answered(rows, limit, pages) && k < |pages|
    ensures Ordering(rows, p) && pages[k] == Slice(p, Offset(k, limit), limit)
  {
    assert IsPage(rows, Offset(k, limit), limit, pages[k]);
    p :| Ordering(rows, p) && pages[k] == Slice(p, Offset(k, limit), limit);
  }

  /** No rows with one timestamp on both sides, or no rows on one side. */
  predicate Clean(rows: set<Row>, m: nat) {
    0 < m < |rows| ==> !TieAt(rows, m)
  }

  lemma PageAdds(rows: set<Row>, skip: nat, limit: nat, page: seq<Row>, o: seq<Row>, before: seq<Row>)
    requires IsPage(rows, skip, limit, page) && Clean(rows, skip) && Clean(rows, skip + limit) && Ordering(rows, o)
    requires NoRepeats(before) && Elements(before) == Elements(o[..Min(skip, |o|)])
    ensures NoRepeats(before + page)
    ensures Elements(before + page) == Elements(o[..Min(skip + limit, |o|)])
  {
    var p :| Ordering(rows, p) && page == Slice(p, skip, limit);
    PageStep(rows, o, p, skip, limit, before);
  }

  /** The first `j` pages hold exactly the first rows of the order, once each. */
  predicate SoFar(limit: nat, pages: seq<seq<Row>>, o: seq<Row>, j: nat)
    requires j <= |pages|
  {
    NoRepeats(Joined(pages[..j])) && Elements(Joined(pages[..j])) == Elements(o[..Min(Offset(j, limit), |o|)])
  }

  lemma OneMorePage(rows: set<Row>, limit: nat, pages: seq<seq<Row>>, o: seq<Row>, j: nat)
    requires 0 < j <= |pages| && Ordering(rows, o) && IsPage(rows, Offset(j - 1, limit), limit, pages[j - 1])
    requires Clean(rows, Offset(j - 1, limit)) && Clean(rows, Offset(j, limit))
    requires SoFar(limit, pages, o, j - 1)
    ensures SoFar(limit, pages, o, j)
  {
    JoinedSnoc(pages, j);
    OffsetNext(j, limit);
    PageAdds(rows, Offset(j - 1, limit), limit, pages[j - 1], o, Joined(pages[..j - 1]));
  }

  lemma {:induction false} PagesSoFar(rows: set<Row>, limit: nat, pages: seq<seq<Row>>, o: seq<Row>, j: nat)
    requires Ordering(rows, o) && j <= |pages|
    requires forall k: nat | k <= |pages| :: Clean(rows, Offset(k, limit))
    requires forall k: nat | k < |pages| :: IsPage(rows, Offset(k, limit), limit, pages[k])
    ensures SoFar(limit, pages, o, j)
  {
    if j > 0 {
      PagesSoFar(rows, limit, pages, o, j - 1);
      OneMorePage(rows, limit, pages, o, j);
    }
  }

  lemma CleanPagesPartition(rows: set<Row>, limit: nat, pages: seq<seq<Row>>)
    requires limit > 0 && CleanBoundaries(rows, limit) && Answered(rows, limit, pages)
    ensures ExactlyOnce(rows, Joined(pages))
  {
    assert pages[..|pages|] == pages;
    assert 0 < |pages| <==> Offset(0, limit) < |rows|;
    var o := SomeOrdering(rows);
    forall k: nat ensures Clean(rows, Offset(k, limit)) {
      CleanAt(rows, limit, k);
    }
    PagesSoFar(rows, limit, pages, o, |pages|);
    assert !(Offset(|pages|, limit) < |rows|);
    assert o[..|o|] == o;
  }

  // ---------------------------------------------------------------- a tie at a page boundary: a row may come twice

  lemma {:induction false} Latest(rows: set<Row>) returns (r: Row)
    requires rows != {}
    ensures r in rows && forall q | q in rows :: q.createdAt <= r.createdAt
    decreases |rows|
  {
    r :| r in rows;
    if rows != {r} {
      var q := Latest(rows - {r});
      assert rows == (rows - {r}) + {r};
      if r.createdAt < q.createdAt {
        r := q;
      }
    }
  }

  lemma {:induction false} SomeOrdering(rows: set<Row>) returns (o: seq<Row>)
    ensures Ordering(rows, o)
    decreases |rows|
  {
    if rows == {} {
      o := [];
    } else {
      var r := Latest(rows);
      var rest := SomeOrdering(rows - {r});
      o := [r] + rest;
      LatestInFront(rows, r, rest);
    }
  }

  lemma LatestInFront(rows: set<Row>, r: Row, rest: seq<Row>)
    requires r in rows && Ordering(rows - {r}, rest) && forall q | q in rows :: q.createdAt <= r.createdAt
    ensures Ordering(rows, [r] + rest)
  {
    forall i | 0 <= i < |rest| ensures rest[i] in rows && rest[i] != r {
      assert rest[i] in Elements(rest);
    }
    assert Elements([r] + rest) == {r} + Elements(rest);
    assert rows == {r} + (rows - {r});
  }

  lemma {:induction false} PageCount(rows: set<Row>, limit: nat, from: nat) returns (n: nat)
    requires limit > 0 && (from > 0 ==> Offset(from - 1, limit) < |rows|)
    ensures forall k: nat :: k < n <==> Offset(k, limit) < |rows|
    decreases |rows| - Offset(from, limit)
  {
    if Offset(from, limit) < |rows| {
      assert Offset(from + 1, limit) == Offset(from, limit) + limit;
      n := PageCount(rows, limit, from + 1);
    } else {
      n := from;
      forall k: nat ensures k < n <==> Offset(k, limit) < |rows| {
        if k < n {
          OffsetGrows(k, n - 1, limit);
        } else {
          OffsetGrows(n, k, limit);
        }
      }
    }
  }

  lemma OffsetGrows(j: nat, k: nat, limit: nat)
    requires j <= k
    ensures Offset(j, limit) <= Offset(k, limit)
  {
  }

  lemma {:induction false} Holds(pages: seq<seq<Row>>, a: nat, x: Row)
    requires a < |pages| && x in pages[a]
    ensures x in Joined(pages)
  {
    if a < |pages| - 1 {
      Holds(pages[..|pages| - 1], a, x);
    }
  }

  lemma {:induction false} TwicePaged(pages: seq<seq<Row>>, a: nat, b: nat, x: Row)
    requires a < b < |pages| && x in pages[a] && x in pages[b]
    ensures !NoRepeats(Joined(pages))
  {
    var front, last := pages[..|pages| - 1], pages[|pages| - 1];
    var list := Joined(front);
    if b == |pages| - 1 {
      Holds(front, a, x);
      var i :| 0 <= i < |list| && list[i] == x;
      var j :| 0 <= j < |last| && last[j] == x;
      assert (list + last)[i] == x && (list + last)[|list| + j] == x;
    } else {
      TwicePaged(front, a, b, x);
      var i, j :| 0 <= i < j < |list| && list[i] == list[j];
      assert (list + last)[i] == (list + last)[j];
    }
  }

  /** Exchanging two neighbours with one timestamp gives another order the database may choose. */
  lemma SwapTied(rows: set<Row>, o: seq<Row>, m: nat) returns (p: seq<Row>)
    requires Ordering(rows, o) && 0 < m < |o| && o[m - 1].createdAt == o[m].createdAt
    ensures Ordering(rows, p) && p[m] == o[m - 1]
  {
    p := o[m - 1 := o[m]][m := o[m - 1]];
    forall q | q in o ensures q in p {
      var i :| 0 <= i < |o| && o[i] == q;
      assert p[if i == m then m - 1 else if i == m - 1 then m else i] == q;
    }
  }

  lemma PickPages(rows: set<Row>, limit: nat, o: seq<Row>, p: seq<Row>, k: nat) returns (pages: seq<seq<Row>>)
    requires limit > 0 && Ordering(rows, o) && Ordering(rows, p) && Offset(k, limit) < |rows|
    ensures Answered(rows, limit, pages) && k < |pages|
    ensures forall j | 0 <= j < |pages| :: pages[j] == Slice(if j < k then o else p, Offset(j, limit), limit)
  {
    var n := PageCount(rows, limit, 0);
    pages := seq(n, j requires 0 <= j < n => Slice(if j < k then o else p, Offset(j, limit), limit));
    forall j: nat | j < n ensures IsPage(rows, Offset(j, limit), limit, pages[j]) {
      assert Ordering(rows, if j < k then o else p);
    }
  }

  lemma TieRepeatsARow(rows: set<Row>, limit: nat, k: nat) returns (pages: seq<seq<Row>>)
    requires limit > 0 && 0 < k && 0 < Offset(k, limit) < |rows| && TieAt(rows, Offset(k, limit))
    ensures Answered(rows, limit, pages) && !ExactlyOnce(rows, Joined(pages))
  {
    var o, p := TwoOrders(rows, Offset(k, limit));
    pages := PickPages(rows, limit, o, p, k);
    PickedTwice(pages, limit, o, p, k);
  }

  lemma TwoOrders(rows: set<Row>, m: nat) returns (o: seq<Row>, p: seq<Row>)
    requires 0 < m < |rows| && TieAt(rows, m)
    ensures Ordering(rows, o) && Ordering(rows, p) && p[m] == o[m - 1]
  {
    o := SomeOrdering(rows);
    TieMeansEqual(rows, o, m);
    p := SwapTied(rows, o, m);
  }

  lemma PickedTwice(pages: seq<seq<Row>>, limit: nat, o: seq<Row>, p: seq<Row>, k: nat)
    requires limit > 0 && 0 < k < |pages| && 0 < Offset(k, limit) < |o| == |p|
    requires p[Offset(k, limit)] == o[Offset(k, limit) - 1]
    requires pages[k - 1] == Slice(o, Offset(k - 1, limit), limit) && pages[k] == Slice(p, Offset(k, limit), limit)
    ensures !NoRepeats(Joined(pages))
  {
    OffsetNext(k, limit);
    LastOfPage(o, Offset(k - 1, limit), limit);
    FirstOfPage(p, Offset(k, limit), limit);
    TwicePaged(pages, k - 1, k, p[Offset(k, limit)]);
  }

  lemma LastOfPage(o: seq<Row>, skip: nat, limit: nat)
    requires limit > 0 && skip + limit <= |o|
    ensures o[skip + limit - 1] in Slice(o, skip, limit)
  {
  }

  lemma FirstOfPage(o: seq<Row>, skip: nat, limit: nat)
    requires limit > 0 && skip < |o|
    ensures o[skip] in Slice(o, skip, limit)
  {
  }

  // ---------------------------------------------------------------- the theorems

  /** The pages are sure to partition the table if and only if no tie straddles a page boundary. */
  lemma PagesPartition(rows: set<Row>, limit: nat)
    requires limit > 0
    ensures (forall pages :: Answered(rows, limit, pages) ==> ExactlyOnce(rows, Joined(pages))) <==>
      CleanBoundaries(rows, limit)
  {
    if CleanBoundaries(rows, limit) {
      forall pages | Answered(rows, limit, pages) ensures ExactlyOnce(rows, Joined(pages)) {
        CleanPagesPartition(rows, limit, pages);
      }
    } else {
      var k: nat :| 0 < k && k < |rows| && Offset(k, limit) < |rows| && TieAt(rows, Offset(k, limit));
      assert k <= Offset(k, limit);
      var pages := TieRepeatsARow(rows, limit, k);
    }
  }

  predicate DistinctTimes(rows: set<Row>) {
    forall r, q | r in rows && q in rows && r.createdAt == q.createdAt :: r == q
  }

  /** With distinct timestamps there is one order. */
  lemma OneOrdering(rows: set<Row>, o: seq<Row>, p: seq<Row>)
    requires DistinctTimes(rows) && Ordering(rows, o) && Ordering(rows, p)
    ensures o == p
  {
    forall i | 0 <= i < |o| ensures o[i] == p[i] {
      NotBefore(rows, o, p, i);
      NotBefore(rows, p, o, i);
      assert o[i] in Elements(o) && p[i] in Elements(p);
    }
  }

  lemma NotBefore(rows: set<Row>, o: seq<Row>, p: seq<Row>, i: nat)
    requires DistinctTimes(rows) && Ordering(rows, o) && Ordering(rows, p) && i < |o|
    ensures o[i].createdAt <= p[i].createdAt
  {
    Strictly(rows, o, i);
    Strictly(rows, p, i);
    if o[i].createdAt > p[i].createdAt {
      assert o[i] in Elements(o);
      Smaller(Newer(rows, o[i].createdAt) + {o[i]}, Newer(rows, p[i].createdAt));
      assert false;
    }
  }

  lemma Strictly(rows: set<Row>, o: seq<Row>, i: nat)
    requires DistinctTimes(rows) && Ordering(rows, o) && i < |o|
    ensures |Newer(rows, o[i].createdAt)| == i
  {
    PrefixCount(rows, o, i);
    assert Newer(rows, o[i].createdAt) == Elements(o[..i]) by {
      if i > 0 {
        assert o[i - 1] in Elements(o) && o[i] in Elements(o);
        PrefixIsNewer(rows, o, i);
      } else {
        forall q | q in rows ensures q.createdAt <= o[0].createdAt {
          assert q in Elements(o);
        }
      }
    }
  }

  /** With distinct timestamps the pages, put end to end, are the table from newest to oldest. */
  lemma PagesSpellTheList(rows: set<Row>, limit: nat, pages: seq<seq<Row>>, o: seq<Row>)
    requires limit > 0 && DistinctTimes(rows) && Answered(rows, limit, pages) && Ordering(rows, o)
    ensures Joined(pages) == o
  {
    JoinedPrefix(rows, limit, pages, o, |pages|);
    assert pages[..|pages|] == pages;
    assert !(Offset(|pages|, limit) < |rows|);
  }

  lemma {:induction false} JoinedPrefix(rows: set<Row>, limit: nat, pages: seq<seq<Row>>, o: seq<Row>, j: nat)
    requires DistinctTimes(rows) && Answered(rows, limit, pages) && Ordering(rows, o) && j <= |pages|
    ensures Joined(pages[..j]) == o[..Min(Offset(j, limit), |o|)]
  {
    if j > 0 {
      JoinedPrefix(rows, limit, pages, o, j - 1);
      JoinedSnoc(pages, j);
      PageOfList(rows, limit, pages, o, j);
    }
  }

  lemma PageOfList(rows: set<Row>, limit: nat, pages: seq<seq<Row>>, o: seq<Row>, j: nat)
    requires DistinctTimes(rows) && Answered(rows, limit, pages) && Ordering(rows, o) && 0 < j <= |pages|
    ensures o[..Min(Offset(j - 1, limit), |o|)] + pages[j - 1] == o[..Min(Offset(j, limit), |o|)]
  {
    var p := PageOrder(rows, limit, pages, j - 1);
    OneOrdering(rows, o, p);
    OffsetNext(j, limit);
    SliceExtends(o, Offset(j - 1, limit), limit);
  }

  lemma SliceExtends(o: seq<Row>, skip: nat, limit: nat)
    ensures o[..Min(skip, |o|)] + Slice(o, skip, limit) == o[..Min(skip + limit, |o|)]
  {
  }
}
