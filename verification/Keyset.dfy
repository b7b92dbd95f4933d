/** Keyset paging: `WHERE key < cursor ORDER BY key DESC LIMIT n`, over a relation that may
    change between the pages. A relation is the set of the keys of its matching rows. */
module Keyset {

  datatype Key = Key(time: int, id: nat)

  /** `time < t OR (time = t AND id < i)`. */
  predicate Below(a: Key, b: Key) { a.time < b.time || (a.time == b.time && a.id < b.id) }

  predicate Descending(s: seq<Key>) { forall i :: 0 < i < |s| ==> Below(s[i], s[i - 1]) }

  lemma {:induction false} DescendingPairs(s: seq<Key>, i: nat, j: nat)
    requires Descending(s) && i < j < |s|
    ensures Below(s[j], s[i])
    decreases j
  {
    if i < j - 1 { DescendingPairs(s, i, j - 1); }
  }

  lemma NoRepeat(s: seq<Key>)
    requires Descending(s)
    ensures forall i, j :: 0 <= i < j < |s| ==> s[i] != s[j]
  {
    forall i, j | 0 <= i < j < |s| ensures s[i] != s[j] { DescendingPairs(s, i, j); }
  }

  function Rest(rel: set<Key>, c: Key): set<Key> { set x | x in rel && Below(x, c) }

  ghost predicate IsGreatest(s: set<Key>, g: Key) { g in s && forall x :: x in s ==> x == g || Below(x, g) }

  lemma {:induction false} HasGreatest(s: set<Key>)
    requires s != {}
    ensures exists g :: IsGreatest(s, g)
    decreases |s|
  {
    var x :| x in s;
    if s == {x} {
      assert IsGreatest(s, x);
    } else {
      HasGreatest(s - {x});
      var g :| IsGreatest(s - {x}, g);
      var top := if Below(g, x) then x else g;
      forall y | y in s ensures y == top || Below(y, top) {
        if y != x { assert y in s - {x}; }
      }
      assert IsGreatest(s, top);
    }
  }

  function Greatest(s: set<Key>): (g: Key)
    requires s != {}
    ensures IsGreatest(s, g)
  {
    HasGreatest(s);
    var g :| g in s && forall x :: x in s ==> x == g || Below(x, g);
    g
  }

  /** The query: the greatest row below the cursor, and so on downward, at most `n` of them. */
  function Select(rel: set<Key>, c: Key, n: nat): seq<Key>
    decreases n
  {
    if n == 0 || Rest(rel, c) == {} then []
    else
      var g := Greatest(Rest(rel, c));
      [g] + Select(rel, g, n - 1)
  }

  /** What the SQL says of its result. */
  ghost predicate IsPage(rel: set<Key>, c: Key, n: nat, page: seq<Key>) {
    && Descending(page) && |page| <= n
    && (forall x :: x in page ==> x in Rest(rel, c))
    && (forall x :: x in Rest(rel, c) && x !in page ==> |page| == n && forall y :: y in page ==> Below(x, y))
  }

  lemma {:induction false} SelectIsPage(rel: set<Key>, c: Key, n: nat)
    ensures IsPage(rel, c, n, Select(rel, c, n))
    decreases n
  {
    if n > 0 && Rest(rel, c) != {} {
      var g := Greatest(Rest(rel, c));
      SelectIsPage(rel, g, n - 1);
      var page := Select(rel, g, n - 1);
      assert Select(rel, c, n) == [g] + page;
      if page != [] { assert page[0] in Rest(rel, g); }
    }
  }

  /** That leaves no choice: a page is determined by the relation, the cursor and the limit. */
  lemma {:induction false} PageIsSelect(rel: set<Key>, c: Key, n: nat, page: seq<Key>)
    requires IsPage(rel, c, n, page)
    ensures page == Select(rel, c, n)
    decreases n
  {
    if page == [] {
      assert n == 0 || Rest(rel, c) == {} by { if x :| x in Rest(rel, c) { assert x !in page; } }
    } else {
      FirstIsGreatest(rel, c, n, page);
      TailIsPage(rel, c, n, page);
      PageIsSelect(rel, page[0], n - 1, page[1..]);
      assert page == [page[0]] + page[1..];
    }
  }

  lemma FirstIsGreatest(rel: set<Key>, c: Key, n: nat, page: seq<Key>)
    requires IsPage(rel, c, n, page) && page != []
    ensures Rest(rel, c) != {} && page[0] == Greatest(Rest(rel, c))
  {
    assert page[0] in page && page[0] in Rest(rel, c);
    var g := Greatest(Rest(rel, c));
    if g in page {
      var i :| 0 <= i < |page| && page[i] == g;
      if i > 0 { DescendingPairs(page, 0, i); }
    }
  }

  lemma TailIsPage(rel: set<Key>, c: Key, n: nat, page: seq<Key>)
    requires IsPage(rel, c, n, page) && page != []
    ensures n > 0 && IsPage(rel, page[0], n - 1, page[1..])
  {
    var tail := page[1..];
    assert forall i :: 0 <= i < |tail| ==> tail[i] == page[i + 1];
    forall x | x in tail ensures x in Rest(rel, page[0]) {
      var i :| 0 <= i < |tail| && tail[i] == x;
      assert page[i + 1] in page;
      DescendingPairs(page, 0, i + 1);
    }
    forall x | x in Rest(rel, page[0]) && x !in tail
      ensures |tail| == n - 1 && forall y :: y in tail ==> Below(x, y)
    {
      assert page[0] in page && page == [page[0]] + tail;
      assert x in Rest(rel, c) && x !in page;
    }
  }

  // ---------- following the cursor ----------

  function Next(c: Key, page: seq<Key>): Key { if page == [] then c else page[|page| - 1] }

  /** One request for a page: the relation as it is then, and the page size. */
  datatype Read = Read(rel: set<Key>, limit: nat)

  function CursorAfter(c: Key, visits: seq<Read>): Key
    decreases |visits|
  {
    if visits == [] then c
    else
      var c' := CursorAfter(c, visits[..|visits| - 1]);
      Next(c', Select(visits[|visits| - 1].rel, c', visits[|visits| - 1].limit))
  }

  /** All the rows returned, page after page. */
  function Emitted(c: Key, visits: seq<Read>): seq<Key>
    decreases |visits|
  {
    if visits == [] then []
    else
      var before := visits[..|visits| - 1];
      Emitted(c, before) + Select(visits[|visits| - 1].rel, CursorAfter(c, before), visits[|visits| - 1].limit)
  }

  lemma {:induction false} CursorIsLast(c: Key, visits: seq<Read>)
    ensures CursorAfter(c, visits) == Next(c, Emitted(c, visits))
    decreases |visits|
  {
    if visits != [] { CursorIsLast(c, visits[..|visits| - 1]); }
  }

  /** However the relation changes between pages, the rows come in strictly descending order, all
      below the first cursor; so no row comes twice. */
  lemma {:induction false} RowsDescend(c: Key, visits: seq<Read>)
    ensures Descending(Emitted(c, visits))
    ensures forall x :: x in Emitted(c, visits) ==> Below(x, c)
    decreases |visits|
  {
    if visits != [] {
      var before, last := visits[..|visits| - 1], visits[|visits| - 1];
      RowsDescend(c, before);
      CursorIsLast(c, before);
      var done, c' := Emitted(c, before), CursorAfter(c, before);
      SelectIsPage(last.rel, c', last.limit);
      var page := Select(last.rel, c', last.limit);
      if page != [] { assert page[0] in page; }
      if done != [] { assert c' in done; }
    }
  }

  ghost predicate InAll(x: Key, visits: seq<Read>) { forall k :: 0 <= k < |visits| ==> x in visits[k].rel }

  /** A row that is there for every page has been returned exactly if the cursor has passed it. */
  lemma {:induction false} ReturnedIffPassed(c: Key, visits: seq<Read>, x: Key)
    requires Below(x, c) && InAll(x, visits)
    ensures x in Emitted(c, visits) <==> !Below(x, CursorAfter(c, visits))
    decreases |visits|
  {
    if visits != [] {
      var before, last := visits[..|visits| - 1], visits[|visits| - 1];
      assert last in visits;
      ReturnedIffPassed(c, before, x);
      var c' := CursorAfter(c, before);
      SelectIsPage(last.rel, c', last.limit);
      PassesOnce(last.rel, c', last.limit, x);
    }
  }

  lemma PassesOnce(rel: set<Key>, c: Key, n: nat, x: Key)
    requires x in rel
    ensures var page := Select(rel, c, n);
            Below(x, Next(c, page)) <==> Below(x, c) && x !in page
  {
    SelectIsPage(rel, c, n);
    var page := Select(rel, c, n);
    if page != [] {
      var last := page[|page| - 1];
      assert last in page && last in Rest(rel, c);
      if x in page {
        var i :| 0 <= i < |page| && page[i] == x;
        if i < |page| - 1 { DescendingPairs(page, i, |page| - 1); }
      } else if Below(x, c) {
        assert x in Rest(rel, c);
      }
    }
  }

  /** Once a page comes back empty, every row that was there all along has been returned. */
  lemma EmptyPageMeansAll(c: Key, visits: seq<Read>, x: Key)
    requires visits != [] && visits[|visits| - 1].limit > 0
    requires Select(visits[|visits| - 1].rel, CursorAfter(c, visits[..|visits| - 1]), visits[|visits| - 1].limit) == []
    requires Below(x, c) && InAll(x, visits)
    ensures x in Emitted(c, visits)
  {
    ReturnedIffPassed(c, visits, x);
    var c', last := CursorAfter(c, visits[..|visits| - 1]), visits[|visits| - 1];
    assert x in Rest(last.rel, c') <==> Below(x, c');
  }

  /** The read that returned row `i`. */
  ghost function FromRead(c: Key, visits: seq<Read>, i: nat): (p: nat)
    requires i < |Emitted(c, visits)|
    ensures p < |visits| && Emitted(c, visits)[i] in visits[p].rel
    decreases |visits|
  {
    var before, last := visits[..|visits| - 1], visits[|visits| - 1];
    if i < |Emitted(c, before)| then FromRead(c, before, i)
    else
      SelectIsPage(last.rel, CursorAfter(c, before), last.limit);
      assert Emitted(c, visits)[i] in Select(last.rel, CursorAfter(c, before), last.limit);
      |visits| - 1
  }

  // ---------- a relation that does not change ----------

  /** Two pages are one page of both their sizes. */
  lemma {:induction false} SelectThen(rel: set<Key>, c: Key, n: nat, m: nat)
    ensures Select(rel, c, n + m) == Select(rel, c, n) + Select(rel, Next(c, Select(rel, c, n)), m)
    decreases n
  {
    if n > 0 && Rest(rel, c) != {} {
      var g := Greatest(Rest(rel, c));
      SelectThen(rel, g, n - 1, m);
      assert Select(rel, c, n + m) == [g] + Select(rel, g, n - 1 + m);
      assert Select(rel, c, n) == [g] + Select(rel, g, n - 1);
      assert Next(c, Select(rel, c, n)) == Next(g, Select(rel, g, n - 1));
    }
  }

  function Total(visits: seq<Read>): nat
    decreases |visits|
  {
    if visits == [] then 0 else Total(visits[..|visits| - 1]) + visits[|visits| - 1].limit
  }

  ghost predicate Fixed(rel: set<Key>, visits: seq<Read>) { forall k :: 0 <= k < |visits| ==> visits[k].rel == rel }

  /** On a fixed relation the pages put together are one query with the sum of their limits: the
      page sizes do not matter. */
  lemma {:induction false} PagesAreOneQuery(rel: set<Key>, c: Key, visits: seq<Read>)
    requires Fixed(rel, visits)
    ensures Emitted(c, visits) == Select(rel, c, Total(visits))
    decreases |visits|
  {
    if visits != [] {
      var before, last := visits[..|visits| - 1], visits[|visits| - 1];
      assert Fixed(rel, before) by { assert forall k :: 0 <= k < |before| ==> before[k] == visits[k]; }
      PagesAreOneQuery(rel, c, before);
      CursorIsLast(c, before);
      SelectThen(rel, c, Total(before), last.limit);
    } else {
      assert Select(rel, c, 0) == [];
    }
  }

  lemma {:induction false} SelectCounts(rel: set<Key>, c: Key, n: nat)
    ensures var page := Select(rel, c, n);
            && |page| == (if n < |Rest(rel, c)| then n else |Rest(rel, c)|)
            && |Rest(rel, Next(c, page))| == |Rest(rel, c)| - |page|
    decreases n
  {
    if n > 0 && Rest(rel, c) != {} {
      var g := Greatest(Rest(rel, c));
      SelectCounts(rel, g, n - 1);
      assert Rest(rel, g) == Rest(rel, c) - {g};
      assert Select(rel, c, n) == [g] + Select(rel, g, n - 1);
      assert Next(c, Select(rel, c, n)) == Next(g, Select(rel, g, n - 1));
    }
  }

  /** Every page shrinks what is left by its own size; with positive page sizes, as many pages as
      there are rows below the first cursor leave nothing, and the next page is empty. */
  lemma PagingTerminates(rel: set<Key>, c: Key, visits: seq<Read>, n: nat)
    requires Fixed(rel, visits)
    ensures |Rest(rel, CursorAfter(c, visits))| == |Rest(rel, c)| - |Emitted(c, visits)|
    ensures |visits| >= |Rest(rel, c)| && (forall k :: 0 <= k < |visits| ==> visits[k].limit > 0) ==>
              Select(rel, CursorAfter(c, visits), n) == []
  {
    PagesAreOneQuery(rel, c, visits);
    CursorIsLast(c, visits);
    SelectCounts(rel, c, Total(visits));
    if forall k :: 0 <= k < |visits| ==> visits[k].limit > 0 { TotalGrows(visits); }
  }

  lemma {:induction false} TotalGrows(visits: seq<Read>)
    requires forall k :: 0 <= k < |visits| ==> visits[k].limit > 0
    ensures Total(visits) >= |visits|
    decreases |visits|
  {
    if visits != [] { TotalGrows(visits[..|visits| - 1]); }
  }
}
