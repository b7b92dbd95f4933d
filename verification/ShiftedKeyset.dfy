/** Keyset paging whose next cursor carries another time of the last row than the one the rows
    are sorted by: what `ListPermissionsOnDocument` does when sorting by `last_modified_at`. */
module ShiftedKeyset {
  import opened Keyset

  /** Row ids have a creation time, never after the time they are sorted by. */
  ghost predicate Sane(rel: set<Key>, created: map<nat, int>) {
    forall x :: x in rel ==> x.id in created && created[x.id] <= x.time
  }

  function Shift(created: map<nat, int>, x: Key): Key {
    Key(if x.id in created then created[x.id] else x.time, x.id)
  }

  /** The cursor returned with a page. */
  function NextShifted(created: map<nat, int>, c: Key, page: seq<Key>): Key {
    if page == [] then c else Shift(created, page[|page| - 1])
  }

  lemma ShiftShrinks(rel: set<Key>, created: map<nat, int>, c: Key, n: nat)
    requires Sane(rel, created)
    ensures var page := Select(rel, c, n);
            && Rest(rel, NextShifted(created, c, page)) <= Rest(rel, Next(c, page)) <= Rest(rel, c)
            && (page != [] ==> |Rest(rel, NextShifted(created, c, page))| < |Rest(rel, c)|)
  {
    var page := Select(rel, c, n);
    SelectIsPage(rel, c, n);
    if page != [] {
      var last := page[|page| - 1];
      assert last in page;
      assert Rest(rel, NextShifted(created, c, page)) <= Rest(rel, c) - {last};
      Smaller(Rest(rel, NextShifted(created, c, page)), Rest(rel, c), last);
    }
  }

  lemma Smaller(a: set<Key>, b: set<Key>, x: Key)
    requires x in b && a <= b - {x}
    ensures |a| < |b|
  {
    Subset(a, b - {x});
  }

  lemma {:induction false} Subset(a: set<Key>, b: set<Key>)
    requires a <= b
    ensures |a| <= |b|
    decreases |a|
  {
    if a != {} {
      var x :| x in a;
      Subset(a - {x}, b - {x});
    }
  }

  /** All the rows returned on a fixed relation, page after page until one is empty. */
  ghost function Walk(rel: set<Key>, created: map<nat, int>, c: Key, n: nat): seq<Key>
    requires Sane(rel, created)
    decreases |Rest(rel, c)|
  {
    var page := Select(rel, c, n);
    ShiftShrinks(rel, created, c, n);
    if page == [] then [] else page + Walk(rel, created, NextShifted(created, c, page), n)
  }

  /** The last rows of those pages. */
  ghost function Boundaries(rel: set<Key>, created: map<nat, int>, c: Key, n: nat): seq<Key>
    requires Sane(rel, created)
    decreases |Rest(rel, c)|
  {
    var page := Select(rel, c, n);
    ShiftShrinks(rel, created, c, n);
    if page == [] then [] else [page[|page| - 1]] + Boundaries(rel, created, NextShifted(created, c, page), n)
  }

  /** The rows still come in strictly descending order, so none comes twice. */
  lemma {:induction false} WalkDescends(rel: set<Key>, created: map<nat, int>, c: Key, n: nat)
    requires Sane(rel, created)
    ensures Descending(Walk(rel, created, c, n))
    ensures forall x :: x in Walk(rel, created, c, n) ==> x in Rest(rel, c)
    decreases |Rest(rel, c)|
  {
    var page := Select(rel, c, n);
    ShiftShrinks(rel, created, c, n);
    SelectIsPage(rel, c, n);
    if page != [] {
      var c' := NextShifted(created, c, page);
      WalkDescends(rel, created, c', n);
      assert page[|page| - 1] in page;
      var rest := Walk(rel, created, c', n);
      if rest != [] { assert rest[0] in rest; }
    }
  }

  /** The rows between a page's last row and the cursor made of it. */
  predicate SkippedAt(created: map<nat, int>, last: Key, x: Key) { Below(x, last) && !Below(x, Shift(created, last)) }

  predicate InSomeGap(boundaries: seq<Key>, created: map<nat, int>, x: Key) {
    exists b :: b in boundaries && SkippedAt(created, b, x)
  }

  lemma GapStep(last: Key, rest: seq<Key>, created: map<nat, int>, x: Key)
    ensures InSomeGap([last] + rest, created, x) <==> SkippedAt(created, last, x) || InSomeGap(rest, created, x)
  {
    assert last in [last] + rest;
    forall b ensures b in [last] + rest <==> b == last || b in rest {}
  }

  /** A row is missed exactly if it lies in the gap after the last row of some page: at or above
      its creation time, below the time it was sorted by. */
  lemma {:induction false} SkipsExactly(rel: set<Key>, created: map<nat, int>, c: Key, n: nat, x: Key)
    requires Sane(rel, created) && n > 0 && x in Rest(rel, c)
    ensures x !in Walk(rel, created, c, n) <==> InSomeGap(Boundaries(rel, created, c, n), created, x)
    decreases |Rest(rel, c)|
  {
    var page := Select(rel, c, n);
    ShiftShrinks(rel, created, c, n);
    SelectIsPage(rel, c, n);
    PassesOnce(rel, c, n, x);
    var last, c' := page[|page| - 1], NextShifted(created, c, page);
    assert last in page;
    WalkDescends(rel, created, c', n);
    BoundariesBelow(rel, created, c', n);
    GapStep(last, Boundaries(rel, created, c', n), created, x);
    if x in Rest(rel, c') { SkipsExactly(rel, created, c', n, x); }
  }

  lemma {:induction false} BoundariesBelow(rel: set<Key>, created: map<nat, int>, c: Key, n: nat)
    requires Sane(rel, created)
    ensures forall b :: b in Boundaries(rel, created, c, n) ==> b in Rest(rel, c)
    decreases |Rest(rel, c)|
  {
    var page := Select(rel, c, n);
    ShiftShrinks(rel, created, c, n);
    SelectIsPage(rel, c, n);
    if page != [] {
      assert page[|page| - 1] in page;
      BoundariesBelow(rel, created, NextShifted(created, c, page), n);
    }
  }

  // ---------- when nothing is missed ----------

  /** All the rows below the cursor, sorted. */
  function Sorted(rel: set<Key>, c: Key): seq<Key> { Select(rel, c, |Rest(rel, c)|) }

  ghost predicate Complete(rel: set<Key>, created: map<nat, int>, c: Key, n: nat)
    requires Sane(rel, created)
  {
    forall x :: x in Rest(rel, c) ==> x in Walk(rel, created, c, n)
  }

  /** Of the sorted rows, the one after `k` full pages was modified before the last row of those
      pages was created. */
  predicate BoundaryOk(sorted: seq<Key>, created: map<nat, int>, n: nat, k: nat) {
    0 < k * n < |sorted| ==> Below(sorted[k * n], Shift(created, sorted[k * n - 1]))
  }

  ghost predicate BoundariesOk(sorted: seq<Key>, created: map<nat, int>, n: nat) {
    forall k: nat :: BoundaryOk(sorted, created, n, k)
  }

  lemma SameRest(rel: set<Key>, c: Key, c': Key, n: nat)
    requires Rest(rel, c) == Rest(rel, c')
    ensures Select(rel, c, n) == Select(rel, c', n)
  {
  }

  lemma SortedSplits(rel: set<Key>, c: Key, n: nat)
    ensures var page := Select(rel, c, n);
            && Sorted(rel, c) == page + Sorted(rel, Next(c, page))
            && |page| == (if n < |Rest(rel, c)| then n else |Rest(rel, c)|)
            && (Rest(rel, Next(c, page)) != {} ==> |page| == n)
  {
    var page := Select(rel, c, n);
    SelectCounts(rel, c, n);
    SelectThen(rel, c, |page|, |Rest(rel, c)| - |page|);
    if n > |Rest(rel, c)| { FullSelect(rel, c, n); }
  }

  lemma FullSelect(rel: set<Key>, c: Key, n: nat)
    requires n >= |Rest(rel, c)|
    ensures Select(rel, c, n) == Sorted(rel, c)
  {
    var m := |Rest(rel, c)|;
    SelectThen(rel, c, m, n - m);
    SelectCounts(rel, c, m);
  }

  lemma BoundaryShift(page: seq<Key>, rest: seq<Key>, created: map<nat, int>, n: nat, k: nat)
    requires n > 0 && |page| == n && k > 0
    ensures BoundaryOk(page + rest, created, n, k + 1) <==> BoundaryOk(rest, created, n, k)
  {
    assert (k + 1) * n == k * n + n;
    assert k * n >= n;
  }

  lemma BoundariesShift(page: seq<Key>, rest: seq<Key>, created: map<nat, int>, n: nat)
    requires n > 0 && |page| == n
    ensures BoundariesOk(page + rest, created, n) <==>
              BoundaryOk(page + rest, created, n, 1) && BoundariesOk(rest, created, n)
  {
    var all := page + rest;
    if BoundaryOk(all, created, n, 1) && BoundariesOk(rest, created, n) {
      forall k: nat ensures BoundaryOk(all, created, n, k) {
        if k > 1 { BoundaryShift(page, rest, created, n, k - 1); }
      }
    }
    if BoundariesOk(all, created, n) {
      forall k: nat ensures BoundaryOk(rest, created, n, k) {
        if k > 0 { BoundaryShift(page, rest, created, n, k); }
      }
    }
  }

  /** After a page, the remaining rows lose their first one to the gap, or none. */
  lemma GapOrNot(rel: set<Key>, last: Key, c': Key)
    requires Rest(rel, last) != {} && !Below(last, c')
    ensures var g := Greatest(Rest(rel, last));
            if Below(g, c') then Rest(rel, c') == Rest(rel, last) else g !in Rest(rel, c')
  {
    var g := Greatest(Rest(rel, last));
    if Below(g, c') {
      forall x ensures x in Rest(rel, c') <==> x in Rest(rel, last) {}
    }
  }

  lemma ShortBoundaries(sorted: seq<Key>, created: map<nat, int>, n: nat)
    requires |sorted| <= n
    ensures BoundariesOk(sorted, created, n)
  {
    forall k: nat ensures BoundaryOk(sorted, created, n, k) { if k > 0 { assert k * n >= n; } }
  }

  /** On a fixed relation the walk is complete exactly if at every page boundary of the sorted
      rows the next row was modified before the last one was created. */
  lemma {:induction false} CompleteIff(rel: set<Key>, created: map<nat, int>, c: Key, n: nat)
    requires Sane(rel, created) && n > 0
    ensures Complete(rel, created, c, n) <==> BoundariesOk(Sorted(rel, c), created, n)
    decreases |Rest(rel, c)|
  {
    var page := Select(rel, c, n);
    SelectIsPage(rel, c, n);
    SortedSplits(rel, c, n);
    ShiftShrinks(rel, created, c, n);
    WalkDescends(rel, created, c, n);
    if page == [] {
      ShortBoundaries(Sorted(rel, c), created, n);
    } else {
      var last, c' := page[|page| - 1], NextShifted(created, c, page);
      assert last in page;
      WalkDescends(rel, created, c', n);
      forall x | x in Rest(rel, c) ensures x in page <==> x !in Rest(rel, last) { PassesOnce(rel, c, n, x); }
      if Rest(rel, last) == {} {
        ShortBoundaries(Sorted(rel, c), created, n);
      } else {
        NextPage(rel, created, c, n);
        CompleteIff(rel, created, c', n);
      }
    }
  }

  /** The first boundary is in order exactly if no row is left behind in its gap. */
  lemma FirstBoundary(rel: set<Key>, created: map<nat, int>, c: Key, n: nat)
    requires Sane(rel, created) && n > 0
    requires Select(rel, c, n) != [] && Rest(rel, Next(c, Select(rel, c, n))) != {}
    ensures var page := Select(rel, c, n);
            && |page| == n && Sorted(rel, c) == page + Sorted(rel, Next(c, page))
            && (BoundaryOk(Sorted(rel, c), created, n, 1) <==>
                  Rest(rel, NextShifted(created, c, page)) == Rest(rel, Next(c, page)))
  {
    var page := Select(rel, c, n);
    var last, c' := Next(c, page), NextShifted(created, c, page);
    SelectIsPage(rel, c, n);
    assert last in page;
    SortedSplits(rel, c, n);
    var g := Greatest(Rest(rel, last));
    GapOrNot(rel, last, c');
    assert Sorted(rel, last)[0] == g;
    assert 1 * n == n && Sorted(rel, c)[n] == g && Sorted(rel, c)[n - 1] == last;
  }

  /** The step of `CompleteIff` from one page to the next. */
  lemma NextPage(rel: set<Key>, created: map<nat, int>, c: Key, n: nat)
    requires Sane(rel, created) && n > 0
    requires Select(rel, c, n) != [] && Rest(rel, Next(c, Select(rel, c, n))) != {}
    ensures var c' := NextShifted(created, c, Select(rel, c, n));
            && (Complete(rel, created, c, n) <==>
                  Rest(rel, c') == Rest(rel, Next(c, Select(rel, c, n))) && Complete(rel, created, c', n))
            && (BoundariesOk(Sorted(rel, c), created, n) <==>
                  Rest(rel, c') == Rest(rel, Next(c, Select(rel, c, n))) && BoundariesOk(Sorted(rel, c'), created, n))
  {
    var page := Select(rel, c, n);
    var last, c' := Next(c, page), NextShifted(created, c, page);
    NextPageComplete(rel, created, c, n);
    FirstBoundary(rel, created, c, n);
    BoundariesShift(page, Sorted(rel, last), created, n);
    if Rest(rel, c') == Rest(rel, last) { SameRest(rel, c', last, |Rest(rel, c')|); }
  }

  lemma NextPageComplete(rel: set<Key>, created: map<nat, int>, c: Key, n: nat)
    requires Sane(rel, created) && n > 0 && Select(rel, c, n) != []
    ensures var c' := NextShifted(created, c, Select(rel, c, n));
            Complete(rel, created, c, n) <==>
              Rest(rel, c') == Rest(rel, Next(c, Select(rel, c, n))) && Complete(rel, created, c', n)
  {
    var page := Select(rel, c, n);
    var last, c' := Next(c, page), NextShifted(created, c, page);
    ShiftShrinks(rel, created, c, n);
    WalkDescends(rel, created, c', n);
    forall x | x in rel ensures x in Rest(rel, last) <==> x in Rest(rel, c) && x !in page { PassesOnce(rel, c, n, x); }
    assert Walk(rel, created, c, n) == page + Walk(rel, created, c', n);
    if Complete(rel, created, c, n) {
      forall x | x in Rest(rel, last) ensures x in Walk(rel, created, c', n) {
        assert x in page + Walk(rel, created, c', n);
      }
      forall x | x in Rest(rel, c') ensures x in Walk(rel, created, c', n) { assert x in Rest(rel, last); }
    }
  }

  /** With the creation time as the sort key, there is no gap and nothing is missed. */
  lemma CompleteUnshifted(rel: set<Key>, created: map<nat, int>, c: Key, n: nat)
    requires n > 0 && forall x :: x in rel ==> x.id in created && created[x.id] == x.time
    ensures Sane(rel, created) && Complete(rel, created, c, n)
  {
    CompleteIff(rel, created, c, n);
    SelectIsPage(rel, c, |Rest(rel, c)|);
    var sorted := Sorted(rel, c);
    forall k: nat ensures BoundaryOk(sorted, created, n, k) {
      if 0 < k * n < |sorted| { assert sorted[k * n - 1] in sorted; }
    }
  }

  /** Two permissions, the newer one modified last: with pages of one, the older is never listed. */
  lemma SkippingExample()
    ensures var newer, older := Key(9, 1), Key(5, 2);
            var rel, created := {newer, older}, map[1 := 3, 2 := 5];
            Sane(rel, created) && !Complete(rel, created, Key(10, 3), 1)
  {
    var newer, older := Key(9, 1), Key(5, 2);
    var rel, created := {newer, older}, map[1 := 3, 2 := 5];
    var c := Key(10, 3);
    assert Rest(rel, c) == rel;
    assert newer in rel && older in rel && Below(older, newer);
    assert Greatest(rel) == newer;
    assert Select(rel, c, 1) == [newer];
    NextPageComplete(rel, created, c, 1);
    assert older in Rest(rel, newer) && older !in Rest(rel, Key(3, 1));
  }

  // ---------- following the cursor over a relation that changes ----------

  /** One request for a page: the relation and the creation times as they are then. */
  datatype Visit = Visit(rel: set<Key>, limit: nat, created: map<nat, int>)

  function VisitCursor(c: Key, visits: seq<Visit>): Key
    decreases |visits|
  {
    if visits == [] then c
    else
      var c', last := VisitCursor(c, visits[..|visits| - 1]), visits[|visits| - 1];
      NextShifted(last.created, c', Select(last.rel, c', last.limit))
  }

  /** All the rows returned, page after page. */
  function Shown(c: Key, visits: seq<Visit>): seq<Key>
    decreases |visits|
  {
    if visits == [] then []
    else
      var before, last := visits[..|visits| - 1], visits[|visits| - 1];
      Shown(c, before) + Select(last.rel, VisitCursor(c, before), last.limit)
  }

  ghost predicate AllSane(visits: seq<Visit>) { forall v :: v in visits ==> Sane(v.rel, v.created) }

  predicate NotAbove(a: Key, b: Key) { a == b || Below(a, b) }

  lemma {:induction false} ShownDescend(c: Key, visits: seq<Visit>)
    requires AllSane(visits)
    ensures Descending(Shown(c, visits))
    ensures NotAbove(VisitCursor(c, visits), c)
    ensures forall x :: x in Shown(c, visits) ==> Below(x, c) && NotAbove(VisitCursor(c, visits), x)
    decreases |visits|
  {
    if visits != [] {
      var before, last := visits[..|visits| - 1], visits[|visits| - 1];
      assert visits == before + [last];
      ShownDescend(c, before);
      var done, c' := Shown(c, before), VisitCursor(c, before);
      SelectIsPage(last.rel, c', last.limit);
      PageAboveCursor(last.rel, last.created, c', last.limit);
      var page := Select(last.rel, c', last.limit);
      if page != [] { assert page[0] in page; }
      if done != [] { assert done[|done| - 1] in done; }
    }
  }

  lemma PageAboveCursor(rel: set<Key>, created: map<nat, int>, c: Key, n: nat)
    requires Sane(rel, created)
    ensures var page := Select(rel, c, n); var c' := NextShifted(created, c, page);
            NotAbove(c', c) && forall x :: x in page ==> NotAbove(c', x)
  {
    SelectIsPage(rel, c, n);
    var page := Select(rel, c, n);
    if page != [] {
      var last := page[|page| - 1];
      assert last in page;
      forall x | x in page ensures NotAbove(last, x) {
        var i :| 0 <= i < |page| && page[i] == x;
        if i < |page| - 1 { DescendingPairs(page, i, |page| - 1); }
      }
    }
  }

  /** The visit that returned row `i`. */
  ghost function FromVisit(c: Key, visits: seq<Visit>, i: nat): (p: nat)
    requires i < |Shown(c, visits)|
    ensures p < |visits| && Shown(c, visits)[i] in visits[p].rel
    decreases |visits|
  {
    var before, last := visits[..|visits| - 1], visits[|visits| - 1];
    if i < |Shown(c, before)| then FromVisit(c, before, i)
    else
      SelectIsPage(last.rel, VisitCursor(c, before), last.limit);
      assert Shown(c, visits)[i] in Select(last.rel, VisitCursor(c, before), last.limit);
      |visits| - 1
  }

  lemma {:induction false} VisitsInOrder(c: Key, visits: seq<Visit>, i: nat, j: nat)
    requires i <= j < |Shown(c, visits)|
    ensures FromVisit(c, visits, i) <= FromVisit(c, visits, j)
    decreases |visits|
  {
    if j < |Shown(c, visits[..|visits| - 1])| { VisitsInOrder(c, visits[..|visits| - 1], i, j); }
  }

  ghost predicate TimesGrow(visits: seq<Visit>) {
    forall p, q, x, y ::
      0 <= p <= q < |visits| && x in visits[p].rel && y in visits[q].rel && x.id == y.id ==> x.time <= y.time
  }

  /** As long as no row's time goes back, no id comes twice, under whichever key, although the
      cursor jumps. */
  lemma NoIdTwice(c: Key, visits: seq<Visit>, i: nat, j: nat)
    requires AllSane(visits) && TimesGrow(visits) && i < j < |Shown(c, visits)|
    ensures Shown(c, visits)[i].id != Shown(c, visits)[j].id
  {
    ShownDescend(c, visits);
    DescendingPairs(Shown(c, visits), i, j);
    VisitsInOrder(c, visits, i, j);
    var p, q := FromVisit(c, visits, i), FromVisit(c, visits, j);
    assert Shown(c, visits)[i] in visits[p].rel && Shown(c, visits)[j] in visits[q].rel;
  }

  function Reads(visits: seq<Visit>): (r: seq<Read>)
    ensures |r| == |visits| && forall k :: 0 <= k < |r| ==> r[k] == Read(visits[k].rel, visits[k].limit)
  {
    seq(|visits|, k requires 0 <= k < |visits| => Read(visits[k].rel, visits[k].limit))
  }

  lemma ReadsFront(visits: seq<Visit>)
    requires visits != []
    ensures Reads(visits)[..|visits| - 1] == Reads(visits[..|visits| - 1])
  {
  }

  ghost predicate Unshifted(visits: seq<Visit>) {
    forall v, x :: v in visits && x in v.rel ==> x.id in v.created && v.created[x.id] == x.time
  }

  /** With the creation time as the sort key, it is keyset paging as it should be. */
  lemma {:induction false} UnshiftedShown(c: Key, visits: seq<Visit>)
    requires Unshifted(visits)
    ensures Shown(c, visits) == Emitted(c, Reads(visits)) && VisitCursor(c, visits) == CursorAfter(c, Reads(visits))
    decreases |visits|
  {
    if visits != [] {
      var before, last := visits[..|visits| - 1], visits[|visits| - 1];
      assert visits == before + [last];
      UnshiftedShown(c, before);
      ReadsFront(visits);
      var c' := VisitCursor(c, before);
      SelectIsPage(last.rel, c', last.limit);
      var page := Select(last.rel, c', last.limit);
      if page != [] { assert page[|page| - 1] in page; }
    }
  }
}
