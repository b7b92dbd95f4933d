/** PostgreSQL's int8multirange (manual sections 8.17 and 9.20), as the list it stores:
    sorted, disjoint, non-adjacent, non-empty half-open ranges. */
module Multirange {
  datatype Range = Range(lo: int, hi: int)

  predicate Has(m: seq<Range>, x: int) {
    exists i :: 0 <= i < |m| && m[i].lo <= x < m[i].hi
  }

  predicate Normal(m: seq<Range>) {
    && (forall i :: 0 <= i < |m| ==> m[i].lo < m[i].hi)
    && (forall i, j :: 0 <= i < j < |m| ==> m[i].hi < m[j].lo)
  }

  ghost predicate SameElements(a: seq<Range>, b: seq<Range>) {
    forall x :: Has(a, x) <==> Has(b, x)
  }

  lemma HasCons(r: Range, m: seq<Range>, x: int)
    ensures Has([r] + m, x) <==> r.lo <= x < r.hi || Has(m, x)
  {
    var all := [r] + m;
    if r.lo <= x < r.hi { assert all[0].lo <= x < all[0].hi; }
    if Has(m, x) {
      var i :| 0 <= i < |m| && m[i].lo <= x < m[i].hi;
      assert all[i + 1] == m[i];
    }
    if Has(all, x) && !(r.lo <= x < r.hi) {
      var i :| 0 <= i < |all| && all[i].lo <= x < all[i].hi;
      assert m[i - 1] == all[i];
    }
  }

  lemma HasConcat(a: seq<Range>, b: seq<Range>, x: int)
    ensures Has(a + b, x) <==> Has(a, x) || Has(b, x)
  {
    var all := a + b;
    if Has(a, x) {
      var i :| 0 <= i < |a| && a[i].lo <= x < a[i].hi;
      assert all[i] == a[i];
    }
    if Has(b, x) {
      var i :| 0 <= i < |b| && b[i].lo <= x < b[i].hi;
      assert all[|a| + i] == b[i];
    }
  }

  // ---------- the normal form is unique ----------

  lemma FirstIsLeast(m: seq<Range>, x: int)
    requires Normal(m) && Has(m, x)
    ensures m != [] && m[0].lo <= x && (x >= m[0].hi ==> Has(m[1..], x) && x > m[0].hi)
  {
    var i :| 0 <= i < |m| && m[i].lo <= x < m[i].hi;
    if i > 0 { assert m[1..][i - 1] == m[i]; }
  }

  lemma SameFirst(a: seq<Range>, b: seq<Range>)
    requires Normal(a) && Normal(b) && SameElements(a, b) && a != [] && b != []
    ensures a[0] == b[0]
  {
    assert Has(a, a[0].lo) && Has(b, b[0].lo);
    FirstIsLeast(b, a[0].lo);
    FirstIsLeast(a, b[0].lo);
    SameFirstEnd(a, b);
    SameFirstEnd(b, a);
  }

  lemma SameTails(a: seq<Range>, b: seq<Range>)
    requires Normal(a) && Normal(b) && SameElements(a, b) && a != [] && b != [] && a[0] == b[0]
    ensures Normal(a[1..]) && Normal(b[1..]) && SameElements(a[1..], b[1..])
  {
    forall x ensures Has(a[1..], x) <==> Has(b[1..], x) {
      TailHas(a, x);
      TailHas(b, x);
    }
  }

  /** Two lists in normal form with the same elements are the same list, so every law of
      plain sets is a law of stored rows. */
  lemma {:induction false} NormalFormIsUnique(a: seq<Range>, b: seq<Range>)
    requires Normal(a) && Normal(b) && SameElements(a, b)
    ensures a == b
  {
    assert a != [] ==> Has(a, a[0].lo);
    assert b != [] ==> Has(b, b[0].lo);
    if a != [] && b != [] {
      SameFirst(a, b);
      SameTails(a, b);
      NormalFormIsUnique(a[1..], b[1..]);
      assert a == [a[0]] + a[1..] && b == [b[0]] + b[1..];
    }
  }

  lemma SameFirstEnd(a: seq<Range>, b: seq<Range>)
    requires Normal(a) && Normal(b) && SameElements(a, b) && a != [] && b != [] && a[0].lo == b[0].lo
    ensures a[0].hi >= b[0].hi
  {
    if a[0].hi < b[0].hi {
      assert Has(b, a[0].hi);
      FirstIsLeast(a, a[0].hi);
    }
  }

  lemma TailHas(m: seq<Range>, x: int)
    requires Normal(m) && m != []
    ensures Has(m[1..], x) <==> Has(m, x) && x >= m[0].hi
  {
    assert m == [m[0]] + m[1..];
    HasCons(m[0], m[1..], x);
    if Has(m[1..], x) {
      var i :| 0 <= i < |m[1..]| && m[1..][i].lo <= x < m[1..][i].hi;
      assert m[1..][i] == m[i + 1];
    }
  }

  // ---------- union ----------

  function Min(a: int, b: int): int { if a < b then a else b }
  function Max(a: int, b: int): int { if a < b then b else a }

  /** Put one range into a list in normal form. */
  function Add(m: seq<Range>, r: Range): (a: seq<Range>)
    requires Normal(m)
    ensures Normal(a)
    ensures r.lo < r.hi ==> a != [] && a[0].lo == if m == [] then r.lo else Min(r.lo, m[0].lo)
    ensures r.lo >= r.hi ==> a == m
    decreases |m|
  {
    if r.lo >= r.hi then m
    else if m == [] then [r]
    else if r.hi < m[0].lo then [r] + m
    else if m[0].hi < r.lo then
      var rest := Add(m[1..], r);
      assert |m| > 1 ==> m[1..][0] == m[1];
      [m[0]] + rest
    else
      assert |m| > 1 ==> m[1..][0] == m[1];
      Add(m[1..], Range(Min(r.lo, m[0].lo), Max(r.hi, m[0].hi)))
  }

  lemma {:induction false} AddHas(m: seq<Range>, r: Range, x: int)
    requires Normal(m)
    ensures Has(Add(m, r), x) <==> Has(m, x) || r.lo <= x < r.hi
    decreases |m|
  {
    if r.lo < r.hi {
      if m == [] {
        HasCons(r, [], x);
        assert [r] + [] == [r];
      } else {
        assert m == [m[0]] + m[1..];
        HasCons(m[0], m[1..], x);
        if r.hi < m[0].lo {
          HasCons(r, m, x);
        } else if m[0].hi < r.lo {
          AddHas(m[1..], r, x);
          HasCons(m[0], Add(m[1..], r), x);
        } else {
          AddHas(m[1..], Range(Min(r.lo, m[0].lo), Max(r.hi, m[0].hi)), x);
        }
      }
    }
  }

  /** The normal form of a list of ranges: `range_agg`, and `+` on a concatenation. */
  function Canon(ranges: seq<Range>): (m: seq<Range>)
    ensures Normal(m)
  {
    if ranges == [] then [] else Add(Canon(ranges[1..]), ranges[0])
  }

  lemma {:induction false} CanonHas(ranges: seq<Range>, x: int)
    ensures Has(Canon(ranges), x) <==> Has(ranges, x)
  {
    if ranges != [] {
      CanonHas(ranges[1..], x);
      AddHas(Canon(ranges[1..]), ranges[0], x);
      assert ranges == [ranges[0]] + ranges[1..];
      HasCons(ranges[0], ranges[1..], x);
    }
  }

  /** `a + b`. */
  function Union(a: seq<Range>, b: seq<Range>): (u: seq<Range>)
    ensures Normal(u)
  {
    Canon(a + b)
  }

  lemma UnionHas(a: seq<Range>, b: seq<Range>, x: int)
    ensures Has(Union(a, b), x) <==> Has(a, x) || Has(b, x)
  {
    CanonHas(a + b, x);
    HasConcat(a, b, x);
  }

  /** `a @> b`. */
  ghost predicate Contains(a: seq<Range>, b: seq<Range>) {
    forall x :: Has(b, x) ==> Has(a, x)
  }

  /** Containment is what makes a union idle. */
  lemma UnionIsIdle(a: seq<Range>, b: seq<Range>)
    requires Normal(a)
    ensures Union(a, b) == a <==> Contains(a, b)
  {
    forall x ensures Has(Union(a, b), x) <==> Has(a, x) || Has(b, x) { UnionHas(a, b, x); }
    if Contains(a, b) {
      NormalFormIsUnique(Union(a, b), a);
    }
  }

  // ---------- the loops ----------

  predicate SortedByLow(rs: seq<Range>) {
    forall i :: 0 < i < |rs| ==> rs[i - 1].lo <= rs[i].lo
  }

  lemma InsertBag(rs: seq<Range>, p: nat, r: Range)
    requires p <= |rs|
    ensures multiset(rs[..p] + [r] + rs[p..]) == multiset(rs) + multiset{r}
  {
    assert rs == rs[..p] + rs[p..];
  }

  lemma InsertSorted(rs: seq<Range>, p: nat, r: Range)
    requires SortedByLow(rs) && p <= |rs|
    requires p > 0 ==> rs[p - 1].lo <= r.lo
    requires p < |rs| ==> r.lo <= rs[p].lo
    ensures SortedByLow(rs[..p] + [r] + rs[p..])
  {
    var n := rs[..p] + [r] + rs[p..];
    forall i | 0 < i < |n| ensures n[i - 1].lo <= n[i].lo {
      var before := if i - 1 < p then rs[..p][i - 1] else if i - 1 == p then r else rs[p..][i - 2 - p];
      assert n[i - 1] == before;
    }
  }

  /** Where a range belongs in a list sorted by lower bound. */
  method FindSlot(rs: seq<Range>, r: Range) returns (p: nat)
    requires SortedByLow(rs)
    ensures p <= |rs| && (p > 0 ==> rs[p - 1].lo <= r.lo) && (p < |rs| ==> r.lo <= rs[p].lo)
  {
    p := |rs|;
    while p > 0 && rs[p - 1].lo > r.lo
      invariant 0 <= p <= |rs|
      invariant p < |rs| ==> r.lo <= rs[p].lo
    {
      p := p - 1;
    }
  }

  method SortByLow(ranges: seq<Range>) returns (rs: seq<Range>)
    ensures SortedByLow(rs) && multiset(rs) == multiset(ranges)
  {
    rs := [];
    for i := 0 to |ranges|
      invariant SortedByLow(rs) && multiset(rs) == multiset(ranges[..i])
    {
      var p := FindSlot(rs, ranges[i]);
      InsertSorted(rs, p, ranges[i]);
      InsertBag(rs, p, ranges[i]);
      rs := rs[..p] + [ranges[i]] + rs[p..];
      assert ranges[..i + 1] == ranges[..i] + [ranges[i]];
    }
    assert ranges[..|ranges|] == ranges;
  }

  lemma SameBagSameHas(a: seq<Range>, b: seq<Range>, x: int)
    requires multiset(a) == multiset(b)
    ensures Has(a, x) ==> Has(b, x)
  {
    if Has(a, x) {
      var i :| 0 <= i < |a| && a[i].lo <= x < a[i].hi;
      assert a[i] in multiset(b);
      var j :| 0 <= j < |b| && b[j] == a[i];
    }
  }

  lemma ExtendLast(m: seq<Range>, hi: int, x: int)
    requires m != [] && m[|m| - 1].lo < m[|m| - 1].hi <= hi
    ensures Has(m[|m| - 1 := Range(m[|m| - 1].lo, hi)], x) <==> Has(m, x) || m[|m| - 1].lo <= x < hi
  {
    var l := |m| - 1;
    var n := m[l := Range(m[l].lo, hi)];
    if Has(m, x) {
      var i :| 0 <= i < |m| && m[i].lo <= x < m[i].hi;
      assert n[i].lo <= x < n[i].hi;
    }
    if m[l].lo <= x < hi { assert n[l].lo <= x < n[l].hi; }
    if Has(n, x) && !(m[l].lo <= x < hi) {
      var i :| 0 <= i < |n| && n[i].lo <= x < n[i].hi;
      assert m[i] == n[i];
    }
  }

  /** The canonicalising loop: sort by lower bound, skip empty ranges, and extend the last
      range while the next one touches it. */
  method Canonicalize(ranges: seq<Range>) returns (m: seq<Range>)
    ensures m == Canon(ranges)
  {
    var rs := SortByLow(ranges);
    m := [];
    for i := 0 to |rs|
      invariant Normal(m)
      invariant forall x :: Has(m, x) <==> Has(rs[..i], x)
      invariant m != [] && i < |rs| ==> m[|m| - 1].lo <= rs[i].lo
    {
      var r := rs[i];
      var before := m;
      if r.lo >= r.hi {
      } else if m == [] || m[|m| - 1].hi < r.lo {
        m := m + [r];
      } else if m[|m| - 1].hi < r.hi {
        m := m[|m| - 1 := Range(m[|m| - 1].lo, r.hi)];
      }
      forall x ensures Has(m, x) <==> Has(rs[..i + 1], x) {
        StepHas(before, m, r, x);
        assert rs[..i + 1] == rs[..i] + [r];
        HasConcat(rs[..i], [r], x);
        HasCons(r, [], x);
        assert [r] + [] == [r];
      }
    }
    assert rs[..|rs|] == rs;
    forall x ensures Has(m, x) <==> Has(Canon(ranges), x) {
      CanonHas(ranges, x);
      SameBagSameHas(rs, ranges, x);
      SameBagSameHas(ranges, rs, x);
    }
    NormalFormIsUnique(m, Canon(ranges));
  }

  /** One round of the loop adds exactly the elements of its range. */
  lemma StepHas(m: seq<Range>, n: seq<Range>, r: Range, x: int)
    requires Normal(m) && (m != [] ==> m[|m| - 1].lo <= r.lo)
    requires r.lo >= r.hi ==> n == m
    requires r.lo < r.hi && (m == [] || m[|m| - 1].hi < r.lo) ==> n == m + [r]
    requires r.lo < r.hi && m != [] && m[|m| - 1].hi >= r.lo ==>
               n == if m[|m| - 1].hi < r.hi then m[|m| - 1 := Range(m[|m| - 1].lo, r.hi)] else m
    ensures Has(n, x) <==> Has(m, x) || r.lo <= x < r.hi
  {
    if r.lo < r.hi {
      if m == [] || m[|m| - 1].hi < r.lo {
        HasConcat(m, [r], x);
        HasCons(r, [], x);
        assert [r] + [] == [r];
      } else {
        var l := |m| - 1;
        if m[l].hi < r.hi { ExtendLast(m, r.hi, x); }
        if r.lo <= x < m[l].hi { assert m[l].lo <= x < m[l].hi; }
        if m[l].lo <= x < m[l].hi { assert Has(m, x); }
      }
    }
  }

  /** The containment loop over two lists in normal form: discard what ends before the next
      range of `b` starts; that range must then lie inside one range of `a`. */
  method ContainsAll(a: seq<Range>, b: seq<Range>) returns (yes: bool)
    requires Normal(a) && Normal(b)
    ensures yes <==> Contains(a, b)
  {
    var i := 0;
    for j := 0 to |b|
      invariant 0 <= i <= |a|
      invariant forall x :: Has(b[..j], x) ==> Has(a, x)
      invariant j < |b| ==> forall k :: 0 <= k < i ==> a[k].hi < b[j].lo
    {
      while i < |a| && a[i].hi < b[j].lo
        invariant 0 <= i <= |a|
        invariant forall k :: 0 <= k < i ==> a[k].hi < b[j].lo
      {
        i := i + 1;
      }
      if i == |a| || !(a[i].lo <= b[j].lo && b[j].hi <= a[i].hi) {
        NotInside(a, b[j], i);
        var x :| b[j].lo <= x < b[j].hi && !Has(a, x);
        assert Has(b, x);
        return false;
      }
      forall x | Has(b[..j + 1], x) ensures Has(a, x) {
        assert b[..j + 1] == b[..j] + [b[j]];
        HasConcat(b[..j], [b[j]], x);
        HasCons(b[j], [], x);
        assert [b[j]] + [] == [b[j]];
        if b[j].lo <= x < b[j].hi { assert a[i].lo <= x < a[i].hi; }
      }
    }
    assert b[..|b|] == b;
    return true;
  }

  /** A range that lies in no single range of a normal list has an element outside it. */
  lemma NotInside(a: seq<Range>, r: Range, i: nat)
    requires Normal(a) && r.lo < r.hi && i <= |a|
    requires forall k :: 0 <= k < i ==> a[k].hi < r.lo
    requires i < |a| ==> a[i].hi >= r.lo && !(a[i].lo <= r.lo && r.hi <= a[i].hi)
    ensures exists x :: r.lo <= x < r.hi && !Has(a, x)
  {
    var x := if i < |a| && a[i].lo <= r.lo then a[i].hi else r.lo;
    assert r.lo <= x < r.hi;
    assert !Has(a, x);
  }
}
