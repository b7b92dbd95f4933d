/** The Postgres repository: the `operations` and `deletions` tables and the statements
    that read and write them. A payload is modelled by what its bytes decode to. */
module Repository {
  import opened Wrappers
  import OpLog
  import opened Multirange

  const TWO_32 := 0x1_0000_0000
  const TWO_63 := 0x8000_0000_0000_0000
  const TWO_64 := 0x1_0000_0000_0000_0000

  type u32 = x: int | 0 <= x < TWO_32
  type u64 = x: int | 0 <= x < TWO_64
  type i64 = x: int | -TWO_63 <= x < TWO_63

  /** A `Range<u32>`; nothing in the type orders its bounds. */
  type URange = r: Range | 0 <= r.lo < TWO_32 && 0 <= r.hi < TWO_32 witness Range(0, 0)

  type DeletionSet = map<u64, seq<URange>>

  // ---------- conversions ----------

  /** `client_id as i64`: wraps. */
  function ClientToI64(c: u64): i64 { if c < TWO_63 then c else c - TWO_64 }

  /** `client_id as u64`. */
  function I64ToClient(i: i64): u64 { if i >= 0 then i else i + TWO_64 }

  /** `o as u32`: truncates. */
  function I64ToU32(i: int): u32 { i % TWO_32 }

  datatype Bound = Included(i: i64) | Excluded(i: i64) | Unbounded
  datatype PgRange = PgRange(start: Bound, end: Bound)

  function ToPg(r: URange): PgRange { PgRange(Included(r.lo), Excluded(r.hi)) }

  function FromPg(p: PgRange): URange {
    var start :=
      match p.start
      case Excluded(i) => I64ToU32(i + 1)
      case Included(i) => I64ToU32(i)
      case Unbounded => 0;
    var end :=
      match p.end
      case Excluded(i) => I64ToU32(i)
      case Included(i) => I64ToU32(i + 1)
      case Unbounded => TWO_32 - 1;
    Range(start, end)
  }

  /** The client-id casts keep the 64 bits, and are inverse to each other, so they identify nobody
      with another. */
  lemma ClientCastsRoundTrip(c: u64, i: i64)
    ensures I64ToClient(ClientToI64(c)) == c && ClientToI64(I64ToClient(i)) == i
    ensures (c - ClientToI64(c)) % TWO_64 == 0 && (I64ToClient(i) - i) % TWO_64 == 0
  {
  }

  lemma RangeRoundTrip(r: URange)
    ensures FromPg(ToPg(r)) == r
  {
  }

  predicate FromStart(p: PgRange, x: int) {
    match p.start case Included(i) => i <= x case Excluded(i) => i < x case Unbounded => true
  }

  predicate BeforeEnd(p: PgRange, x: int) {
    match p.end case Included(i) => x <= i case Excluded(i) => x < i case Unbounded => true
  }

  /** A range with bounds that fit is read as the clocks it denotes: every u32 but the largest,
      which no half-open u32 range can hold. */
  lemma FromPgHas(p: PgRange, x: int)
    requires !p.start.Unbounded? ==> 0 <= p.start.i < TWO_32 - 1
    requires !p.end.Unbounded? ==> 0 <= p.end.i < TWO_32 - 1
    requires 0 <= x < TWO_32 - 1
    ensures FromPg(p).lo <= x < FromPg(p).hi <==> FromStart(p, x) && BeforeEnd(p, x)
  {
  }

  /** The inclusive/exclusive round trip of an offset: the last clock of a non-empty range of
      u32 clocks, stored as i64, read back and incremented is the range's end again, without
      overflow; and stored offsets are ordered as the clocks are. */
  lemma OffsetRoundTrip(r: URange, other: URange)
    requires r.lo < r.hi && other.lo < other.hi
    ensures 0 <= r.hi - 1 < TWO_32
    ensures I64ToU32(r.hi - 1) + 1 == r.hi < TWO_32
    ensures I64ToU32(r.hi - 1) < I64ToU32(other.hi - 1) <==> r.hi < other.hi
  {
  }

  // ---------- tables ----------

  datatype OpRowKey = OpRowKey(topic: nat, client: i64, offset: i64)
  datatype OpRow = OpRow(user: nat, payload: OpLog.Payload)
  datatype DelKey = DelKey(topic: nat, client: i64)
  datatype DelRow = DelRow(user: nat, ranges: seq<Range>)
  type OpTable = map<OpRowKey, OpRow>
  type DelTable = map<DelKey, DelRow>

  datatype RepoError = FailedWrite | FailedRead

  ghost predicate ValidOps(t: OpTable) {
    forall k :: k in t ==> 0 <= k.offset < TWO_32
  }

  /** Every stored multirange is in normal form and came from u32 bounds. */
  ghost predicate ValidDels(t: DelTable) {
    forall k :: k in t ==> Normal(t[k].ranges) && Bounded(t[k].ranges)
  }

  predicate Bounded(m: seq<Range>) {
    forall i :: 0 <= i < |m| ==> 0 <= m[i].lo && m[i].hi < TWO_32
  }

  function LogKey(k: OpRowKey): OpLog.OpKey
    requires k.offset >= 0
  {
    OpLog.OpKey(I64ToClient(k.client), k.offset)
  }

  function RowKey(topic: nat, c: u64, o: u32): OpRowKey { OpRowKey(topic, ClientToI64(c), o) }

  /** The operations of one topic, as the protocol sees them. */
  ghost function TopicLog(t: OpTable, topic: nat): OpLog.Log
    requires ValidOps(t)
  {
    map lk | lk in (set k | k in t && k.topic == topic :: LogKey(k))
      :: t[RowKey(topic, lk.client, lk.offset)].payload
  }

  lemma TopicLogAt(t: OpTable, topic: nat, lk: OpLog.OpKey)
    requires ValidOps(t)
    ensures lk in TopicLog(t, topic) <==>
              lk.client < TWO_64 && lk.offset < TWO_32 && RowKey(topic, lk.client, lk.offset) in t
    ensures lk in TopicLog(t, topic) ==>
              TopicLog(t, topic)[lk] == t[RowKey(topic, lk.client, lk.offset)].payload
  {
    if lk.client < TWO_64 && lk.offset < TWO_32 && RowKey(topic, lk.client, lk.offset) in t {
      assert LogKey(RowKey(topic, lk.client, lk.offset)) == lk;
    }
  }

  function Put(t: OpTable, key: OpRowKey, row: OpRow): OpTable {
    if key in t then t else t[key := row]
  }

  /** On the topic's log, the insert is the protocol's `Insert`; on another's, nothing. */
  lemma PutIsInsert(t: OpTable, topic: nat, c: u64, o: u32, row: OpRow, other: nat)
    requires ValidOps(t)
    ensures var t' := Put(t, RowKey(topic, c, o), row);
            && ValidOps(t')
            && TopicLog(t', other) ==
                 if other == topic then OpLog.Insert(TopicLog(t, topic), OpLog.OpKey(c, o), row.payload)
                 else TopicLog(t, other)
  {
    var t' := Put(t, RowKey(topic, c, o), row);
    var want := if other == topic then OpLog.Insert(TopicLog(t, topic), OpLog.OpKey(c, o), row.payload)
                else TopicLog(t, other);
    forall lk
      ensures lk in TopicLog(t', other) <==> lk in want
      ensures lk in want ==> TopicLog(t', other)[lk] == want[lk]
    {
      TopicLogAt(t, other, lk);
      TopicLogAt(t', other, lk);
      TopicLogAt(t, topic, OpLog.OpKey(c, o));
    }
  }

  /** The inclusive/exclusive round trip through the table: after the row of a range of clocks is
      written under the range's last clock, the offset the server expects next is the range's end,
      or what it was if that is later. It stays a u32. */
  lemma ExpectedAfterPut(t: OpTable, topic: nat, c: u64, r: URange, row: OpRow)
    requires ValidOps(t) && r.lo < r.hi
    ensures ValidOps(Put(t, RowKey(topic, c, r.hi - 1), row))
    ensures var before := OpLog.Top(TopicLog(t, topic), c);
            var after := OpLog.Top(TopicLog(Put(t, RowKey(topic, c, r.hi - 1), row), topic), c);
            && after == (if before < r.hi then r.hi else before)
            && (before < TWO_32 ==> after < TWO_32)
  {
    var log, log' := TopicLog(t, topic), TopicLog(Put(t, RowKey(topic, c, r.hi - 1), row), topic);
    assert log' == OpLog.Insert(log, OpLog.OpKey(c, r.hi - 1), row.payload) by {
      PutIsInsert(t, topic, c, r.hi - 1, row, topic);
    }
    OpLog.TopAfterInsert(log, log', c, r.hi - 1, row.payload);
  }

  ghost predicate IsMax(t: OpTable, topic: nat, c: u64, max: Option<i64>) {
    && (max.Some? ==> OpRowKey(topic, ClientToI64(c), max.value) in t)
    && forall k :: k in t && k.topic == topic && k.client == ClientToI64(c) ==> max.Some? && k.offset <= max.value
  }

  lemma MaxIsLast(t: OpTable, topic: nat, c: u64, max: Option<i64>)
    requires ValidOps(t) && IsMax(t, topic, c, max)
    ensures OpLog.Last(TopicLog(t, topic), c) == if max.Some? then Some(I64ToU32(max.value)) else None
  {
    var m := OpLog.Last(TopicLog(t, topic), c);
    if m.Some? {
      TopicLogAt(t, topic, OpLog.OpKey(c, m.value));
      assert RowKey(topic, c, m.value) in t;
    }
    if max.Some? {
      TopicLogAt(t, topic, OpLog.OpKey(c, max.value));
    }
  }

  ghost predicate InTable(t: DelTable, topic: nat, c: u64, x: int) {
    var key := DelKey(topic, ClientToI64(c));
    key in t && Has(t[key].ranges, x)
  }

  predicate Deletes(ds: DeletionSet, c: u64, x: int) {
    c in ds && Has(ds[c], x)
  }

  // ---------- the deletion upsert ----------

  /** A row exists for a client as soon as one range, even an empty one, was sent for it. */
  predicate Touches(topic: nat, ds: DeletionSet, key: DelKey) {
    key.topic == topic && I64ToClient(key.client) in ds && ds[I64ToClient(key.client)] != []
  }

  function UpsertRow(t: DelTable, key: DelKey, user: nat, ranges: seq<Range>): DelRow {
    if key in t then t[key].(ranges := Union(t[key].ranges, Canon(ranges))) else DelRow(user, Canon(ranges))
  }

  ghost function Upsert(t: DelTable, topic: nat, user: nat, ds: DeletionSet): DelTable {
    var touched := set c | c in ds && ds[c] != [] :: DelKey(topic, ClientToI64(c));
    map key | key in t.Keys + touched ::
      if key in touched then UpsertRow(t, key, user, ds[I64ToClient(key.client)]) else t[key]
  }

  lemma UpsertRows(t: DelTable, topic: nat, user: nat, ds: DeletionSet, key: DelKey)
    ensures var t' := Upsert(t, topic, user, ds);
            && (key in t' <==> key in t || Touches(topic, ds, key))
            && (Touches(topic, ds, key) ==> t'[key] == UpsertRow(t, key, user, ds[I64ToClient(key.client)]))
            && (key in t && !Touches(topic, ds, key) ==> t'[key] == t[key])
  {
    if Touches(topic, ds, key) {
      ClientCastsRoundTrip(I64ToClient(key.client), key.client);
    }
  }

  /** Some row of the statement's RETURNING clause. */
  ghost predicate Novel(t: DelTable, topic: nat, ds: DeletionSet) {
    exists key :: Touches(topic, ds, key) &&
      (key !in t || !Contains(t[key].ranges, Canon(ds[I64ToClient(key.client)])))
  }

  /** The upsert is a join: a topic's stored deletions become the union of what they were
      and what was sent, and no other topic changes. */
  lemma UpsertIsUnion(t: DelTable, topic: nat, user: nat, ds: DeletionSet, other: nat, c: u64, x: int)
    ensures InTable(Upsert(t, topic, user, ds), other, c, x) <==>
              InTable(t, other, c, x) || (other == topic && Deletes(ds, c, x))
  {
    var key := DelKey(other, ClientToI64(c));
    ClientCastsRoundTrip(c, 0);
    UpsertRows(t, topic, user, ds, key);
    if c in ds {
      CanonHas(ds[c], x);
      if key in t { UnionHas(t[key].ranges, Canon(ds[c]), x); }
    }
  }

  /** The rows of the upsert: one for each client that was sent a range, by the user who first wrote
      it, and the others as they were. */
  lemma UpsertRowUsers(t: DelTable, topic: nat, user: nat, ds: DeletionSet, key: DelKey)
    ensures var t', sent := Upsert(t, topic, user, ds), I64ToClient(key.client);
            && (key in t' <==> key in t || (key.topic == topic && sent in ds && |ds[sent]| > 0))
            && (key in t ==> t'[key].user == t[key].user)
            && (key in t' && key !in t ==> t'[key].user == user)
            && (key in t && (key.topic != topic || sent !in ds || ds[sent] == []) ==> t'[key] == t[key])
  {
    UpsertRows(t, topic, user, ds, key);
  }

  /** Exactly when the statement reports novelty: when the stored deletions grow, or when a
      client that has no row yet is sent nothing but empty ranges. */
  lemma NovelExactly(t: DelTable, topic: nat, ds: DeletionSet)
    ensures Novel(t, topic, ds) <==>
              || (exists c: u64, x: int :: Deletes(ds, c, x) && !InTable(t, topic, c, x))
              || (exists c :: c in ds && ds[c] != [] && DelKey(topic, ClientToI64(c)) !in t && !HasAny(ds[c]))
  {
    if Novel(t, topic, ds) {
      var key :| Touches(topic, ds, key) &&
        (key !in t || !Contains(t[key].ranges, Canon(ds[I64ToClient(key.client)])));
      var c := I64ToClient(key.client);
      ClientCastsRoundTrip(c, key.client);
      if key in t {
        var x :| Has(Canon(ds[c]), x) && !Has(t[key].ranges, x);
        CanonHas(ds[c], x);
        assert Deletes(ds, c, x) && !InTable(t, topic, c, x);
      } else if HasAny(ds[c]) {
        var x :| Has(ds[c], x);
        assert Deletes(ds, c, x) && !InTable(t, topic, c, x);
      }
    }
    if c: u64, x: int :| Deletes(ds, c, x) && !InTable(t, topic, c, x) {
      var key := DelKey(topic, ClientToI64(c));
      ClientCastsRoundTrip(c, 0);
      CanonHas(ds[c], x);
      assert Touches(topic, ds, key);
    }
    if c :| c in ds && ds[c] != [] && DelKey(topic, ClientToI64(c)) !in t && !HasAny(ds[c]) {
      ClientCastsRoundTrip(c, 0);
      assert Touches(topic, ds, DelKey(topic, ClientToI64(c)));
    }
  }

  ghost predicate HasAny(m: seq<Range>) { exists x :: Has(m, x) }

  /** For the non-empty ranges of real updates the flag is true exactly when the stored
      deletions grow. */
  lemma NovelMeansGrowth(t: DelTable, topic: nat, ds: DeletionSet)
    requires forall c, i :: c in ds && 0 <= i < |ds[c]| ==> ds[c][i].lo < ds[c][i].hi
    ensures Novel(t, topic, ds) <==> exists c: u64, x: int :: Deletes(ds, c, x) && !InTable(t, topic, c, x)
  {
    NovelExactly(t, topic, ds);
    forall c | c in ds && ds[c] != [] ensures HasAny(ds[c]) {
      assert Has(ds[c], ds[c][0].lo);
    }
  }

  /** An empty range makes the flag true although nothing was deleted. */
  lemma EmptyRangeIsReportedNovel()
    ensures var ds: DeletionSet := map[7 := [Range(3, 3)]];
            Novel(map[], 0, ds) && !exists c: u64, x: int :: Deletes(ds, c, x)
  {
    var ds: DeletionSet := map[7 := [Range(3, 3)]];
    assert Touches(0, ds, DelKey(0, 7));
  }

  lemma BoundedByElements(m: seq<Range>)
    requires Normal(m) && forall x :: Has(m, x) ==> 0 <= x < TWO_32 - 1
    ensures Bounded(m)
  {
    forall i | 0 <= i < |m| ensures 0 <= m[i].lo && m[i].hi < TWO_32 {
      assert Has(m, m[i].lo) && Has(m, m[i].hi - 1);
    }
  }

  lemma UpsertRowValid(t: DelTable, key: DelKey, user: nat, ranges: seq<URange>)
    requires ValidDels(t)
    ensures Normal(UpsertRow(t, key, user, ranges).ranges) && Bounded(UpsertRow(t, key, user, ranges).ranges)
  {
    var m := UpsertRow(t, key, user, ranges).ranges;
    forall x | Has(m, x) ensures 0 <= x < TWO_32 - 1 {
      CanonHas(ranges, x);
      if key in t { UnionHas(t[key].ranges, Canon(ranges), x); }
    }
    BoundedByElements(m);
  }

  lemma UpsertValid(t: DelTable, topic: nat, user: nat, ds: DeletionSet)
    requires ValidDels(t)
    ensures ValidDels(Upsert(t, topic, user, ds))
  {
    forall key | key in Upsert(t, topic, user, ds)
      ensures Normal(Upsert(t, topic, user, ds)[key].ranges) && Bounded(Upsert(t, topic, user, ds)[key].ranges)
    {
      UpsertRows(t, topic, user, ds, key);
      if Touches(topic, ds, key) { UpsertRowValid(t, key, user, ds[I64ToClient(key.client)]); }
    }
  }

  // ---------- order and repetition of writes ----------

  datatype Write = Write(user: nat, ds: DeletionSet)

  ghost function Replay(topic: nat, ws: seq<Write>): DelTable {
    if ws == [] then map[]
    else Upsert(Replay(topic, ws[..|ws| - 1]), topic, ws[|ws| - 1].user, ws[|ws| - 1].ds)
  }

  ghost predicate SomeWriteTouches(topic: nat, ws: seq<Write>, key: DelKey) {
    exists w :: w in ws && Touches(topic, w.ds, key)
  }

  ghost predicate SomeWriteDeletes(ws: seq<Write>, c: u64, x: int) {
    exists w :: w in ws && Deletes(w.ds, c, x)
  }

  /** What a history of writes leaves: a normal row per client sent, denoting the union of
      everything ever sent for it. */
  lemma {:induction false} ReplayIsUnion(topic: nat, ws: seq<Write>, c: u64, x: int)
    ensures ValidDels(Replay(topic, ws))
    ensures DelKey(topic, ClientToI64(c)) in Replay(topic, ws) <==>
              SomeWriteTouches(topic, ws, DelKey(topic, ClientToI64(c)))
    ensures InTable(Replay(topic, ws), topic, c, x) <==> SomeWriteDeletes(ws, c, x)
  {
    if ws != [] {
      var front, w := ws[..|ws| - 1], ws[|ws| - 1];
      assert ws == front + [w];
      ReplayIsUnion(topic, front, c, x);
      UpsertIsUnion(Replay(topic, front), topic, w.user, w.ds, topic, c, x);
      UpsertRows(Replay(topic, front), topic, w.user, w.ds, DelKey(topic, ClientToI64(c)));
      UpsertValid(Replay(topic, front), topic, w.user, w.ds);
      assert w in ws;
    }
  }

  /** Order and repetition of deletion writes do not matter: two histories made of the same
      writes leave the same ranges in the same rows. */
  lemma ReplayIgnoresOrder(topic: nat, a: seq<Write>, b: seq<Write>, c: u64)
    requires forall w :: w in a <==> w in b
    ensures var key := DelKey(topic, ClientToI64(c));
            && (key in Replay(topic, a) <==> key in Replay(topic, b))
            && (key in Replay(topic, a) ==> Replay(topic, a)[key].ranges == Replay(topic, b)[key].ranges)
  {
    var key := DelKey(topic, ClientToI64(c));
    ReplayIsUnion(topic, a, c, 0);
    ReplayIsUnion(topic, b, c, 0);
    assert SomeWriteTouches(topic, a, key) <==> SomeWriteTouches(topic, b, key);
    if key in Replay(topic, a) {
      var m, n := Replay(topic, a)[key].ranges, Replay(topic, b)[key].ranges;
      forall x ensures Has(m, x) <==> Has(n, x) {
        ReplayIsUnion(topic, a, c, x);
        ReplayIsUnion(topic, b, c, x);
        assert SomeWriteDeletes(a, c, x) <==> SomeWriteDeletes(b, c, x);
      }
      NormalFormIsUnique(m, n);
    }
  }

  // ---------- the flattened statement ----------

  /** The ranges of one id among the two parallel arrays, in order. */
  function RangesFor(ids: seq<i64>, ranges: seq<URange>, id: i64): seq<URange>
    requires |ids| == |ranges|
  {
    if ids == [] then []
    else
      var n := |ids| - 1;
      RangesFor(ids[..n], ranges[..n], id) + if ids[n] == id then [ranges[n]] else []
  }

  lemma RangesForPush(ids: seq<i64>, ranges: seq<URange>, id: i64, r: URange, other: i64)
    requires |ids| == |ranges|
    ensures RangesFor(ids + [id], ranges + [r], other) ==
              RangesFor(ids, ranges, other) + if id == other then [r] else []
  {
    assert (ids + [id])[..|ids|] == ids && (ranges + [r])[..|ranges|] == ranges;
  }

  lemma {:induction false} RangesForNone(ids: seq<i64>, ranges: seq<URange>, id: i64)
    requires |ids| == |ranges|
    ensures RangesFor(ids, ranges, id) == [] <==> id !in ids
  {
    if ids != [] {
      RangesForNone(ids[..|ids| - 1], ranges[..|ids| - 1], id);
      assert ids == ids[..|ids| - 1] + [ids[|ids| - 1]];
    }
  }

  function Repeat(id: i64, n: nat): seq<i64> { seq(n, _ => id) }

  lemma {:induction false} RangesForAppend(ids: seq<i64>, ranges: seq<URange>, id: i64, rs: seq<URange>, other: i64)
    requires |ids| == |ranges|
    ensures RangesFor(ids + Repeat(id, |rs|), ranges + rs, other) ==
              RangesFor(ids, ranges, other) + if id == other then rs else []
  {
    if rs == [] {
      assert ids + Repeat(id, 0) == ids && ranges + rs == ranges;
    } else {
      var n := |rs| - 1;
      RangesForAppend(ids, ranges, id, rs[..n], other);
      RangesForPush(ids + Repeat(id, n), ranges + rs[..n], id, rs[n], other);
      assert ids + Repeat(id, |rs|) == ids + Repeat(id, n) + [id];
      assert rs == rs[..n] + [rs[n]];
      assert ranges + rs == ranges + rs[..n] + [rs[n]];
    }
  }

  lemma OneMore(ids: seq<i64>, ranges: seq<URange>, id: i64, rs: seq<URange>, j: nat)
    requires j < |rs|
    ensures ids + Repeat(id, j) + [id] == ids + Repeat(id, j + 1)
    ensures ranges + rs[..j] + [rs[j]] == ranges + rs[..j + 1]
  {
    assert Repeat(id, j) + [id] == Repeat(id, j + 1);
  }

  /** The two arrays hold the ranges of every client but those in `todo`. */
  ghost predicate Flattened(ds: DeletionSet, ids: seq<i64>, ranges: seq<URange>, todo: set<u64>) {
    && |ids| == |ranges|
    && (forall c :: c in ds ==> RangesFor(ids, ranges, ClientToI64(c)) == if c in todo then [] else ds[c])
    && (forall id :: id in ids ==> I64ToClient(id) in ds)
  }

  lemma FlattenedOne(ds: DeletionSet, ids: seq<i64>, ranges: seq<URange>, todo: set<u64>, c: u64, d: u64)
    requires |ids| == |ranges| && c in todo && c in ds && d in ds
    requires forall e :: e in {c, d} ==> RangesFor(ids, ranges, ClientToI64(e)) == if e in todo then [] else ds[e]
    ensures RangesFor(ids + Repeat(ClientToI64(c), |ds[c]|), ranges + ds[c], ClientToI64(d)) ==
              if d in todo - {c} then [] else ds[d]
  {
    RangesForAppend(ids, ranges, ClientToI64(c), ds[c], ClientToI64(d));
    SameClient(c, d);
    assert c in {c, d} && d in {c, d};
  }

  lemma RepeatIds(ids: seq<i64>, id: i64, n: nat, other: i64)
    requires other in ids + Repeat(id, n)
    ensures other in ids || other == id
  {
    if other !in ids { assert other in Repeat(id, n); }
  }

  lemma FlattenedGrows(ds: DeletionSet, ids: seq<i64>, ranges: seq<URange>, todo: set<u64>, c: u64)
    requires Flattened(ds, ids, ranges, todo) && c in todo && c in ds
    ensures Flattened(ds, ids + Repeat(ClientToI64(c), |ds[c]|), ranges + ds[c], todo - {c})
  {
    var ids', ranges' := ids + Repeat(ClientToI64(c), |ds[c]|), ranges + ds[c];
    forall d | d in ds ensures RangesFor(ids', ranges', ClientToI64(d)) == if d in todo - {c} then [] else ds[d] {
      FlattenedOne(ds, ids, ranges, todo, c, d);
    }
    forall id | id in ids' ensures I64ToClient(id) in ds {
      RepeatIds(ids, ClientToI64(c), |ds[c]|, id);
      ClientCastsRoundTrip(c, 0);
    }
  }

  lemma SameClient(c: u64, d: u64)
    ensures ClientToI64(c) == ClientToI64(d) <==> c == d
  {
  }

  lemma {:induction false} SentRange(ids: seq<i64>, ranges: seq<URange>, r: URange)
    requires |ids| == |ranges|
    ensures r in ranges <==> exists id :: id in ids && r in RangesFor(ids, ranges, id)
  {
    if ids != [] {
      var n := |ids| - 1;
      SentRange(ids[..n], ranges[..n], r);
      assert ids == ids[..n] + [ids[n]] && ranges == ranges[..n] + [ranges[n]];
      if r in ranges[..n] {
        var id :| id in ids[..n] && r in RangesFor(ids[..n], ranges[..n], id);
        assert r in RangesFor(ids, ranges, id);
      }
      if r == ranges[n] { assert r in RangesFor(ids, ranges, ids[n]); }
      if id :| id in ids && r in RangesFor(ids, ranges, id) {
        RangesForNone(ids[..n], ranges[..n], id);
      }
    }
  }

  /** What is sent is what the deletion set holds. */
  lemma SentRanges(ds: DeletionSet, ids: seq<i64>, ranges: seq<URange>)
    requires Flattened(ds, ids, ranges, {})
    ensures forall r :: r in ranges <==> exists c :: c in ds && r in ds[c]
  {
    forall r: URange ensures r in ranges <==> exists c :: c in ds && r in ds[c] {
      SentRange(ids, ranges, r);
      if r in ranges {
        var id :| id in ids && r in RangesFor(ids, ranges, id);
        ClientCastsRoundTrip(0, id);
        assert r in ds[I64ToClient(id)];
      }
      if c :| c in ds && r in ds[c] {
        RangesForNone(ids, ranges, ClientToI64(c));
      }
    }
  }

  /** The table after the groups in `done` have been upserted. */
  ghost function UpsertGroups(t: DelTable, topic: nat, user: nat,
                              ids: seq<i64>, ranges: seq<URange>, done: set<i64>): DelTable
    requires |ids| == |ranges|
  {
    map key | key in t.Keys + (set id | id in done :: DelKey(topic, id)) ::
      if key.topic == topic && key.client in done
      then UpsertRow(t, key, user, RangesFor(ids, ranges, key.client)) else t[key]
  }

  lemma GroupRows(t: DelTable, topic: nat, user: nat, ids: seq<i64>, ranges: seq<URange>, done: set<i64>, key: DelKey)
    requires |ids| == |ranges|
    ensures var g := UpsertGroups(t, topic, user, ids, ranges, done);
            var touched := key.topic == topic && key.client in done;
            && (key in g <==> key in t || touched)
            && (touched ==> g[key] == UpsertRow(t, key, user, RangesFor(ids, ranges, key.client)))
            && (key in t && !touched ==> g[key] == t[key])
  {
    if key.topic == topic { assert key == DelKey(topic, key.client); }
  }

  function AllIds(ids: seq<i64>): set<i64> { set id | id in ids }

  ghost predicate GroupIsNovel(t: DelTable, topic: nat, ids: seq<i64>, ranges: seq<URange>, id: i64)
    requires |ids| == |ranges|
  {
    var key := DelKey(topic, id);
    key !in t || !Contains(t[key].ranges, Canon(RangesFor(ids, ranges, id)))
  }

  lemma GroupsStart(t: DelTable, topic: nat, user: nat, ids: seq<i64>, ranges: seq<URange>)
    requires |ids| == |ranges|
    ensures UpsertGroups(t, topic, user, ids, ranges, {}) == t && !SomeNovel(t, topic, ids, ranges, {})
  {
  }

  lemma GroupGrows(t: DelTable, topic: nat, user: nat, ids: seq<i64>, ranges: seq<URange>, done: set<i64>, id: i64,
                   k: DelKey)
    requires |ids| == |ranges| && id !in done
    ensures var key, g := DelKey(topic, id), UpsertGroups(t, topic, user, ids, ranges, done);
            var g' := UpsertGroups(t, topic, user, ids, ranges, done + {id});
            && (k in g' <==> k in g || k == key)
            && (k in g' ==> g'[k] == if k == key then UpsertRow(g, key, user, RangesFor(ids, ranges, id)) else g[k])
  {
    GroupRows(t, topic, user, ids, ranges, done, k);
    GroupRows(t, topic, user, ids, ranges, done + {id}, k);
  }

  lemma GroupsGrow(t: DelTable, topic: nat, user: nat, ids: seq<i64>, ranges: seq<URange>, done: set<i64>, id: i64)
    requires |ids| == |ranges| && id !in done
    ensures var key, g := DelKey(topic, id), UpsertGroups(t, topic, user, ids, ranges, done);
            var group := RangesFor(ids, ranges, id);
            && UpsertGroups(t, topic, user, ids, ranges, done + {id}) == g[key := UpsertRow(g, key, user, group)]
            && (GroupIsNovel(t, topic, ids, ranges, id) <==> key !in g || !Contains(g[key].ranges, Canon(group)))
  {
    var key := DelKey(topic, id);
    var g := UpsertGroups(t, topic, user, ids, ranges, done);
    var g' := UpsertGroups(t, topic, user, ids, ranges, done + {id});
    GroupRows(t, topic, user, ids, ranges, done, key);
    var want := g[key := UpsertRow(g, key, user, RangesFor(ids, ranges, id))];
    forall k: DelKey ensures (k in g' <==> k in want) && (k in g' ==> g'[k] == want[k]) {
      GroupGrows(t, topic, user, ids, ranges, done, id, k);
    }
    SameMap(g', want);
  }

  lemma SameRow(t: DelTable, topic: nat, user: nat, ds: DeletionSet, ids: seq<i64>, ranges: seq<URange>, key: DelKey)
    requires Flattened(ds, ids, ranges, {})
    ensures var g, u := UpsertGroups(t, topic, user, ids, ranges, AllIds(ids)), Upsert(t, topic, user, ds);
            (key in g <==> key in u) && (key in g ==> g[key] == u[key])
  {
    UpsertRows(t, topic, user, ds, key);
    GroupRows(t, topic, user, ids, ranges, AllIds(ids), key);
    GroupIsTouched(topic, ds, ids, ranges, key);
  }

  lemma SameMap(a: DelTable, b: DelTable)
    requires forall key :: (key in a <==> key in b) && (key in a ==> a[key] == b[key])
    ensures a == b
  {
  }

  /** All groups together are the upsert of the deletion set. */
  lemma AllGroups(t: DelTable, topic: nat, user: nat, ds: DeletionSet, ids: seq<i64>, ranges: seq<URange>)
    requires Flattened(ds, ids, ranges, {})
    ensures UpsertGroups(t, topic, user, ids, ranges, AllIds(ids)) == Upsert(t, topic, user, ds)
  {
    var g, u := UpsertGroups(t, topic, user, ids, ranges, AllIds(ids)), Upsert(t, topic, user, ds);
    forall key: DelKey ensures (key in g <==> key in u) && (key in g ==> g[key] == u[key]) {
      SameRow(t, topic, user, ds, ids, ranges, key);
    }
    SameMap(g, u);
  }

  lemma GroupIsTouched(topic: nat, ds: DeletionSet, ids: seq<i64>, ranges: seq<URange>, key: DelKey)
    requires Flattened(ds, ids, ranges, {})
    ensures Touches(topic, ds, key) <==> key.topic == topic && key.client in ids
    ensures key.client in ids ==> RangesFor(ids, ranges, key.client) == ds[I64ToClient(key.client)]
  {
    ClientCastsRoundTrip(0, key.client);
    RangesForNone(ids, ranges, key.client);
  }

  // ---------- the repository ----------

  class PgRepo {
    var operations: OpTable
    var deletions: DelTable

    ghost predicate Valid()
      reads this
    {
      ValidOps(operations) && ValidDels(deletions)
    }

    constructor ()
      ensures Valid() && operations == map[] && deletions == map[]
    {
      operations, deletions := map[], map[];
    }

    /** First write wins on (topic, client, offset). On its topic's log this is `Insert`. */
    method WriteOperation(topic: nat, user: nat, client: u64, offset: u32, payload: OpLog.Payload)
      requires Valid()
      modifies this`operations
      ensures Valid()
      ensures operations == Put(old(operations), RowKey(topic, client, offset), OpRow(user, payload))
      ensures var key := OpRowKey(topic, ClientToI64(client), offset);
              && key in operations && (key !in old(operations) ==> operations[key] == OpRow(user, payload))
              && (forall k :: k in operations ==> k == key || k in old(operations))
              && (forall k :: k in old(operations) ==> k in operations && operations[k] == old(operations)[k])
      ensures forall other :: TopicLog(operations, other) ==
                if other == topic
                then OpLog.Insert(old(TopicLog(operations, topic)), OpLog.OpKey(client, offset), payload)
                else old(TopicLog(operations, other))
    {
      var key := OpRowKey(topic, ClientToI64(client), offset);
      forall other { PutIsInsert(operations, topic, client, offset, OpRow(user, payload), other); }
      if key !in operations {
        operations := operations[key := OpRow(user, payload)];
      }
    }

    /** MAX over the client's rows of the topic, cast back to u32. */
    method ReadLastReceivedOffset(topic: nat, client: u64) returns (last: Option<u32>)
      requires Valid()
      ensures last == OpLog.Last(TopicLog(operations, topic), client)
    {
      var todo := operations.Keys;
      var max: Option<i64> := None;
      while todo != {}
        invariant todo <= operations.Keys
        invariant max.Some? ==> OpRowKey(topic, ClientToI64(client), max.value) in operations
        invariant forall k :: k in operations && k !in todo && k.topic == topic && k.client == ClientToI64(client)
                    ==> max.Some? && k.offset <= max.value
        decreases |todo|
      {
        var k :| k in todo;
        if k.topic == topic && k.client == ClientToI64(client) && (max.None? || max.value < k.offset) {
          max := Some(k.offset);
        }
        todo := todo - {k};
      }
      MaxIsLast(operations, topic, client, max);
      last := if max.Some? then Some(I64ToU32(max.value)) else None;
    }

    /** The left join: rows of clients the vector does not name, and rows at or above it. */
    function ReadOperationsAfter(sv: map<u64, u32>, topic: nat): (rows: OpTable)
      reads this
      ensures forall k :: k in rows <==>
                k in operations && k.topic == topic &&
                (I64ToClient(k.client) in sv ==> k.offset >= sv[I64ToClient(k.client)])
      ensures forall k :: k in rows ==> rows[k] == operations[k]
    {
      var rows := map k | k in operations && k.topic == topic &&
            ((forall c :: c in sv ==> ClientToI64(c) != k.client) ||
             (exists c :: c in sv && ClientToI64(c) == k.client && k.offset >= sv[c]))
          :: operations[k];
      assert forall c: u64, i: i64 :: ClientToI64(c) == i <==> c == I64ToClient(i) by {
        forall c: u64, i: i64 ensures ClientToI64(c) == i <==> c == I64ToClient(i) { ClientCastsRoundTrip(c, i); }
      }
      rows
    }

    lemma ChosenIsSelected(sv: map<u64, u32>, topic: nat, lk: OpLog.OpKey)
      requires Valid() && lk in TopicLog(operations, topic) && OpLog.Chosen(sv, lk)
      ensures lk.client < TWO_64 && lk.offset < TWO_32
      ensures var k := RowKey(topic, lk.client, lk.offset);
              && k in ReadOperationsAfter(sv, topic) && I64ToClient(k.client) == lk.client
              && operations[k].payload == TopicLog(operations, topic)[lk]
    {
      TopicLogAt(operations, topic, lk);
      ClientCastsRoundTrip(lk.client, 0);
    }

    lemma SelectedIsChosen(sv: map<u64, u32>, topic: nat, k: OpRowKey)
      requires Valid() && k in ReadOperationsAfter(sv, topic)
      ensures LogKey(k) in TopicLog(operations, topic) && OpLog.Chosen(sv, LogKey(k))
      ensures TopicLog(operations, topic)[LogKey(k)] == operations[k].payload
    {
      ClientCastsRoundTrip(0, k.client);
      TopicLogAt(operations, topic, LogKey(k));
    }

    /** The rows read are the ones the protocol's step two merges. */
    lemma SelectedRows(sv: map<u64, u32>, topic: nat, i: OpLog.Id)
      requires Valid()
      ensures i in OpLog.IdsAfter(TopicLog(operations, topic), sv) <==>
                exists k :: k in ReadOperationsAfter(sv, topic) &&
                            i in OpLog.Ids(I64ToClient(k.client), operations[k].payload)
    {
      var log := TopicLog(operations, topic);
      if i in OpLog.IdsAfter(log, sv) {
        var lk :| lk in log && OpLog.Chosen(sv, lk) && i in OpLog.Ids(lk.client, log[lk]);
        ChosenIsSelected(sv, topic, lk);
        var k := RowKey(topic, lk.client, lk.offset);
        assert i in OpLog.Ids(I64ToClient(k.client), operations[k].payload);
      }
      if k :| k in ReadOperationsAfter(sv, topic) && i in OpLog.Ids(I64ToClient(k.client), operations[k].payload) {
        SelectedIsChosen(sv, topic, k);
      }
    }

    /** The inner loop: one client's ranges pushed onto the two arrays. */
    method PushRanges(c: u64, rs: seq<URange>, ids0: seq<i64>, ranges0: seq<URange>)
      returns (ids: seq<i64>, ranges: seq<URange>)
      ensures ids == ids0 + Repeat(ClientToI64(c), |rs|) && ranges == ranges0 + rs
    {
      ids, ranges := ids0, ranges0;
      for j := 0 to |rs|
        invariant ids == ids0 + Repeat(ClientToI64(c), j) && ranges == ranges0 + rs[..j]
      {
        OneMore(ids0, ranges0, ClientToI64(c), rs, j);
        ids := ids + [ClientToI64(c)];
        ranges := ranges + [rs[j]];
      }
      assert rs[..|rs|] == rs;
    }

    /** Flatten the map into two parallel arrays. */
    method Flatten(ds: DeletionSet) returns (ids: seq<i64>, ranges: seq<URange>)
      ensures Flattened(ds, ids, ranges, {})
    {
      ids, ranges := [], [];
      var todo := ds.Keys;
      while todo != {}
        invariant todo <= ds.Keys && Flattened(ds, ids, ranges, todo)
        decreases |todo|
      {
        var c :| c in todo;
        FlattenedGrows(ds, ids, ranges, todo, c);
        ids, ranges := PushRanges(c, ds[c], ids, ranges);
        todo := todo - {c};
      }
    }

    /** One statement: aggregate each client's ranges, insert a missing row, and add to an
        existing row that does not contain them. A range whose bounds are inverted is an
        error and leaves the table alone. */
    method WriteDeletionSetIfNovel(topic: nat, user: nat, ds: DeletionSet) returns (r: Result<bool, RepoError>)
      requires Valid()
      modifies this`deletions
      ensures Valid()
      ensures r.Err? <==> exists c, x :: c in ds && x in ds[c] && x.lo > x.hi
      ensures r.Err? ==> deletions == old(deletions)
      ensures r.Ok? ==> deletions == Upsert(old(deletions), topic, user, ds)
      ensures r.Ok? ==> (r.value <==> Novel(old(deletions), topic, ds))
    {
      var ids, ranges := Flatten(ds);
      SentRanges(ds, ids, ranges);
      if exists x :: x in ranges && x.lo > x.hi {
        return Err(FailedWrite);
      }
      AllGroups(deletions, topic, user, ds, ids, ranges);
      UpsertValid(deletions, topic, user, ds);
      var novel := UpsertAll(topic, user, ids, ranges);
      r := Ok(novel);
      NovelByGroups(old(deletions), topic, ds, ids, ranges);
    }

    /** One group: insert the missing row, or add to an existing one that does not contain it. */
    method UpsertGroup(key: DelKey, user: nat, group: seq<URange>) returns (novel: bool)
      requires Valid()
      modifies this`deletions
      ensures Valid()
      ensures deletions == old(deletions)[key := UpsertRow(old(deletions), key, user, group)]
      ensures novel <==> key !in old(deletions) || !Contains(old(deletions)[key].ranges, Canon(group))
    {
      UpsertRowValid(deletions, key, user, group);
      var merged := Canonicalize(group);
      if key !in deletions {
        deletions := deletions[key := DelRow(user, merged)];
        return true;
      }
      var contained := ContainsAll(deletions[key].ranges, merged);
      UnionIsIdle(deletions[key].ranges, merged);
      if !contained {
        var sum := Canonicalize(deletions[key].ranges + merged);
        deletions := deletions[key := deletions[key].(ranges := sum)];
      }
      novel := !contained;
      assert deletions[key] == UpsertRow(old(deletions), key, user, group);
    }

    method UpsertAll(topic: nat, user: nat, ids: seq<i64>, ranges: seq<URange>) returns (novel: bool)
      requires Valid() && |ids| == |ranges|
      modifies this`deletions
      ensures deletions == UpsertGroups(old(deletions), topic, user, ids, ranges, AllIds(ids))
      ensures novel <==> SomeNovel(old(deletions), topic, ids, ranges, AllIds(ids))
    {
      ghost var t0, all, done := deletions, AllIds(ids), {};
      var todo := AllIds(ids);
      novel := false;
      GroupsStart(t0, topic, user, ids, ranges);
      while todo != {}
        invariant todo <= all && done == all - todo
        invariant deletions == UpsertGroups(t0, topic, user, ids, ranges, done) && Valid()
        invariant novel <==> SomeNovel(t0, topic, ids, ranges, done)
        decreases |todo|
      {
        var id :| id in todo;
        GroupsGrow(t0, topic, user, ids, ranges, done, id);
        SomeNovelStep(t0, topic, ids, ranges, done, id);
        var one := UpsertGroup(DelKey(topic, id), user, RangesFor(ids, ranges, id));
        novel := novel || one;
        todo, done := todo - {id}, done + {id};
      }
    }

    /** Unnest the topic's multiranges and collect them by client. */
    function ReadDocDeletionSet(topic: nat): (ds: DeletionSet)
      requires Valid()
      reads this
      ensures forall c: u64, x: int :: Deletes(ds, c, x) <==> InTable(deletions, topic, c, x)
      ensures forall c, i :: c in ds && 0 <= i < |ds[c]| ==> ds[c][i].lo < ds[c][i].hi
    {
      var ds := CollectByClient(deletions, topic);
      assert forall c: u64, x: int :: Deletes(ds, c, x) <==> InTable(deletions, topic, c, x) by {
        forall c: u64, x: int ensures Deletes(ds, c, x) <==> InTable(deletions, topic, c, x) {
          CollectedHas(deletions, topic, c, x);
        }
      }
      ds
    }
  }

  /** The records of a topic; an empty multirange yields none. */
  function CollectByClient(t: DelTable, topic: nat): (ds: DeletionSet)
    requires ValidDels(t)
    ensures forall c, i :: c in ds && 0 <= i < |ds[c]| ==> ds[c][i].lo < ds[c][i].hi
  {
    map c | c in (set k | k in t && k.topic == topic && t[k].ranges != [] :: I64ToClient(k.client))
      :: ReadBack(t[DelKey(topic, ClientToI64(c))].ranges)
  }

  lemma CollectedHas(t: DelTable, topic: nat, c: u64, x: int)
    requires ValidDels(t)
    ensures Deletes(CollectByClient(t, topic), c, x) <==> InTable(t, topic, c, x)
  {
    ClientCastsRoundTrip(c, 0);
    var key := DelKey(topic, ClientToI64(c));
    if key in t && t[key].ranges != [] { assert I64ToClient(key.client) == c; }
  }

  /** The stored ranges through `PgRange<i64>` back to `Range<u32>`. */
  function ReadBack(m: seq<Range>): (rs: seq<URange>)
    requires Normal(m) && Bounded(m)
    ensures rs == m
  {
    seq(|m|, i requires 0 <= i < |m| => FromPg(ToPg(Range(m[i].lo, m[i].hi))))
  }

  ghost predicate SomeNovel(t: DelTable, topic: nat, ids: seq<i64>, ranges: seq<URange>, done: set<i64>)
    requires |ids| == |ranges|
  {
    exists id :: id in done && GroupIsNovel(t, topic, ids, ranges, id)
  }

  lemma SomeNovelStep(t: DelTable, topic: nat, ids: seq<i64>, ranges: seq<URange>, done: set<i64>, id: i64)
    requires |ids| == |ranges|
    ensures SomeNovel(t, topic, ids, ranges, done + {id}) <==>
              SomeNovel(t, topic, ids, ranges, done) || GroupIsNovel(t, topic, ids, ranges, id)
  {
    if other :| other in done && GroupIsNovel(t, topic, ids, ranges, other) { assert other in done + {id}; }
    assert id in done + {id};
  }

  lemma NovelByGroups(t: DelTable, topic: nat, ds: DeletionSet, ids: seq<i64>, ranges: seq<URange>)
    requires Flattened(ds, ids, ranges, {})
    ensures Novel(t, topic, ds) <==> SomeNovel(t, topic, ids, ranges, AllIds(ids))
  {
    if Novel(t, topic, ds) {
      var key :| Touches(topic, ds, key) &&
        (key !in t || !Contains(t[key].ranges, Canon(ds[I64ToClient(key.client)])));
      GroupIsTouched(topic, ds, ids, ranges, key);
      assert GroupIsNovel(t, topic, ids, ranges, key.client);
    }
    if id :| id in AllIds(ids) && GroupIsNovel(t, topic, ids, ranges, id) {
      var key := DelKey(topic, id);
      GroupIsTouched(topic, ds, ids, ranges, key);
      assert Touches(topic, ds, key);
    }
  }
}
