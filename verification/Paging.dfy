/** The two list operations of the document service, and what following their cursors returns. */
module Paging {
  import opened Wrappers
  import opened DocumentEffects
  import opened DocumentTables
  import opened Keyset
  import opened PageSpec
  import ShiftedKeyset

  /** Where a cursor stands in the order of the keys. */
  function At(c: Cursor): Key { Key(c.time, c.id) }

  const DEFAULT_PAGE_SIZE := 10
  const MAX_PAGE_SIZE := 100
  const ALL_LEVELS := [0, 1, 2]

  // ---------- the beginning cursor ----------

  /** An id's bytes, the most significant first. */
  function IdValue(bytes: seq<int>): int {
    if bytes == [] then 0 else IdValue(bytes[..|bytes| - 1]) * 256 + bytes[|bytes| - 1]
  }

  predicate IsBytes(bytes: seq<int>) { forall i :: 0 <= i < |bytes| ==> 0 <= bytes[i] < 256 }

  lemma {:induction false} LargestBytes(bytes: seq<int>, full: seq<int>)
    requires |bytes| == |full| && IsBytes(bytes) && forall i :: 0 <= i < |full| ==> full[i] == 255
    ensures 0 <= IdValue(bytes) <= IdValue(full)
    decreases |bytes|
  {
    if bytes != [] {
      LargestBytes(bytes[..|bytes| - 1], full[..|full| - 1]);
    }
  }

  /** The order in which the database compares ids: by the first byte that differs. */
  ghost predicate FirstDiffers(a: seq<int>, b: seq<int>, k: nat) {
    k < |a| == |b| && a[..k] == b[..k] && a[k] < b[k]
  }

  lemma FrontDiffers(a: seq<int>, b: seq<int>)
    requires |a| == |b| > 0
    ensures var n := |a| - 1;
            (exists k: nat :: FirstDiffers(a, b, k)) <==>
              (exists k: nat :: FirstDiffers(a[..n], b[..n], k)) || (a[..n] == b[..n] && a[n] < b[n])
  {
    var n := |a| - 1;
    if k: nat :| FirstDiffers(a[..n], b[..n], k) {
      assert a[..k] == a[..n][..k] && b[..k] == b[..n][..k];
      assert FirstDiffers(a, b, k);
    }
    if a[..n] == b[..n] && a[n] < b[n] { assert FirstDiffers(a, b, n); }
    if k: nat :| FirstDiffers(a, b, k) {
      if k < n {
        assert a[..k] == a[..n][..k] && b[..k] == b[..n][..k];
        assert FirstDiffers(a[..n], b[..n], k);
      }
    }
  }

  /** It is the order of their values. */
  lemma {:induction false} IdOrder(a: seq<int>, b: seq<int>)
    requires |a| == |b| && IsBytes(a) && IsBytes(b)
    ensures IdValue(a) < IdValue(b) <==> exists k: nat :: FirstDiffers(a, b, k)
    ensures IdValue(a) == IdValue(b) <==> a == b
    decreases |a|
  {
    if a != [] {
      var n := |a| - 1;
      IdOrder(a[..n], b[..n]);
      FrontDiffers(a, b);
      assert a == a[..n] + [a[n]] && b == b[..n] + [b[n]];
    }
  }

  /** Sixteen bytes, each set to its largest value. */
  method MaxDocumentID() returns (bytes: array<int>)
    ensures fresh(bytes) && bytes.Length == 16 && IsBytes(bytes[..])
    ensures forall other: seq<int> :: |other| == 16 && IsBytes(other) ==> 0 <= IdValue(other) <= IdValue(bytes[..])
  {
    bytes := new int[16](_ => 0);
    for i := 0 to bytes.Length
      invariant forall j :: 0 <= j < i ==> bytes[j] == 255
    {
      bytes[i] := 0xff;
    }
    assert forall j :: 0 <= j < 16 ==> bytes[..][j] == 255;
    forall other: seq<int> | |other| == 16 && IsBytes(other) ensures 0 <= IdValue(other) <= IdValue(bytes[..]) {
      LargestBytes(other, bytes[..]);
    }
  }

  /** The cursor's id is one of sixteen bytes, and none is above it. */
  ghost predicate IsBeginning(c: Cursor, field: SortField, now: int) {
    && c.field == field && c.time == now
    && (exists bytes: seq<int> :: |bytes| == 16 && IsBytes(bytes) && IdValue(bytes) == c.id)
    && forall other: seq<int> :: |other| == 16 && IsBytes(other) ==> 0 <= IdValue(other) <= c.id
  }

  method NewBeginningCursor(field: SortField, now: int) returns (c: Cursor)
    ensures IsBeginning(c, field, now)
  {
    var bytes := MaxDocumentID();
    LargestBytes(bytes[..], seq(16, _ => 255));
    c := Cursor(field, now, IdValue(bytes[..]));
  }

  // ---------- the queries ----------

  function TimeOf(field: SortField, createdAt: int, lastModifiedAt: int): int {
    if field.CreatedAt? then createdAt else lastModifiedAt
  }

  predicate Matches(t: Tables, principal: Uuid, levels: seq<Level>, d: Uuid) {
    d in t.documents && (principal, d) in t.permissions && t.permissions[(principal, d)].level in levels
  }

  function DocumentKey(t: Tables, field: SortField, d: Uuid): Key
    requires d in t.documents
  {
    Key(TimeOf(field, t.documents[d].createdAt, t.documents[d].lastModifiedAt), d)
  }

  function DocumentKeys(t: Tables, principal: Uuid, levels: seq<Level>, field: SortField): set<Key> {
    set d | d in t.documents && Matches(t, principal, levels, d) :: DocumentKey(t, field, d)
  }

  predicate HasPermission(t: Tables, d: Uuid, levels: seq<Level>, u: Uuid) {
    (u, d) in t.permissions && t.permissions[(u, d)].level in levels
  }

  function PermissionKey(t: Tables, field: SortField, k: (Uuid, Uuid)): Key
    requires k in t.permissions
  {
    Key(TimeOf(field, t.permissions[k].createdAt, t.permissions[k].lastModifiedAt), k.0)
  }

  function PermissionKeys(t: Tables, d: Uuid, levels: seq<Level>, field: SortField): set<Key> {
    set k | k in t.permissions && HasPermission(t, d, levels, k.0) && k.1 == d :: PermissionKey(t, field, k)
  }

  /** All the levels of a filter, if each is one of the three. */
  function ParseLevels(permissions: seq<int>): Option<seq<Level>> {
    if forall i :: 0 <= i < |permissions| ==> ParseLevel(permissions[i]).Some? then
      Some(seq(|permissions|, i requires 0 <= i < |permissions| => ParseLevel(permissions[i]).value))
    else None
  }

  method ParseLevelsLoop(permissions: seq<int>) returns (levels: Option<seq<Level>>)
    ensures levels == ParseLevels(permissions)
  {
    var parsed := [];
    for i := 0 to |permissions|
      invariant |parsed| == i
      invariant forall j :: 0 <= j < i ==> ParseLevel(permissions[j]) == Some(parsed[j])
    {
      var level := ParseLevel(permissions[i]);
      if level.None? { return None; }
      parsed := parsed + [level.value];
    }
    assert ParseLevels(permissions).Some? && parsed == ParseLevels(permissions).value;
    levels := Some(parsed);
  }

  lemma LevelsMean(filter: seq<int>)
    ensures ParseLevels(filter).None? <==> BadFilter(filter)
    ensures ParseLevels(filter).Some? ==> forall l :: l in ParseLevels(filter).value <==> LevelCode(l) in filter
  {
    forall code: int, l: Level { ParseLevelCodes(code, l); }
    if ParseLevels(filter).None? {
      var i :| 0 <= i < |filter| && ParseLevel(filter[i]).None?;
      ParseLevelCodes(filter[i], Viewer);
      assert filter[i] in filter;
    } else {
      var levels := ParseLevels(filter).value;
      forall l ensures l in levels <==> LevelCode(l) in filter {
        if l in levels {
          var i :| 0 <= i < |levels| && levels[i] == l;
          assert filter[i] == LevelCode(l);
        }
        if LevelCode(l) in filter {
          var i :| 0 <= i < |filter| && filter[i] == LevelCode(l);
          assert levels[i] == l;
        }
      }
    }
  }

  /** The rows of a page in the order of their keys. */
  ghost predicate DocumentRows(t: Tables, principal: Uuid, field: SortField, keys: seq<Key>,
                               rows: seq<DocumentPermission>)
  {
    && |rows| == |keys|
    && forall i :: 0 <= i < |rows| ==> DocumentRowAt(t, principal, field, keys[i], rows[i])
  }

  ghost predicate DocumentRowAt(t: Tables, principal: Uuid, field: SortField, key: Key, row: DocumentPermission) {
    && row.id in t.documents && row.document == t.documents[row.id] && key == DocumentKey(t, field, row.id)
    && (principal, row.id) in t.permissions && row.level == t.permissions[(principal, row.id)].level
  }

  method ReadDocuments(t: Tables, principal: Uuid, levels: seq<Level>, cursor: Cursor, limit: nat)
    returns (rows: seq<DocumentPermission>)
    ensures var page := Select(DocumentKeys(t, principal, levels, cursor.field), At(cursor), limit);
            DocumentRows(t, principal, cursor.field, page, rows)
  {
    var rel := DocumentKeys(t, principal, levels, cursor.field);
    var keys := Select(rel, At(cursor), limit);
    SelectIsPage(rel, At(cursor), limit);
    rows := [];
    for i := 0 to |keys|
      invariant |rows| == i
      invariant forall j :: 0 <= j < i ==> DocumentRowAt(t, principal, cursor.field, keys[j], rows[j])
    {
      var d := keys[i].id;
      assert keys[i] in keys && keys[i] in rel;
      rows := rows + [DocumentPermission(d, t.documents[d], t.permissions[(principal, d)].level)];
    }
  }

  /** The rows of the query, each with its document and level, and the key of the last one as the
      next cursor, or the old cursor if there is none. */
  ghost predicate IsDocumentPage(t: Tables, principal: Uuid, levels: seq<Level>, c: Cursor, n: nat,
                                 r: (seq<DocumentPermission>, Cursor))
  {
    var page := Select(DocumentKeys(t, principal, levels, c.field), At(c), n);
    DocumentRows(t, principal, c.field, page, r.0) && r.1.field == c.field && At(r.1) == Next(At(c), page)
  }

  lemma DocumentRowsShown(t: Tables, principal: Uuid, filter: seq<int>, c: Cursor, n: nat,
                          r: (seq<DocumentPermission>, Cursor))
    requires ParseLevels(filter).Some? && IsDocumentPage(t, principal, ParseLevels(filter).value, c, n, r)
    ensures |r.0| <= n
    ensures forall i :: 0 <= i < |r.0| ==> ShowsDocument(t, principal, filter, c, r.0[i])
    ensures forall i :: 0 < i < |r.0| ==> DocumentBelow(c.field, r.0[i], r.0[i - 1])
  {
    var rel := DocumentKeys(t, principal, ParseLevels(filter).value, c.field);
    var page, rows := Select(rel, At(c), n), r.0;
    LevelsMean(filter);
    SelectIsPage(rel, At(c), n);
    forall i | 0 <= i < |rows| ensures ShowsDocument(t, principal, filter, c, rows[i]) {
      assert DocumentRowAt(t, principal, c.field, page[i], rows[i]);
      assert page[i] in page;
    }
    forall i | 0 < i < |rows| ensures DocumentBelow(c.field, rows[i], rows[i - 1]) {
      assert DocumentRowAt(t, principal, c.field, page[i], rows[i]);
      assert DocumentRowAt(t, principal, c.field, page[i - 1], rows[i - 1]);
    }
  }

  lemma DocumentFound(t: Tables, principal: Uuid, filter: seq<int>, c: Cursor, n: nat,
                      r: (seq<DocumentPermission>, Cursor), d: Uuid)
    requires ParseLevels(filter).Some? && IsDocumentPage(t, principal, ParseLevels(filter).value, c, n, r)
    requires Listed(t, principal, filter, d) && Earlier(DocumentTime(c.field, t.documents[d]), d, c.time, c.id)
    ensures DocumentNotForgotten(t, c, n, r.0, d)
  {
    var rel := DocumentKeys(t, principal, ParseLevels(filter).value, c.field);
    var page, rows := Select(rel, At(c), n), r.0;
    LevelsMean(filter);
    SelectIsPage(rel, At(c), n);
    var x := DocumentKey(t, c.field, d);
    assert Matches(t, principal, ParseLevels(filter).value, d);
    assert x in Rest(rel, At(c));
    if x in page {
      var i :| 0 <= i < |page| && page[i] == x;
      assert DocumentRowAt(t, principal, c.field, page[i], rows[i]);
    } else {
      forall i | 0 <= i < |rows|
        ensures Earlier(DocumentTime(c.field, t.documents[d]), d, DocumentTime(c.field, rows[i].document), rows[i].id)
      {
        assert DocumentRowAt(t, principal, c.field, page[i], rows[i]);
        assert page[i] in page;
      }
    }
  }

  /** A page of keys with its rows is a page in the promised sense. */
  lemma DocumentPageMeans(t: Tables, principal: Uuid, filter: seq<int>, c: Cursor, n: nat,
                          r: (seq<DocumentPermission>, Cursor))
    requires ParseLevels(filter).Some? && IsDocumentPage(t, principal, ParseLevels(filter).value, c, n, r)
    ensures DocumentPage(t, principal, filter, c, n, r.0, r.1)
  {
    DocumentRowsShown(t, principal, filter, c, n, r);
    forall d | Listed(t, principal, filter, d) && Earlier(DocumentTime(c.field, t.documents[d]), d, c.time, c.id)
      ensures DocumentNotForgotten(t, c, n, r.0, d)
    {
      DocumentFound(t, principal, filter, c, n, r, d);
    }
    var page := Select(DocumentKeys(t, principal, ParseLevels(filter).value, c.field), At(c), n);
    if |r.0| > 0 { assert DocumentRowAt(t, principal, c.field, page[|page| - 1], r.0[|page| - 1]); }
  }

  /** One page of a principal's documents. */
  method RepoListDocuments(t: Tables, principal: Uuid, permissions: seq<int>, cursor: Option<Cursor>, pageSize: int)
    returns (r: Result<(seq<DocumentPermission>, Cursor), Error>)
    ensures r == Err(NilPointer) <==> cursor.None?
    ensures r == Err(InvalidInput) <==> cursor.Some? && (permissions == [] || BadFilter(permissions))
    ensures r == Err(RepoImpl) <==> cursor.Some? && permissions != [] && !BadFilter(permissions) && pageSize < 0
    ensures r.Err? ==> r.error in {NilPointer, InvalidInput, RepoImpl}
    ensures r.Ok? ==> ParseLevels(permissions).Some? &&
                      IsDocumentPage(t, principal, ParseLevels(permissions).value, cursor.value, pageSize, r.value)
    ensures r.Ok? ==> DocumentPage(t, principal, permissions, cursor.value, pageSize, r.value.0, r.value.1)
  {
    LevelsMean(permissions);
    if cursor.None? { return Err(NilPointer); }
    if |permissions| < 1 { return Err(InvalidInput); }
    var levels := ParseLevelsLoop(permissions);
    if levels.None? { return Err(InvalidInput); }
    if pageSize < 0 { return Err(RepoImpl); }
    var c := cursor.value;
    var rows := ReadDocuments(t, principal, levels.value, c, pageSize);
    ghost var page := Select(DocumentKeys(t, principal, levels.value, c.field), At(c), pageSize);
    var next := c;
    if |rows| > 0 {
      var last := rows[|rows| - 1];
      assert DocumentRowAt(t, principal, c.field, page[|rows| - 1], last);
      var time := if c.field.CreatedAt? then last.document.createdAt else last.document.lastModifiedAt;
      next := Cursor(c.field, time, last.id);
    }
    DocumentPageMeans(t, principal, permissions, c, pageSize, (rows, next));
    r := Ok((rows, next));
  }

  /** A page from the given cursor, or from the beginning. */
  ghost predicate ServicePage(t: Tables, principal: Uuid, filter: seq<int>, cursor: Option<Cursor>, now: int, n: int,
                              rows: seq<DocumentPermission>, next: Cursor)
  {
    exists c: Cursor :: DocumentPage(t, principal, filter, c, n, rows, next) &&
                        (if cursor.Some? then c == cursor.value else IsBeginning(c, CreatedAt, now))
  }

  /** The service fills in what is missing and clamps the page size. */
  method ServiceListDocuments(t: Tables, principal: Uuid, permissions: seq<int>, cursor: Option<Cursor>, pageSize: int,
                              now: int)
    returns (r: Result<(seq<DocumentPermission>, Cursor), Error>)
    ensures r == Err(InvalidInput) <==> BadFilter(permissions)
    ensures r.Err? ==> r == Err(InvalidInput)
    ensures r.Ok? ==>
              var filter := if permissions == [] then [0, 1, 2] else permissions;
              var n := if 1 <= pageSize <= 100 then pageSize else 10;
              ServicePage(t, principal, filter, cursor, now, n, r.value.0, r.value.1)
  {
    var ps, c, n := permissions, cursor, pageSize;
    if |ps| < 1 { ps := ALL_LEVELS; }
    if c.None? {
      var beginning := NewBeginningCursor(CreatedAt, now);
      c := Some(beginning);
    }
    if n < 1 || n > MAX_PAGE_SIZE { n := DEFAULT_PAGE_SIZE; }
    r := RepoListDocuments(t, principal, ps, c, n);
  }

  // ---------- listing permissions ----------

  /** Both times of a returned permission are the row's creation time. */
  function ToPermission(k: (Uuid, Uuid), row: PermissionRow): Permission {
    Permission(k.0, k.1, row.recipientType, row.level, row.createdBy, row.createdAt, row.createdAt)
  }

  function CreatedTimes(t: Tables, d: Uuid): map<nat, int> {
    map k | k in t.permissions && k.1 == d :: k.0 := t.permissions[k].createdAt
  }

  ghost predicate PermissionRowAt(t: Tables, d: Uuid, key: Key, row: Permission) {
    (key.id, d) in t.permissions && row == ToPermission((key.id, d), t.permissions[(key.id, d)])
  }

  ghost predicate PermissionRows(t: Tables, d: Uuid, keys: seq<Key>, rows: seq<Permission>) {
    && |rows| == |keys|
    && forall i :: 0 <= i < |rows| ==> PermissionRowAt(t, d, keys[i], rows[i])
  }

  ghost predicate IsPermissionPage(t: Tables, d: Uuid, levels: seq<Level>, c: Cursor, n: nat,
                                   r: (seq<Permission>, Cursor))
  {
    var page := Select(PermissionKeys(t, d, levels, c.field), At(c), n);
    && PermissionRows(t, d, page, r.0) && r.1.field == c.field
    && At(r.1) == ShiftedKeyset.NextShifted(CreatedTimes(t, d), At(c), page)
  }

  lemma PermissionRowsShown(t: Tables, d: Uuid, filter: seq<int>, c: Cursor, n: nat, r: (seq<Permission>, Cursor))
    requires ParseLevels(filter).Some? && IsPermissionPage(t, d, ParseLevels(filter).value, c, n, r)
    ensures |r.0| <= n
    ensures forall i :: 0 <= i < |r.0| ==> ShowsPermission(t, d, filter, c, r.0[i])
    ensures forall i :: 0 < i < |r.0| ==> PermissionBelow(t, d, c.field, r.0[i].recipient, r.0[i - 1].recipient)
  {
    var levels := ParseLevels(filter).value;
    var rel := PermissionKeys(t, d, levels, c.field);
    var page, rows := Select(rel, At(c), n), r.0;
    LevelsMean(filter);
    SelectIsPage(rel, At(c), n);
    forall i | 0 <= i < |rows|
      ensures ShowsPermission(t, d, filter, c, rows[i]) && PermissionKey(t, c.field, (rows[i].recipient, d)) == page[i]
    {
      assert PermissionRowAt(t, d, page[i], rows[i]);
      assert page[i] in page;
      PermissionKeyAt(t, d, levels, c.field, page[i]);
    }
  }

  lemma PermissionFound(t: Tables, d: Uuid, filter: seq<int>, c: Cursor, n: nat, r: (seq<Permission>, Cursor), u: Uuid)
    requires ParseLevels(filter).Some? && IsPermissionPage(t, d, ParseLevels(filter).value, c, n, r)
    requires Granted(t, d, filter, u) && Earlier(PermissionTime(c.field, t.permissions[(u, d)]), u, c.time, c.id)
    ensures PermissionNotForgotten(t, d, c, n, r.0, u)
  {
    var levels := ParseLevels(filter).value;
    var rel := PermissionKeys(t, d, levels, c.field);
    var page, rows := Select(rel, At(c), n), r.0;
    LevelsMean(filter);
    SelectIsPage(rel, At(c), n);
    var x := PermissionKey(t, c.field, (u, d));
    assert HasPermission(t, d, levels, u);
    PermissionKeyAt(t, d, levels, c.field, x);
    assert x in Rest(rel, At(c));
    if x in page {
      var i :| 0 <= i < |page| && page[i] == x;
      assert PermissionRowAt(t, d, page[i], rows[i]);
    } else {
      forall i | 0 <= i < |rows| ensures PermissionBelow(t, d, c.field, u, rows[i].recipient) {
        assert PermissionRowAt(t, d, page[i], rows[i]);
        assert page[i] in page && Below(x, page[i]);
        PermissionKeyAt(t, d, levels, c.field, page[i]);
      }
    }
  }

  lemma PermissionPageMeans(t: Tables, d: Uuid, filter: seq<int>, c: Cursor, n: nat, r: (seq<Permission>, Cursor))
    requires ParseLevels(filter).Some? && IsPermissionPage(t, d, ParseLevels(filter).value, c, n, r)
    ensures PermissionPage(t, d, filter, c, n, r.0, r.1)
  {
    PermissionRowsShown(t, d, filter, c, n, r);
    forall u | Granted(t, d, filter, u) && Earlier(PermissionTime(c.field, t.permissions[(u, d)]), u, c.time, c.id)
      ensures PermissionNotForgotten(t, d, c, n, r.0, u)
    {
      PermissionFound(t, d, filter, c, n, r, u);
    }
    var page := Select(PermissionKeys(t, d, ParseLevels(filter).value, c.field), At(c), n);
    if |r.0| > 0 { assert PermissionRowAt(t, d, page[|page| - 1], r.0[|page| - 1]); }
  }

  method RepoListPermissions(t: Tables, d: Uuid, filter: seq<int>, cursor: Option<Cursor>, pageSize: int)
    returns (r: Result<(seq<Permission>, Cursor), Error>)
    ensures r == Err(InvalidInput) <==> filter == [] || BadFilter(filter)
    ensures r == Err(NilPointer) <==> filter != [] && !BadFilter(filter) && cursor.None?
    ensures r == Err(NotFound) <==> filter != [] && !BadFilter(filter) && cursor.Some? && d !in t.documents
    ensures r == Err(RepoImpl) <==>
              filter != [] && !BadFilter(filter) && cursor.Some? && d in t.documents && pageSize < 0
    ensures r.Err? ==> r.error in {InvalidInput, NilPointer, NotFound, RepoImpl}
    ensures r.Ok? ==> ParseLevels(filter).Some? &&
                      IsPermissionPage(t, d, ParseLevels(filter).value, cursor.value, pageSize, r.value)
    ensures r.Ok? ==> PermissionPage(t, d, filter, cursor.value, pageSize, r.value.0, r.value.1)
  {
    LevelsMean(filter);
    if |filter| < 1 { return Err(InvalidInput); }
    var levels := ParseLevelsLoop(filter);
    if levels.None? { return Err(InvalidInput); }
    if cursor.None? { return Err(NilPointer); }
    if d !in t.documents { return Err(NotFound); }
    if pageSize < 0 { return Err(RepoImpl); }
    var c := cursor.value;
    var rel := PermissionKeys(t, d, levels.value, c.field);
    var keys := Select(rel, At(c), pageSize);
    SelectIsPage(rel, At(c), pageSize);
    var rows: seq<Permission> := [];
    for i := 0 to |keys|
      invariant |rows| == i
      invariant forall j :: 0 <= j < i ==> PermissionRowAt(t, d, keys[j], rows[j])
    {
      assert keys[i] in keys && keys[i] in rel;
      rows := rows + [ToPermission((keys[i].id, d), t.permissions[(keys[i].id, d)])];
    }
    var next := c;
    if |rows| > 0 {
      var last := rows[|rows| - 1];
      next := Cursor(c.field, if c.field.CreatedAt? then last.createdAt else last.lastModifiedAt, last.recipient);
    }
    PermissionPageMeans(t, d, filter, c, pageSize, (rows, next));
    r := Ok((rows, next));
  }

  // ---------- documents: everything exactly once ----------

  /** The pages a client reads while requests change the tables: page `k` after `at[k]` requests. */
  function Visits(requests: seq<Request>, at: seq<nat>, principal: Uuid, levels: seq<Level>, field: SortField, n: nat)
    : seq<Read>
    requires forall k :: 0 <= k < |at| ==> at[k] <= |requests|
  {
    seq(|at|, k requires 0 <= k < |at| =>
      Read(DocumentKeys(After(EMPTY, requests[..at[k]]), principal, levels, field), n))
  }

  lemma CreatedAtKept(t: Tables, op: Op, now: int, d: Uuid)
    requires d in t.documents && d in Apply(t, op, now).documents
    ensures Apply(t, op, now).documents[d].createdAt == t.documents[d].createdAt
    ensures Apply(t, op, now).documents[d].lastModifiedAt == t.documents[d].lastModifiedAt
  {
  }

  /** A document that stays keeps its times, and so its key under either field. */
  lemma {:induction false} KeyKept(requests: seq<Request>, field: SortField, d: Uuid, a: nat, b: nat)
    requires a <= b <= |requests|
    requires forall m :: a <= m <= b ==> d in After(EMPTY, requests[..m]).documents
    ensures DocumentKey(After(EMPTY, requests[..b]), field, d) == DocumentKey(After(EMPTY, requests[..a]), field, d)
    decreases b
  {
    if a < b {
      KeyKept(requests, field, d, a, b - 1);
      assert requests[..b][..b - 1] == requests[..b - 1];
      CreatedAtKept(After(EMPTY, requests[..b - 1]), requests[b - 1].op, requests[b - 1].now, d);
    }
  }

  ghost predicate MatchedAt(requests: seq<Request>, m: nat, principal: Uuid, levels: seq<Level>, field: SortField,
                            x: Key)
    requires m <= |requests|
  {
    var t := After(EMPTY, requests[..m]);
    && x.id in t.documents && DocumentTime(field, t.documents[x.id]) == x.time
    && (principal, x.id) in t.permissions && t.permissions[(principal, x.id)].level in levels
  }

  lemma ReturnedMatched(requests: seq<Request>, at: seq<nat>, principal: Uuid, levels: seq<Level>, field: SortField,
                        n: nat, c: Key, i: nat)
    requires forall k :: 0 <= k < |at| ==> at[k] <= |requests|
    requires i < |Emitted(c, Visits(requests, at, principal, levels, field, n))|
    ensures var x := Emitted(c, Visits(requests, at, principal, levels, field, n))[i];
            exists k :: 0 <= k < |at| && MatchedAt(requests, at[k], principal, levels, field, x)
  {
    var visits := Visits(requests, at, principal, levels, field, n);
    var k := FromRead(c, visits, i);
    assert visits[k].rel == DocumentKeys(After(EMPTY, requests[..at[k]]), principal, levels, field);
    assert MatchedAt(requests, at[k], principal, levels, field, Emitted(c, visits)[i]);
  }

  /** Following the cursors until a page is empty, while documents and permissions are created,
      changed and deleted between the pages, returns a document that matches throughout exactly
      once: whatever the sort field, the page size and the number of pages. */
  lemma DocumentsExactlyOnce(requests: seq<Request>, at: seq<nat>, principal: Uuid, levels: seq<Level>,
                             field: SortField, n: nat, c: Key, d: Uuid)
    requires at != [] && n > 0
    requires forall k :: 0 <= k < |at| ==> at[0] <= at[k] <= at[|at| - 1] <= |requests|
    requires forall m :: at[0] <= m <= at[|at| - 1] ==> Matches(After(EMPTY, requests[..m]), principal, levels, d)
    requires Matches(After(EMPTY, requests[..at[0]]), principal, levels, d)
    requires Below(DocumentKey(After(EMPTY, requests[..at[0]]), field, d), c)
    requires var visits := Visits(requests, at, principal, levels, field, n);
             Select(visits[|at| - 1].rel, CursorAfter(c, visits[..|at| - 1]), n) == []
    ensures var rows := Emitted(c, Visits(requests, at, principal, levels, field, n));
            Descending(rows) && OnceIn(rows, d)
    // and whatever is returned matched when it was
    ensures var rows := Emitted(c, Visits(requests, at, principal, levels, field, n));
            forall i :: 0 <= i < |rows| ==>
              exists k :: 0 <= k < |at| && MatchedAt(requests, at[k], principal, levels, field, rows[i])
  {
    var visits := Visits(requests, at, principal, levels, field, n);
    var x := DocumentKey(After(EMPTY, requests[..at[0]]), field, d);
    forall k | 0 <= k < |visits| ensures AlwaysIn(x, visits[k].rel) {
      KeyKept(requests, field, d, at[0], at[k]);
      assert Matches(After(EMPTY, requests[..at[k]]), principal, levels, d);
    }
    ListedOnce(c, visits, x);
    forall i | 0 <= i < |Emitted(c, visits)|
      ensures exists k :: 0 <= k < |at| && MatchedAt(requests, at[k], principal, levels, field, Emitted(c, visits)[i])
    {
      ReturnedMatched(requests, at, principal, levels, field, n, c, i);
    }
  }

  // ---------- permissions: what is skipped ----------

  /** Listing a document's permissions on tables that do not change: under `LastModifiedAt` the
      pages skip rows exactly if, at some page boundary, the next row was modified at or after the
      time the last row was created; under `CreatedAt` they never do. In both cases the rows come
      in strictly descending order. */
  lemma PermissionsComplete(t: Tables, now: int, d: Uuid, levels: seq<Level>, field: SortField, n: nat, c: Key)
    requires TimesOk(t, now) && n > 0
    ensures var rel, created := PermissionKeys(t, d, levels, field), CreatedTimes(t, d);
            && ShiftedKeyset.Sane(rel, created)
            && Descending(ShiftedKeyset.Walk(rel, created, c, n))
            && (field.CreatedAt? ==> ShiftedKeyset.Complete(rel, created, c, n))
            && (ShiftedKeyset.Complete(rel, created, c, n) <==>
                  ShiftedKeyset.BoundariesOk(ShiftedKeyset.Sorted(rel, c), created, n))
  {
    var rel, created := PermissionKeys(t, d, levels, field), CreatedTimes(t, d);
    forall x | x in rel
      ensures x.id in created && created[x.id] <= x.time && (field.CreatedAt? ==> created[x.id] == x.time)
    {
      PermissionKeyAt(t, d, levels, field, x);
    }
    ShiftedKeyset.WalkDescends(rel, created, c, n);
    ShiftedKeyset.CompleteIff(rel, created, c, n);
    if field.CreatedAt? { ShiftedKeyset.CompleteUnshifted(rel, created, c, n); }
  }

  // ---------- permissions over any history ----------

  function PermissionVisits(requests: seq<Request>, at: seq<nat>, d: Uuid, levels: seq<Level>, field: SortField, n: nat)
    : seq<ShiftedKeyset.Visit>
    requires forall k :: 0 <= k < |at| ==> at[k] <= |requests|
  {
    seq(|at|, k requires 0 <= k < |at| =>
      var t := After(EMPTY, requests[..at[k]]);
      ShiftedKeyset.Visit(PermissionKeys(t, d, levels, field), n, CreatedTimes(t, d)))
  }

  lemma PermissionKeyAt(t: Tables, d: Uuid, levels: seq<Level>, field: SortField, x: Key)
    ensures x in PermissionKeys(t, d, levels, field) <==>
              HasPermission(t, d, levels, x.id) && PermissionKey(t, field, (x.id, d)) == x
    ensures x in PermissionKeys(t, d, levels, field) ==>
              x.id in CreatedTimes(t, d) && CreatedTimes(t, d)[x.id] == t.permissions[(x.id, d)].createdAt
  {
    if x in PermissionKeys(t, d, levels, field) {
      var k: (Uuid, Uuid) :| k in t.permissions && k.1 == d && PermissionKey(t, field, k) == x;
      assert PermissionKey(t, field, k).id == k.0;
    }
    if HasPermission(t, d, levels, x.id) && PermissionKey(t, field, (x.id, d)) == x {
      assert (x.id, d) in t.permissions;
    }
  }

  lemma PermissionCreatedAtKept(t: Tables, op: Op, now: int, k: (Uuid, Uuid))
    requires k in t.permissions && k in Apply(t, op, now).permissions
    ensures Apply(t, op, now).permissions[k].createdAt == t.permissions[k].createdAt
  {
  }

  /** A permission that stays keeps its creation time. */
  lemma {:induction false} CreationKept(requests: seq<Request>, k: (Uuid, Uuid), a: nat, b: nat)
    requires a <= b <= |requests|
    requires forall m :: a <= m <= b ==> k in After(EMPTY, requests[..m]).permissions
    ensures After(EMPTY, requests[..b]).permissions[k].createdAt == After(EMPTY, requests[..a]).permissions[k].createdAt
    decreases b
  {
    if a < b {
      CreationKept(requests, k, a, b - 1);
      assert requests[..b][..b - 1] == requests[..b - 1];
      PermissionCreatedAtKept(After(EMPTY, requests[..b - 1]), requests[b - 1].op, requests[b - 1].now, k);
    }
  }

  /** Under `CreatedAt`, following the cursors until a page is empty, while permissions are granted,
      changed and revoked between the pages, returns a permission that matches throughout exactly
      once. */
  lemma PermissionsExactlyOnce(requests: seq<Request>, at: seq<nat>, d: Uuid, levels: seq<Level>, n: nat, c: Key,
                               u: Uuid)
    requires at != [] && n > 0
    requires forall k :: 0 <= k < |at| ==> at[0] <= at[k] <= at[|at| - 1] <= |requests|
    requires forall m :: at[0] <= m <= at[|at| - 1] ==> HasPermission(After(EMPTY, requests[..m]), d, levels, u)
    requires HasPermission(After(EMPTY, requests[..at[0]]), d, levels, u)
    requires Below(PermissionKey(After(EMPTY, requests[..at[0]]), CreatedAt, (u, d)), c)
    requires var visits := PermissionVisits(requests, at, d, levels, CreatedAt, n);
             Select(visits[|at| - 1].rel, ShiftedKeyset.VisitCursor(c, visits[..|at| - 1]), n) == []
    ensures var rows := ShiftedKeyset.Shown(c, PermissionVisits(requests, at, d, levels, CreatedAt, n));
            Descending(rows) && OnceIn(rows, u)
  {
    var visits := PermissionVisits(requests, at, d, levels, CreatedAt, n);
    var x := PermissionKey(After(EMPTY, requests[..at[0]]), CreatedAt, (u, d));
    forall k | 0 <= k < |visits| ensures AlwaysIn(x, visits[k].rel) {
      StaysListed(requests, d, levels, u, at[0], at[k]);
    }
    VisitsUnshifted(requests, at, d, levels, n);
    LikeEmitted(c, visits);
    ListedOnce(c, ShiftedKeyset.Reads(visits), x);
  }

  /** The row is there, and no other of its id. */
  ghost predicate AlwaysIn(x: Key, rel: set<Key>) { x in rel && forall y :: y in rel && y.id == x.id ==> y == x }

  lemma StaysListed(requests: seq<Request>, d: Uuid, levels: seq<Level>, u: Uuid, a: nat, b: nat)
    requires a <= b <= |requests|
    requires forall m :: a <= m <= b ==> HasPermission(After(EMPTY, requests[..m]), d, levels, u)
    ensures HasPermission(After(EMPTY, requests[..a]), d, levels, u)
    ensures AlwaysIn(PermissionKey(After(EMPTY, requests[..a]), CreatedAt, (u, d)),
                     PermissionKeys(After(EMPTY, requests[..b]), d, levels, CreatedAt))
  {
    var t, x := After(EMPTY, requests[..b]), PermissionKey(After(EMPTY, requests[..a]), CreatedAt, (u, d));
    CreationKept(requests, (u, d), a, b);
    assert HasPermission(t, d, levels, u);
    PermissionKeyAt(t, d, levels, CreatedAt, x);
    forall y | y in PermissionKeys(t, d, levels, CreatedAt) && y.id == u ensures y == x {
      PermissionKeyAt(t, d, levels, CreatedAt, y);
    }
  }

  /** A row that is always there, alone of its id, is returned once before the empty page. */
  lemma ListedOnce(c: Key, visits: seq<Read>, x: Key)
    requires visits != [] && visits[|visits| - 1].limit > 0 && Below(x, c)
    requires forall k :: 0 <= k < |visits| ==> AlwaysIn(x, visits[k].rel)
    requires Select(visits[|visits| - 1].rel, CursorAfter(c, visits[..|visits| - 1]), visits[|visits| - 1].limit) == []
    ensures Descending(Emitted(c, visits)) && OnceIn(Emitted(c, visits), x.id)
  {
    EmptyPageMeansAll(c, visits, x);
    RowsDescend(c, visits);
    var rows := Emitted(c, visits);
    NoRepeat(rows);
    var i :| 0 <= i < |rows| && rows[i] == x;
    forall j | 0 <= j < |rows| && rows[j].id == x.id ensures j == i {
      var p := FromRead(c, visits, j);
      assert rows[j] == x;
    }
  }

  /** Exactly one row has that id. */
  ghost predicate OnceIn(rows: seq<Key>, id: nat) {
    exists i :: 0 <= i < |rows| && rows[i].id == id && forall j :: 0 <= j < |rows| && rows[j].id == id ==> j == i
  }

  lemma UnshiftedFront(visits: seq<ShiftedKeyset.Visit>)
    requires visits != [] && ShiftedKeyset.Unshifted(visits)
    ensures ShiftedKeyset.Unshifted(visits[..|visits| - 1])
  {
    forall v | v in visits[..|visits| - 1] ensures v in visits {}
  }

  lemma LikeEmitted(c: Key, visits: seq<ShiftedKeyset.Visit>)
    requires visits != [] && ShiftedKeyset.Unshifted(visits)
    ensures ShiftedKeyset.Shown(c, visits) == Emitted(c, ShiftedKeyset.Reads(visits))
    ensures ShiftedKeyset.VisitCursor(c, visits[..|visits| - 1]) ==
              CursorAfter(c, ShiftedKeyset.Reads(visits)[..|visits| - 1])
  {
    UnshiftedFront(visits);
    ShiftedKeyset.UnshiftedShown(c, visits);
    ShiftedKeyset.UnshiftedShown(c, visits[..|visits| - 1]);
    ShiftedKeyset.ReadsFront(visits);
  }

  lemma VisitsUnshifted(requests: seq<Request>, at: seq<nat>, d: Uuid, levels: seq<Level>, n: nat)
    requires forall k :: 0 <= k < |at| ==> at[k] <= |requests|
    ensures ShiftedKeyset.Unshifted(PermissionVisits(requests, at, d, levels, CreatedAt, n))
  {
    var visits := PermissionVisits(requests, at, d, levels, CreatedAt, n);
    forall v, x | v in visits && x in v.rel ensures x.id in v.created && v.created[x.id] == x.time {
      var k :| 0 <= k < |visits| && visits[k] == v;
      PermissionKeyAt(After(EMPTY, requests[..at[k]]), d, levels, CreatedAt, x);
    }
  }

  /** One request to a permission row: it stays with times that do not go back, or is new. */
  lemma PermissionTimesStep(t: Tables, op: Op, before: int, now: int, k: (Uuid, Uuid))
    requires TimesOk(t, before) && before <= now && k in Apply(t, op, now).permissions
    ensures var row' := Apply(t, op, now).permissions[k];
            if k in t.permissions
            then t.permissions[k].createdAt == row'.createdAt && t.permissions[k].lastModifiedAt <= row'.lastModifiedAt
            else row'.createdAt == row'.lastModifiedAt == now
  {
  }

  lemma TimesSoFar(requests: seq<Request>, b: nat)
    requires Ordered(requests) && 0 < b <= |requests|
    ensures TimesOk(After(EMPTY, requests[..b]), requests[b - 1].now)
  {
    TimesInHistory(requests[..b]);
  }

  lemma {:induction false} NowGrows(requests: seq<Request>, a: nat, b: nat)
    requires Ordered(requests) && a <= b < |requests|
    ensures requests[a].now <= requests[b].now
    decreases b
  {
    if a < b { NowGrows(requests, a, b - 1); }
  }

  /** In a history with a clock that does not go back, a recipient's times never do, not even
      when a permission is revoked and granted again. */
  lemma {:induction false} PermissionTimesGrow(requests: seq<Request>, k: (Uuid, Uuid), a: nat, b: nat)
    requires Ordered(requests) && a <= b <= |requests|
    requires k in After(EMPTY, requests[..a]).permissions && k in After(EMPTY, requests[..b]).permissions
    ensures var x, y := After(EMPTY, requests[..a]).permissions[k], After(EMPTY, requests[..b]).permissions[k];
            x.createdAt <= y.createdAt && x.lastModifiedAt <= y.lastModifiedAt
    decreases b
  {
    if a < b {
      var t, last := After(EMPTY, requests[..b - 1]), requests[b - 1];
      assert requests[..b][..b - 1] == requests[..b - 1];
      assert After(EMPTY, requests[..b]) == Apply(t, last.op, last.now);
      if b > 1 {
        TimesSoFar(requests, b - 1);
        NowGrows(requests, b - 2, b - 1);
        PermissionTimesStep(t, last.op, requests[b - 2].now, last.now, k);
        if k in t.permissions {
          PermissionTimesGrow(requests, k, a, b - 1);
        } else {
          FirstTimes(requests, k, a, b);
        }
      }
    }
  }

  lemma FirstTimes(requests: seq<Request>, k: (Uuid, Uuid), a: nat, b: nat)
    requires Ordered(requests) && a < b <= |requests| && k in After(EMPTY, requests[..a]).permissions
    ensures var x := After(EMPTY, requests[..a]).permissions[k];
            x.createdAt <= x.lastModifiedAt <= requests[b - 1].now
  {
    if a > 0 {
      TimesSoFar(requests, a);
      NowGrows(requests, a - 1, b - 1);
    }
  }

  lemma VisitsSane(requests: seq<Request>, at: seq<nat>, d: Uuid, levels: seq<Level>, field: SortField, n: nat)
    requires Ordered(requests) && forall k :: 0 <= k < |at| ==> at[k] <= |requests|
    ensures ShiftedKeyset.AllSane(PermissionVisits(requests, at, d, levels, field, n))
  {
    var visits := PermissionVisits(requests, at, d, levels, field, n);
    forall v | v in visits ensures ShiftedKeyset.Sane(v.rel, v.created) {
      var k :| 0 <= k < |visits| && visits[k] == v;
      var t := After(EMPTY, requests[..at[k]]);
      if at[k] > 0 { TimesSoFar(requests, at[k]); }
      forall x | x in v.rel ensures x.id in v.created && v.created[x.id] <= x.time {
        PermissionKeyAt(t, d, levels, field, x);
      }
    }
  }

  /** Whatever happens between the pages, and although the cursor of the `LastModifiedAt` order
      carries the wrong time, the rows come in strictly descending order and no recipient comes
      twice. */
  lemma NoRecipientTwice(requests: seq<Request>, at: seq<nat>, d: Uuid, levels: seq<Level>, field: SortField, n: nat,
                         c: Key, i: nat, j: nat)
    requires Ordered(requests) && forall k :: 0 <= k < |at| ==> at[k] <= |requests|
    requires forall p, q :: 0 <= p <= q < |at| ==> at[p] <= at[q]
    requires i < j < |ShiftedKeyset.Shown(c, PermissionVisits(requests, at, d, levels, field, n))|
    ensures var rows := ShiftedKeyset.Shown(c, PermissionVisits(requests, at, d, levels, field, n));
            Descending(rows) && rows[i].id != rows[j].id
  {
    var visits := PermissionVisits(requests, at, d, levels, field, n);
    VisitsSane(requests, at, d, levels, field, n);
    forall p, q, x, y | 0 <= p <= q < |visits| && x in visits[p].rel && y in visits[q].rel && x.id == y.id
      ensures x.time <= y.time
    {
      PermissionKeyAt(After(EMPTY, requests[..at[p]]), d, levels, field, x);
      PermissionKeyAt(After(EMPTY, requests[..at[q]]), d, levels, field, y);
      PermissionTimesGrow(requests, (x.id, d), at[p], at[q]);
    }
    ShiftedKeyset.ShownDescend(c, visits);
    ShiftedKeyset.NoIdTwice(c, visits, i, j);
  }
}
