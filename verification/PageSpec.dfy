/** What the two list operations of the document service promise of a page, row by row. */
module PageSpec {
  import opened Wrappers
  import opened DocumentTables
  import opened DocumentEffects

  datatype SortField = CreatedAt | LastModifiedAt

  datatype Cursor = Cursor(field: SortField, time: int, id: Uuid)

  datatype DocumentPermission = DocumentPermission(id: Uuid, document: DocumentRow, level: Level)

  /** A permission as the service returns it. */
  datatype Permission = Permission(recipient: Uuid, document: Uuid, recipientType: RecipientType, level: Level,
                                   createdBy: Uuid, createdAt: int, lastModifiedAt: int)

  /** `time < t OR (time = t AND id < i)`. */
  predicate Earlier(time: int, id: Uuid, t: int, i: Uuid) { time < t || (time == t && id < i) }

  predicate BadFilter(filter: seq<int>) { exists code :: code in filter && (code < 0 || code > 2) }

  // ---------- documents ----------

  /** The principal has a permission on the document, at one of the levels. */
  predicate Listed(t: Tables, principal: Uuid, filter: seq<int>, d: Uuid) {
    && d in t.documents && (principal, d) in t.permissions
    && LevelCode(t.permissions[(principal, d)].level) in filter
  }

  function DocumentTime(field: SortField, row: DocumentRow): int {
    match field case CreatedAt => row.createdAt case LastModifiedAt => row.lastModifiedAt
  }

  /** A row shows a listed document below the cursor, as it is stored, with the principal's level. */
  ghost predicate ShowsDocument(t: Tables, principal: Uuid, filter: seq<int>, c: Cursor, row: DocumentPermission) {
    && Listed(t, principal, filter, row.id) && row.document == t.documents[row.id]
    && row.level == t.permissions[(principal, row.id)].level
    && Earlier(DocumentTime(c.field, row.document), row.id, c.time, c.id)
  }

  ghost predicate DocumentBelow(field: SortField, row: DocumentPermission, other: DocumentPermission) {
    Earlier(DocumentTime(field, row.document), row.id, DocumentTime(field, other.document), other.id)
  }

  /** A listed document below the cursor is on the page, or the page is full and it comes later. */
  ghost predicate DocumentNotForgotten(t: Tables, c: Cursor, n: int, rows: seq<DocumentPermission>, d: Uuid)
    requires d in t.documents
  {
    || (exists i :: 0 <= i < |rows| && rows[i].id == d)
    || (|rows| == n && forall i :: 0 <= i < |rows| ==>
          Earlier(DocumentTime(c.field, t.documents[d]), d, DocumentTime(c.field, rows[i].document), rows[i].id))
  }

  ghost predicate DocumentPage(t: Tables, principal: Uuid, filter: seq<int>, c: Cursor, n: int,
                               rows: seq<DocumentPermission>, next: Cursor)
  {
    && |rows| <= n
    && (forall i :: 0 <= i < |rows| ==> ShowsDocument(t, principal, filter, c, rows[i]))
    && (forall i :: 0 < i < |rows| ==> DocumentBelow(c.field, rows[i], rows[i - 1]))
    && (forall d :: Listed(t, principal, filter, d) &&
                    Earlier(DocumentTime(c.field, t.documents[d]), d, c.time, c.id) ==>
                      DocumentNotForgotten(t, c, n, rows, d))
    && if |rows| == 0 then next == c
       else
         var last := rows[|rows| - 1];
         next == Cursor(c.field, DocumentTime(c.field, last.document), last.id)
  }

  // ---------- permissions ----------

  predicate Granted(t: Tables, d: Uuid, filter: seq<int>, u: Uuid) {
    (u, d) in t.permissions && LevelCode(t.permissions[(u, d)].level) in filter
  }

  function PermissionTime(field: SortField, row: PermissionRow): int {
    match field case CreatedAt => row.createdAt case LastModifiedAt => row.lastModifiedAt
  }

  /** A row shows a granted permission below the cursor as it is stored, but with the time of its
      creation for that of its modification too. */
  ghost predicate ShowsPermission(t: Tables, d: Uuid, filter: seq<int>, c: Cursor, row: Permission) {
    && Granted(t, d, filter, row.recipient) && row.document == d
    && var stored := t.permissions[(row.recipient, d)];
    && row.recipientType == stored.recipientType && row.level == stored.level && row.createdBy == stored.createdBy
    && row.createdAt == stored.createdAt && row.lastModifiedAt == stored.createdAt
    && Earlier(PermissionTime(c.field, stored), row.recipient, c.time, c.id)
  }

  ghost predicate PermissionBelow(t: Tables, d: Uuid, field: SortField, u: Uuid, v: Uuid) {
    && (u, d) in t.permissions && (v, d) in t.permissions
    && Earlier(PermissionTime(field, t.permissions[(u, d)]), u, PermissionTime(field, t.permissions[(v, d)]), v)
  }

  ghost predicate PermissionNotForgotten(t: Tables, d: Uuid, c: Cursor, n: int, rows: seq<Permission>, u: Uuid) {
    || (exists i :: 0 <= i < |rows| && rows[i].recipient == u)
    || (|rows| == n && forall i :: 0 <= i < |rows| ==> PermissionBelow(t, d, c.field, u, rows[i].recipient))
  }

  /** The next cursor carries the creation time of the last row, under either field. */
  ghost predicate PermissionPage(t: Tables, d: Uuid, filter: seq<int>, c: Cursor, n: int, rows: seq<Permission>,
                                 next: Cursor)
  {
    && |rows| <= n
    && (forall i :: 0 <= i < |rows| ==> ShowsPermission(t, d, filter, c, rows[i]))
    && (forall i :: 0 < i < |rows| ==> PermissionBelow(t, d, c.field, rows[i].recipient, rows[i - 1].recipient))
    && (forall u :: Granted(t, d, filter, u) &&
                    Earlier(PermissionTime(c.field, t.permissions[(u, d)]), u, c.time, c.id) ==>
                      PermissionNotForgotten(t, d, c, n, rows, u))
    && if |rows| == 0 then next == c
       else
         var last := rows[|rows| - 1];
         next == Cursor(c.field, t.permissions[(last.recipient, d)].createdAt, last.recipient)
  }
}
