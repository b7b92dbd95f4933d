/** What a request that succeeds does to the rows of the three tables, row by row: the one it is
    about, and that all others are as they were. */
module DocumentEffects {
  import opened Wrappers
  import opened DocumentTables

  /** The number that stands for a level on the wire. */
  function LevelCode(level: Level): int {
    match level case Viewer => 0 case Editor => 1 case Owner => 2
  }

  lemma ParseLevelCodes(code: int, level: Level)
    ensures ParseLevel(code) == Some(level) <==> code == LevelCode(level)
    ensures ParseLevel(code).None? <==> code < 0 || code > 2
  {
  }

  ghost predicate SameExcept<K(!new), V(!new)>(m: map<K, V>, m': map<K, V>, k: K) {
    forall j :: j != k ==> (j in m' <==> j in m) && (j in m' ==> m'[j] == m[j])
  }

  /** Just the rows of these documents are gone. */
  ghost predicate Removed(t: Tables, t': Tables, ids: seq<Uuid>) {
    && (forall d :: d in t'.documents <==> d in t.documents && d !in ids)
    && (forall d :: d in t'.documents ==> t'.documents[d] == t.documents[d])
    && (forall g :: g in t'.guests <==> g in t.guests && t.guests[g].document !in ids)
    && (forall g :: g in t'.guests ==> t'.guests[g] == t.guests[g])
    && (forall k :: k in t'.permissions <==> k in t.permissions && k.1 !in ids)
    && (forall k :: k in t'.permissions ==> t'.permissions[k] == t.permissions[k])
  }

  /** A user's row is new, or has kept its type, its creator and its creation. */
  ghost predicate Upserted(t: Tables, t': Tables, user: Uuid, d: Uuid, code: int, now: int) {
    && SameExcept(t.permissions, t'.permissions, (user, d))
    && (user, d) in t'.permissions
    && var row' := t'.permissions[(user, d)];
    && LevelCode(row'.level) == code && row'.lastModifiedAt == now
    && if (user, d) in t.permissions then
         var row := t.permissions[(user, d)];
         row'.recipientType == row.recipientType && row'.createdBy == row.createdBy && row'.createdAt == row.createdAt
       else row'.recipientType.User? && row'.createdBy == user && row'.createdAt == now
  }

  ghost predicate GuestUpdated(t: Tables, t': Tables, guest: Uuid, d: Uuid, code: int, now: int) {
    && t'.documents == t.documents && t'.guests == t.guests
    && SameExcept(t.permissions, t'.permissions, (guest, d))
    && (guest, d) in t.permissions && (guest, d) in t'.permissions
    && var row, row' := t.permissions[(guest, d)], t'.permissions[(guest, d)];
    && row.recipientType.Guest? && row'.recipientType.Guest? && LevelCode(row'.level) == code
    && row'.lastModifiedAt == now && row'.createdBy == row.createdBy && row'.createdAt == row.createdAt
  }

  ghost predicate Effect(t: Tables, t': Tables, op: Op, now: int) {
    match op
    case CreateDocument(id, user, name, description) =>
      && SameExcept(t.documents, t'.documents, id) && t'.guests == t.guests
      && id in t'.documents && t'.documents[id] == DocumentRow(name, description, now, now)
      && Upserted(t, t', user, id, 2, now)
    case UpdateDocument(id, name, description) =>
      && SameExcept(t.documents, t'.documents, id) && t'.guests == t.guests && t'.permissions == t.permissions
      && id in t.documents && id in t'.documents
      && var row, row' := t.documents[id], t'.documents[id];
      && row'.name == (if name.Some? then name else row.name)
      && row'.description == (if description.Some? then description else row.description)
      && row'.createdAt == row.createdAt && row'.lastModifiedAt == row.lastModifiedAt
    case DeleteDocument(id) => Removed(t, t', [id])
    case DeleteDocuments(ids) => Removed(t, t', ids)
    case CreateGuest(guest, creator, d, code) =>
      && t'.documents == t.documents && SameExcept(t.guests, t'.guests, guest)
      && guest in t'.guests && t'.guests[guest].document == d && t'.guests[guest].createdBy == creator
      && SameExcept(t.permissions, t'.permissions, (guest, d)) && (guest, d) in t'.permissions
      && var row' := t'.permissions[(guest, d)];
      && row'.recipientType.Guest? && LevelCode(row'.level) == code && row'.createdBy == creator
      && row'.createdAt == row'.lastModifiedAt == now
    case UpsertPermissionUser(user, d, code) =>
      t'.documents == t.documents && t'.guests == t.guests && Upserted(t, t', user, d, code, now)
    case UpdatePermissionGuest(guest, code) =>
      guest in t.guests && GuestUpdated(t, t', guest, t.guests[guest].document, code, now)
    case DeletePermission(u, d) =>
      && t'.documents == t.documents && t'.guests == t.guests
      && SameExcept(t.permissions, t'.permissions, (u, d)) && (u, d) !in t'.permissions
  }

  lemma RemovedRows(t: Tables, ids: seq<Uuid>)
    ensures Removed(t, WithoutDocuments(t, IdSet(ids)), ids)
  {
    assert forall d :: d in IdSet(ids) <==> d in ids;
  }

  lemma RemovedRow(t: Tables, id: Uuid)
    ensures Removed(t, WithoutDocument(t, id), [id])
  {
    assert forall d :: d in [id] <==> d == id;
  }

  /** When a request is refused, and why. The repository accepts the levels up to `top == 2`, the
      service those up to `top == 1`. */
  ghost predicate Refused(t: Tables, op: Op, error: Error, top: int) {
    match op
    case CreateDocument(id, _, _, _) => id in t.documents && error.RepoImpl?
    case UpdateDocument(id, name, description) =>
      if name.None? && description.None? then error.InvalidInput? else id !in t.documents && error.NotFound?
    case DeleteDocument(id) => id !in t.documents && error.NotFound?
    case DeleteDocuments(ids) =>
      if |ids| == 0 then error.InvalidInput?
      else
        && error.NotFound?
        && exists i :: 0 <= i < |ids| && (ids[i] !in t.documents || ids[i] in ids[..i])
    case CreateGuest(guest, _, d, code) =>
      if code < 0 || code > top then error.InvalidInput?
      else if d !in t.documents then error.NotFound?
      else (guest in t.guests || (guest, d) in t.permissions) && error.UniqueConflict?
    case UpsertPermissionUser(_, d, code) =>
      if code < 0 || code > top then error.InvalidInput? else d !in t.documents && error.NotFound?
    case UpdatePermissionGuest(guest, code) =>
      if code < 0 || code > top then error.InvalidInput?
      else
        && error.NotFound?
        && (guest in t.guests ==>
              var k := (guest, t.guests[guest].document);
              k !in t.permissions || t.permissions[k].recipientType.User?)
    case DeletePermission(u, d) => (u, d) !in t.permissions && error.NotFound?
  }

  lemma Repeats(ids: seq<Uuid>)
    ensures !Distinct(ids) <==> exists i :: 0 <= i < |ids| && ids[i] in ids[..i]
  {
    if !Distinct(ids) {
      var i, j :| 0 <= i < j < |ids| && ids[i] == ids[j];
      assert ids[..j][i] == ids[j];
    }
    if j :| 0 <= j < |ids| && ids[j] in ids[..j] {
      var i :| 0 <= i < j && ids[..j][i] == ids[j];
      assert ids[i] == ids[j];
    }
  }

  lemma RepoFailsWhen(t: Tables, op: Op)
    ensures RepoFails(t, op).Some? ==> Refused(t, op, RepoFails(t, op).value, 2)
    ensures forall error :: Refused(t, op, error, 2) ==> RepoFails(t, op) == Some(error)
  {
    if op.DeleteDocuments? {
      Repeats(op.ids);
      if !AllExist(t, op.ids) {
        var id :| id in op.ids && id !in t.documents;
        var i :| 0 <= i < |op.ids| && op.ids[i] == id;
      }
    }
  }

  lemma FailsWhen(t: Tables, op: Op)
    ensures Fails(t, op).Some? ==> Refused(t, op, Fails(t, op).value, 1)
    ensures forall error :: Refused(t, op, error, 1) ==> Fails(t, op) == Some(error)
  {
    RepoFailsWhen(t, op);
  }

  lemma SucceedsExactly(t: Tables, op: Op, now: int)
    requires RepoFails(t, op).None?
    ensures Effect(t, Succeeds(t, op, now), op, now)
  {
    match op
    case DeleteDocument(id) => RemovedRow(t, id);
    case DeleteDocuments(ids) => RemovedRows(t, ids);
    case _ =>
  }

  /** Refused with the right error and no change, or else the effect. */
  ghost predicate Outcome(t: Tables, t': Tables, op: Op, now: int, error: Option<Error>, top: int) {
    && (forall e :: Refused(t, op, e, top) ==> error == Some(e))
    && (if error.Some? then Refused(t, op, error.value, top) && t' == t else Effect(t, t', op, now))
  }

  lemma RepoIsExact(t: Tables, op: Op, now: int)
    ensures Outcome(t, RepoApply(t, op, now), op, now, RepoFails(t, op), 2)
  {
    RepoFailsWhen(t, op);
    if RepoFails(t, op).None? { SucceedsExactly(t, op, now); }
  }

  /** Every request is refused exactly in the stated cases, with the stated error and no change,
      and otherwise has exactly the stated effect on the rows. */
  lemma RequestIsExact(t: Tables, op: Op, now: int)
    ensures Outcome(t, Apply(t, op, now), op, now, Fails(t, op), 1)
  {
    FailsWhen(t, op);
    if Fails(t, op).None? { SucceedsExactly(t, op, now); }
  }
}
