/** The document repository and service as they run: statement by statement on tables that
    change in place, each transaction ending in a commit or in the tables it started from. */
module DocumentStore {
  import opened Wrappers
  import opened DocumentEffects
  import opened DocumentTables

  function ErrorOf<T>(r: Result<T, Error>): Option<Error> { if r.Err? then Some(r.error) else None }

  class DocumentRepository {
    var documents: map<Uuid, DocumentRow>
    var guests: map<Uuid, GuestRow>
    var permissions: map<(Uuid, Uuid), PermissionRow>

    constructor ()
      ensures View() == EMPTY
    {
      documents, guests, permissions := map[], map[], map[];
    }

    function View(): Tables
      reads this
    {
      Tables(documents, guests, permissions)
    }

    // ---------- statements, with the constraints of the schema ----------

    method InsertDocument(id: Uuid, name: Option<string>, description: Option<string>, now: int) returns (ok: bool)
      modifies this`documents
      ensures ok <==> id !in old(documents)
      ensures documents == if ok then old(documents)[id := DocumentRow(name, description, now, now)] else old(documents)
    {
      ok := id !in documents;
      if ok { documents := documents[id := DocumentRow(name, description, now, now)]; }
    }

    /** A row that something still refers to cannot be deleted. */
    method DeleteDocumentRow(id: Uuid) returns (ok: bool, count: nat)
      modifies this`documents
      ensures ok <==> !Referenced(old(View()), id)
      ensures count == if ok && id in old(documents) then 1 else 0
      ensures documents == if ok then old(documents) - {id} else old(documents)
    {
      if Referenced(View(), id) { return false, 0; }
      ok, count := true, if id in documents then 1 else 0;
      documents := documents - {id};
    }

    method UpsertPermissionRow(user: Uuid, d: Uuid, level: Level, now: int) returns (ok: bool)
      modifies this`permissions
      ensures ok <==> d in documents
      ensures View() == if ok then UpsertRow(old(View()), user, d, level, now) else old(View())
      ensures ok ==> Upserted(old(View()), View(), user, d, LevelCode(level), now)
    {
      if d !in documents { return false; }
      if (user, d) in permissions {
        permissions := permissions[(user, d) := permissions[(user, d)].(level := level, lastModifiedAt := now)];
      } else {
        permissions := permissions[(user, d) := PermissionRow(User, level, user, now, now)];
      }
      ok := true;
    }

    /** The update is a statement of its own: it may come after the guest or its row is gone. */
    method UpdateGuestPermissionRow(guest: Uuid, d: Uuid, level: Level, now: int) returns (count: nat)
      modifies this`permissions
      ensures old(Valid(View())) && !level.Owner? ==> Valid(View())
      ensures count == if IsGuestRow(old(View()), guest, d) then 1 else 0
      ensures View() == GuestRowUpdated(old(View()), guest, d, level, now)
      ensures if (guest, d) in old(permissions) && old(permissions)[(guest, d)].recipientType.Guest?
              then count == 1 && GuestUpdated(old(View()), View(), guest, d, LevelCode(level), now)
              else count == 0 && View() == old(View())
    {
      count := 0;
      if (guest, d) in permissions && permissions[(guest, d)].recipientType.Guest? {
        ghost var t := View();
        permissions := permissions[(guest, d) := permissions[(guest, d)].(level := level, lastModifiedAt := now)];
        count := 1;
        if Valid(t) && !level.Owner? { forall u, e | IsOwner(View(), u, e) ensures IsOwner(t, u, e) {} }
      }
    }

    // ---------- operations ----------

    method CreateDocument(id: Uuid, user: Uuid, name: Option<string>, description: Option<string>, now: int)
      returns (r: Result<Uuid, Error>)
      modifies this
      ensures old(Valid(View())) ==> Valid(View())
      ensures r == if id in old(documents) then Err(RepoImpl) else Ok(id)
      ensures View() == if r.Ok? then Created(old(View()), id, user, name, description, now) else old(View())
      ensures Outcome(old(View()), View(), Op.CreateDocument(id, user, name, description), now, ErrorOf(r), 2)
    {
      RepoIsExact(View(), Op.CreateDocument(id, user, name, description), now);
      ghost var t := View();
      var d0, p0 := documents, permissions;
      var ok := InsertDocument(id, name, description, now);
      if !ok { return Err(RepoImpl); }
      if Valid(t) { CreatedValid(t, id, user, name, description, now); }
      ok := UpsertPermissionRow(user, id, Owner, now);
      r := if ok then Ok(id) else Err(RepoImpl);
      documents, permissions := if ok then documents else d0, if ok then permissions else p0;
    }

    /** Permissions, then guests, then the document: the order the foreign keys ask for. */
    method DeleteDocumentHelper(id: Uuid) returns (error: Option<Error>)
      modifies this
      ensures error == if id in old(documents) then None else Some(NotFound)
      ensures View() == WithoutDocument(old(View()), id)
      ensures Removed(old(View()), View(), [id])
    {
      RemovedRow(View(), id);
      permissions := map k | k in permissions && k.1 != id :: permissions[k];
      guests := map g | g in guests && guests[g].document != id :: guests[g];
      var ok, count := DeleteDocumentRow(id);
      error := if !ok then Some(RepoImpl) else if count < 1 then Some(NotFound) else None;
    }

    method DeleteDocument(id: Uuid) returns (error: Option<Error>)
      modifies this
      ensures old(Valid(View())) ==> Valid(View())
      ensures error == if id in old(documents) then None else Some(NotFound)
      ensures View() == if error.None? then WithoutDocument(old(View()), id) else old(View())
      ensures error.None? ==> Removed(old(View()), View(), [id])
      ensures Outcome(old(View()), View(), Op.DeleteDocument(id), 0, error, 2)
    {
      RepoIsExact(View(), Op.DeleteDocument(id), 0);
      ghost var t := View();
      var d0, g0, p0 := documents, guests, permissions;
      error := DeleteDocumentHelper(id);
      if error.Some? {
        documents, guests, permissions := d0, g0, p0;
      } else {
        assert WithoutDocument(t, id) == WithoutDocuments(t, {id});
        if Valid(t) { RemovalValid(t, {id}); }
      }
    }

    /** All or nothing: it commits exactly when the list is non-empty, its ids are distinct and
        all exist, and then removes just those documents with their permissions and guests. */
    method DeleteDocuments(ids: seq<Uuid>) returns (error: Option<Error>)
      modifies this
      ensures old(Valid(View())) ==> Valid(View())
      ensures error.None? <==> ids != [] && Distinct(ids) && AllExist(old(View()), ids)
      ensures error.Some? ==> error.value == (if ids == [] then InvalidInput else NotFound)
      ensures View() == if error.None? then WithoutDocuments(old(View()), IdSet(ids)) else old(View())
      ensures error.None? ==> Removed(old(View()), View(), ids)
      ensures Outcome(old(View()), View(), Op.DeleteDocuments(ids), 0, error, 2)
    {
      RepoIsExact(View(), Op.DeleteDocuments(ids), 0);
      if |ids| < 1 { return Some(InvalidInput); }
      ghost var t := View();
      var d0, g0, p0 := documents, guests, permissions;
      DeleteEachExactly(t, ids);
      if Valid(t) { RemovalValid(t, IdSet(ids)); }
      for i := 0 to |ids|
        invariant DeleteEach(t, ids) == DeleteEach(View(), ids[i..])
      {
        assert ids[i..][1..] == ids[i + 1..];
        var failed := DeleteDocumentHelper(ids[i]);
        if failed.Some? {
          documents, guests, permissions := d0, g0, p0;
          return failed;
        }
      }
      error := None;
    }

    method CreateGuest(guest: Uuid, creator: Uuid, d: Uuid, level: int, now: int) returns (r: Result<Uuid, Error>)
      modifies this
      ensures old(Valid(View())) && level != 2 ==> Valid(View())
      ensures var f := RepoFails(old(View()), Op.CreateGuest(guest, creator, d, level));
              r == if f.Some? then Err(f.value) else Ok(guest)
      ensures View() == RepoApply(old(View()), Op.CreateGuest(guest, creator, d, level), now)
      ensures Outcome(old(View()), View(), Op.CreateGuest(guest, creator, d, level), now, ErrorOf(r), 2)
    {
      RepoIsExact(View(), Op.CreateGuest(guest, creator, d, level), now);
      var parsed := ParseLevel(level);
      if parsed.None? { return Err(InvalidInput); }
      var g0 := guests;
      if d !in documents { return Err(NotFound); }
      if guest in guests { return Err(UniqueConflict); }
      if Valid(View()) { ApplyValid(View(), Op.CreateGuest(guest, creator, d, level), now); }
      guests := guests[guest := GuestRow(d, creator)];
      if (guest, d) in permissions {
        guests := g0;
        return Err(UniqueConflict);
      }
      permissions := permissions[(guest, d) := PermissionRow(Guest, parsed.value, creator, now, now)];
      r := Ok(guest);
    }

    method UpsertPermissionUser(user: Uuid, d: Uuid, level: int, now: int) returns (error: Option<Error>)
      modifies this
      ensures old(Valid(View())) && level != 2 ==> Valid(View())
      ensures error == RepoFails(old(View()), Op.UpsertPermissionUser(user, d, level))
      ensures View() == RepoApply(old(View()), Op.UpsertPermissionUser(user, d, level), now)
      ensures Outcome(old(View()), View(), Op.UpsertPermissionUser(user, d, level), now, error, 2)
    {
      RepoIsExact(View(), Op.UpsertPermissionUser(user, d, level), now);
      var parsed := ParseLevel(level);
      if parsed.None? { return Some(InvalidInput); }
      if d !in documents { return Some(NotFound); }
      if Valid(View()) { ApplyValid(View(), Op.UpsertPermissionUser(user, d, level), now); }
      var ok := UpsertPermissionRow(user, d, parsed.value, now);
      error := if ok then None else Some(RepoImpl);
    }

    method UpdatePermissionGuest(guest: Uuid, level: int, now: int) returns (error: Option<Error>)
      modifies this
      ensures old(Valid(View())) && level != 2 ==> Valid(View())
      ensures error == RepoFails(old(View()), Op.UpdatePermissionGuest(guest, level))
      ensures View() == RepoApply(old(View()), Op.UpdatePermissionGuest(guest, level), now)
      ensures Outcome(old(View()), View(), Op.UpdatePermissionGuest(guest, level), now, error, 2)
    {
      RepoIsExact(View(), Op.UpdatePermissionGuest(guest, level), now);
      var parsed := ParseLevel(level);
      if parsed.None? { return Some(InvalidInput); }
      if guest !in guests { return Some(NotFound); }
      var count := UpdateGuestPermissionRow(guest, guests[guest].document, parsed.value, now);
      error := if count < 1 then Some(NotFound) else None;
    }

    method UpdateDocument(id: Uuid, name: Option<string>, description: Option<string>) returns (error: Option<Error>)
      modifies this
      ensures old(Valid(View())) ==> Valid(View())
      ensures error == RepoFails(old(View()), Op.UpdateDocument(id, name, description))
      ensures View() == RepoApply(old(View()), Op.UpdateDocument(id, name, description), 0)
      ensures Outcome(old(View()), View(), Op.UpdateDocument(id, name, description), 0, error, 2)
    {
      RepoIsExact(View(), Op.UpdateDocument(id, name, description), 0);
      if name.None? && description.None? { return Some(InvalidInput); }
      if id !in documents { return Some(NotFound); }
      if Valid(View()) { ApplyValid(View(), Op.UpdateDocument(id, name, description), 0); }
      var row := documents[id];
      if name.Some? { row := row.(name := name); }
      if description.Some? { row := row.(description := description); }
      documents := documents[id := row];
      error := None;
    }

    method DeletePermissionsPrincipal(recipient: Uuid, d: Uuid) returns (error: Option<Error>)
      modifies this
      ensures old(Valid(View())) ==> Valid(View())
      ensures error == RepoFails(old(View()), DeletePermission(recipient, d))
      ensures View() == RepoApply(old(View()), DeletePermission(recipient, d), 0)
      ensures Outcome(old(View()), View(), DeletePermission(recipient, d), 0, error, 2)
    {
      RepoIsExact(View(), DeletePermission(recipient, d), 0);
      if Valid(View()) { ApplyValid(View(), DeletePermission(recipient, d), 0); }
      if (recipient, d) !in permissions { return Some(NotFound); }
      permissions := permissions - {(recipient, d)};
      error := None;
    }
  }

  /** The refusals of the service: nobody is granted ownership. */
  class DocumentService {
    const repo: DocumentRepository

    constructor (repo: DocumentRepository)
      ensures this.repo == repo
    {
      this.repo := repo;
    }

    method CreateGuest(guest: Uuid, creator: Uuid, d: Uuid, level: int, now: int) returns (r: Result<Uuid, Error>)
      modifies repo
      ensures old(Valid(repo.View())) ==> Valid(repo.View())
      ensures var f := Fails(old(repo.View()), Op.CreateGuest(guest, creator, d, level));
              r == if f.Some? then Err(f.value) else Ok(guest)
      ensures repo.View() == Apply(old(repo.View()), Op.CreateGuest(guest, creator, d, level), now)
      ensures Outcome(old(repo.View()), repo.View(), Op.CreateGuest(guest, creator, d, level), now, ErrorOf(r), 1)
    {
      RequestIsExact(repo.View(), Op.CreateGuest(guest, creator, d, level), now);
      if level == 2 { return Err(InvalidInput); }
      r := repo.CreateGuest(guest, creator, d, level, now);
    }

    method UpsertPermissionUser(user: Uuid, d: Uuid, level: int, now: int) returns (error: Option<Error>)
      modifies repo
      ensures old(Valid(repo.View())) ==> Valid(repo.View())
      ensures error == Fails(old(repo.View()), Op.UpsertPermissionUser(user, d, level))
      ensures repo.View() == Apply(old(repo.View()), Op.UpsertPermissionUser(user, d, level), now)
      ensures Outcome(old(repo.View()), repo.View(), Op.UpsertPermissionUser(user, d, level), now, error, 1)
    {
      RequestIsExact(repo.View(), Op.UpsertPermissionUser(user, d, level), now);
      if level == 2 { return Some(InvalidInput); }
      error := repo.UpsertPermissionUser(user, d, level, now);
    }

    method UpdatePermissionGuest(guest: Uuid, level: int, now: int) returns (error: Option<Error>)
      modifies repo
      ensures old(Valid(repo.View())) ==> Valid(repo.View())
      ensures error == Fails(old(repo.View()), Op.UpdatePermissionGuest(guest, level))
      ensures repo.View() == Apply(old(repo.View()), Op.UpdatePermissionGuest(guest, level), now)
      ensures Outcome(old(repo.View()), repo.View(), Op.UpdatePermissionGuest(guest, level), now, error, 1)
    {
      RequestIsExact(repo.View(), Op.UpdatePermissionGuest(guest, level), now);
      if level == 2 { return Some(InvalidInput); }
      error := repo.UpdatePermissionGuest(guest, level, now);
    }
  }
}
