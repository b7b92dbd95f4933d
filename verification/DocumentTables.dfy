/** The three tables of the document service and what its operations do to them. */
module DocumentTables {
  import opened Wrappers

  type Uuid = nat

  datatype Level = Viewer | Editor | Owner
  datatype RecipientType = User | Guest
  datatype Error = InvalidInput | NotFound | UniqueConflict | RepoImpl | NilPointer

  datatype DocumentRow = DocumentRow(name: Option<string>, description: Option<string>,
                                     createdAt: int, lastModifiedAt: int)
  datatype GuestRow = GuestRow(document: Uuid, createdBy: Uuid)
  datatype PermissionRow = PermissionRow(recipientType: RecipientType, level: Level, createdBy: Uuid,
                                         createdAt: int, lastModifiedAt: int)

  /** Permissions are keyed by recipient, then document. */
  datatype Tables = Tables(documents: map<Uuid, DocumentRow>, guests: map<Uuid, GuestRow>,
                           permissions: map<(Uuid, Uuid), PermissionRow>)

  const EMPTY := Tables(map[], map[], map[])

  // ---------- what the tables keep ----------

  /** The foreign keys of guests and permissions into documents. */
  ghost predicate ForeignKeys(t: Tables) {
    && (forall g :: g in t.guests ==> t.guests[g].document in t.documents)
    && (forall k :: k in t.permissions ==> k.1 in t.documents)
  }

  /** A guest permission has its guest row, on the same document. */
  ghost predicate GuestsBacked(t: Tables) {
    forall k :: k in t.permissions && t.permissions[k].recipientType.Guest? ==>
                  k.0 in t.guests && t.guests[k.0].document == k.1
  }

  predicate IsOwner(t: Tables, user: Uuid, d: Uuid) {
    (user, d) in t.permissions && t.permissions[(user, d)].level.Owner?
  }

  ghost predicate OneOwner(t: Tables) {
    forall u, v, d :: IsOwner(t, u, d) && IsOwner(t, v, d) ==> u == v
  }

  /** An owner is a user, and made the document. */
  ghost predicate OwnersAreUsers(t: Tables) {
    forall u, d :: IsOwner(t, u, d) ==>
                     t.permissions[(u, d)].recipientType.User? && t.permissions[(u, d)].createdBy == u
  }

  ghost predicate Valid(t: Tables) {
    ForeignKeys(t) && GuestsBacked(t) && OneOwner(t) && OwnersAreUsers(t)
  }

  // ---------- the statements ----------

  /** Levels arrive as 32-bit integers. */
  function ParseLevel(level: int): Option<Level> {
    if level == 0 then Some(Viewer) else if level == 1 then Some(Editor) else if level == 2 then Some(Owner) else None
  }

  /** Insert a user's permission; on a conflict only the level and the time change. */
  function UpsertRow(t: Tables, user: Uuid, d: Uuid, level: Level, now: int): Tables {
    t.(permissions := t.permissions[(user, d) :=
      if (user, d) in t.permissions then t.permissions[(user, d)].(level := level, lastModifiedAt := now)
      else PermissionRow(User, level, user, now, now)])
  }

  predicate Referenced(t: Tables, id: Uuid) {
    || (exists g :: g in t.guests && t.guests[g].document == id)
    || (exists k :: k in t.permissions && k.1 == id)
  }

  function WithoutDocument(t: Tables, d: Uuid): Tables {
    Tables(t.documents - {d},
           map g | g in t.guests && t.guests[g].document != d :: t.guests[g],
           map k | k in t.permissions && k.1 != d :: t.permissions[k])
  }

  function WithoutDocuments(t: Tables, ids: set<Uuid>): Tables {
    Tables(t.documents - ids,
           map g | g in t.guests && t.guests[g].document !in ids :: t.guests[g],
           map k | k in t.permissions && k.1 !in ids :: t.permissions[k])
  }

  // ---------- the operations: new tables, and an error or none ----------

  datatype Op =
    | CreateDocument(id: Uuid, user: Uuid, name: Option<string>, description: Option<string>)
    | UpdateDocument(id: Uuid, name: Option<string>, description: Option<string>)
    | DeleteDocument(id: Uuid)
    | DeleteDocuments(ids: seq<Uuid>)
    | CreateGuest(guest: Uuid, creator: Uuid, document: Uuid, level: int)
    | UpsertPermissionUser(user: Uuid, document: Uuid, level: int)
    | UpdatePermissionGuest(guest: Uuid, level: int)
    | DeletePermission(recipient: Uuid, document: Uuid)

  function Created(t: Tables, id: Uuid, user: Uuid, name: Option<string>, description: Option<string>, now: int)
    : Tables
  {
    UpsertRow(t.(documents := t.documents[id := DocumentRow(name, description, now, now)]), user, id, Owner, now)
  }

  function Renamed(t: Tables, id: Uuid, name: Option<string>, description: Option<string>): Tables
    requires id in t.documents
  {
    var row := t.documents[id];
    t.(documents := t.documents[id := row.(name := if name.Some? then name else row.name,
                                           description := if description.Some? then description else row.description)])
  }

  function WithGuest(t: Tables, guest: Uuid, creator: Uuid, d: Uuid, level: Level, now: int): Tables {
    t.(guests := t.guests[guest := GuestRow(d, creator)],
       permissions := t.permissions[(guest, d) := PermissionRow(Guest, level, creator, now, now)])
  }

  predicate Distinct(ids: seq<Uuid>) {
    forall i, j :: 0 <= i < j < |ids| ==> ids[i] != ids[j]
  }

  predicate AllExist(t: Tables, ids: seq<Uuid>) { forall id :: id in ids ==> id in t.documents }

  function IdSet(ids: seq<Uuid>): set<Uuid> { set id | id in ids }

  predicate HasGuestPermission(t: Tables, guest: Uuid) {
    && guest in t.guests && (guest, t.guests[guest].document) in t.permissions
    && t.permissions[(guest, t.guests[guest].document)].recipientType.Guest?
  }

  /** The error of a call to the repository, if any. */
  function RepoFails(t: Tables, op: Op): Option<Error> {
    match op
    case CreateDocument(id, _, _, _) => if id in t.documents then Some(RepoImpl) else None
    case UpdateDocument(id, name, description) =>
      if name.None? && description.None? then Some(InvalidInput)
      else if id !in t.documents then Some(NotFound) else None
    case DeleteDocument(id) => if id !in t.documents then Some(NotFound) else None
    case DeleteDocuments(ids) =>
      if ids == [] then Some(InvalidInput) else if !(Distinct(ids) && AllExist(t, ids)) then Some(NotFound) else None
    case CreateGuest(guest, _, d, level) =>
      if ParseLevel(level).None? then Some(InvalidInput) else if d !in t.documents then Some(NotFound)
      else if guest in t.guests || (guest, d) in t.permissions then Some(UniqueConflict) else None
    case UpsertPermissionUser(_, d, level) =>
      if ParseLevel(level).None? then Some(InvalidInput) else if d !in t.documents then Some(NotFound) else None
    case UpdatePermissionGuest(guest, level) =>
      if ParseLevel(level).None? then Some(InvalidInput)
      else if !HasGuestPermission(t, guest) then Some(NotFound) else None
    case DeletePermission(u, d) => if (u, d) !in t.permissions then Some(NotFound) else None
  }

  /** The tables after a call that succeeds. */
  function Succeeds(t: Tables, op: Op, now: int): Tables
    requires RepoFails(t, op).None?
  {
    match op
    case CreateDocument(id, user, name, description) => Created(t, id, user, name, description, now)
    case UpdateDocument(id, name, description) => Renamed(t, id, name, description)
    case DeleteDocument(id) => WithoutDocument(t, id)
    case DeleteDocuments(ids) => WithoutDocuments(t, IdSet(ids))
    case CreateGuest(guest, creator, d, level) => WithGuest(t, guest, creator, d, ParseLevel(level).value, now)
    case UpsertPermissionUser(user, d, level) => UpsertRow(t, user, d, ParseLevel(level).value, now)
    case UpdatePermissionGuest(guest, level) =>
      t.(permissions := t.permissions[(guest, t.guests[guest].document) :=
        t.permissions[(guest, t.guests[guest].document)].(level := ParseLevel(level).value, lastModifiedAt := now)])
    case DeletePermission(u, d) => t.(permissions := t.permissions - {(u, d)})
  }

  function RepoApply(t: Tables, op: Op, now: int): Tables {
    if RepoFails(t, op).Some? then t else Succeeds(t, op, now)
  }

  /** The requests that would grant ownership. */
  predicate Grants(op: Op) {
    (op.CreateGuest? || op.UpsertPermissionUser? || op.UpdatePermissionGuest?) && op.level == 2
  }

  /** The service refuses those, and passes the others on. */
  function Fails(t: Tables, op: Op): Option<Error> { if Grants(op) then Some(InvalidInput) else RepoFails(t, op) }

  function Apply(t: Tables, op: Op, now: int): Tables { if Grants(op) then t else RepoApply(t, op, now) }

  // ---------- what every request keeps ----------

  lemma CreatedValid(t: Tables, id: Uuid, user: Uuid, name: Option<string>, description: Option<string>, now: int)
    requires Valid(t) && id !in t.documents
    ensures Valid(Created(t, id, user, name, description, now))
  {
    var t' := Created(t, id, user, name, description, now);
    assert (user, id) !in t.permissions;
    forall u, d | IsOwner(t', u, d) ensures (u == user && d == id) || IsOwner(t, u, d) {}
  }

  /** The repository itself would grant ownership. It keeps the tables valid exactly if the level
      is below owner, or the recipient is a user who already made the row or has none, and nobody
      else owns the document: the service's refusal is what keeps one owner. */
  lemma UpsertValid(t: Tables, user: Uuid, d: Uuid, level: Level, now: int)
    requires Valid(t) && d in t.documents
    ensures Valid(UpsertRow(t, user, d, level, now)) <==>
              level.Owner? ==>
                && (forall v :: v != user ==> !IsOwner(t, v, d))
                && ((user, d) in t.permissions ==>
                      t.permissions[(user, d)].recipientType.User? && t.permissions[(user, d)].createdBy == user)
  {
    var t' := UpsertRow(t, user, d, level, now);
    assert forall v: Uuid, e: Uuid :: (v, e) != (user, d) ==> (IsOwner(t', v, e) <==> IsOwner(t, v, e));
    assert IsOwner(t', user, d) <==> level.Owner?;
    assert ForeignKeys(t') && GuestsBacked(t');
    if level.Owner? {
      assert OneOwner(t') ==> forall v :: v != user ==> !IsOwner(t, v, d) by {
        if OneOwner(t') {
          forall v | v != user ensures !IsOwner(t, v, d) { assert IsOwner(t', v, d) <==> IsOwner(t, v, d); }
        }
      }
    }
  }

  lemma RemovalValid(t: Tables, ids: set<Uuid>)
    requires Valid(t)
    ensures Valid(WithoutDocuments(t, ids))
  {
    var t' := WithoutDocuments(t, ids);
    forall u, d | IsOwner(t', u, d) ensures IsOwner(t, u, d) {}
  }

  lemma WithGuestValid(t: Tables, guest: Uuid, creator: Uuid, d: Uuid, level: Level, now: int)
    requires Valid(t) && d in t.documents && guest !in t.guests && (guest, d) !in t.permissions && !level.Owner?
    ensures Valid(WithGuest(t, guest, creator, d, level, now))
  {
    var t' := WithGuest(t, guest, creator, d, level, now);
    forall u, e | IsOwner(t', u, e) ensures IsOwner(t, u, e) {}
  }

  /** The other requests make no owner. */
  lemma NoNewOwner(t: Tables, op: Op, now: int, u: Uuid, d: Uuid)
    requires IsOwner(Apply(t, op, now), u, d)
    ensures IsOwner(t, u, d) || (op.CreateDocument? && op.user == u && op.id == d && op.id !in t.documents)
  {
  }

  /** Every request to the service, on any tables it may meet, keeps foreign keys, a guest row
      behind each guest permission, and at most one owner per document, a user. */
  lemma ApplyValid(t: Tables, op: Op, now: int)
    requires Valid(t)
    ensures Valid(Apply(t, op, now))
  {
    if Fails(t, op).None? {
      var t' := Apply(t, op, now);
      assert t' == Succeeds(t, op, now);
      match op
      case CreateDocument(id, user, name, description) => CreatedValid(t, id, user, name, description, now);
      case UpdateDocument(_, _, _) =>
        forall u, d | IsOwner(t', u, d) ensures IsOwner(t, u, d) {}
      case DeleteDocument(id) =>
        assert WithoutDocument(t, id) == WithoutDocuments(t, {id});
        RemovalValid(t, {id});
      case DeleteDocuments(ids) => RemovalValid(t, IdSet(ids));
      case CreateGuest(guest, creator, d, level) => WithGuestValid(t, guest, creator, d, ParseLevel(level).value, now);
      case UpsertPermissionUser(user, d, level) => UpsertValid(t, user, d, ParseLevel(level).value, now);
      case UpdatePermissionGuest(_, _) =>
        forall u, d | IsOwner(t', u, d) ensures IsOwner(t, u, d) { NoNewOwner(t, op, now, u, d); }
      case DeletePermission(_, _) =>
        forall u, d | IsOwner(t', u, d) ensures IsOwner(t, u, d) {}
    }
  }

  // ---------- whole histories ----------

  datatype Request = Request(op: Op, now: int)

  function After(t: Tables, requests: seq<Request>): Tables
    decreases |requests|
  {
    if requests == [] then t
    else
      var last := requests[|requests| - 1];
      Apply(After(t, requests[..|requests| - 1]), last.op, last.now)
  }

  lemma {:induction false} HistoryValid(requests: seq<Request>)
    ensures Valid(After(EMPTY, requests))
    decreases |requests|
  {
    if requests != [] {
      HistoryValid(requests[..|requests| - 1]);
      var last := requests[|requests| - 1];
      ApplyValid(After(EMPTY, requests[..|requests| - 1]), last.op, last.now);
    }
  }

  ghost predicate MadeAt(requests: seq<Request>, k: nat, u: Uuid, d: Uuid)
    requires k < |requests|
  {
    && requests[k].op.CreateDocument? && requests[k].op.user == u && requests[k].op.id == d
    && d !in After(EMPTY, requests[..k]).documents
  }

  ghost predicate OwnedSince(requests: seq<Request>, k: nat, u: Uuid, d: Uuid) {
    forall m :: k < m <= |requests| ==> IsOwner(After(EMPTY, requests[..m]), u, d)
  }

  lemma OwnedStill(requests: seq<Request>, k: nat, u: Uuid, d: Uuid)
    requires requests != [] && IsOwner(After(EMPTY, requests), u, d)
    requires OwnedSince(requests[..|requests| - 1], k, u, d)
    ensures OwnedSince(requests, k, u, d)
  {
    var before := requests[..|requests| - 1];
    forall m | k < m <= |requests| ensures IsOwner(After(EMPTY, requests[..m]), u, d) {
      if m < |requests| { assert before[..m] == requests[..m]; } else { assert requests[..m] == requests; }
    }
  }

  /** Whoever owns a document made it: some earlier request created it for that user, and the
      user has owned it ever since. */
  lemma {:induction false} OwnersCreated(requests: seq<Request>, u: Uuid, d: Uuid)
    requires IsOwner(After(EMPTY, requests), u, d)
    ensures exists k: nat :: k < |requests| && MadeAt(requests, k, u, d) && OwnedSince(requests, k, u, d)
    decreases |requests|
  {
    if requests != [] {
      var n := |requests| - 1;
      var before := requests[..n];
      NoNewOwner(After(EMPTY, before), requests[n].op, requests[n].now, u, d);
      if IsOwner(After(EMPTY, before), u, d) {
        OwnersCreated(before, u, d);
        var k: nat :| k < n && MadeAt(before, k, u, d) && OwnedSince(before, k, u, d);
        assert before[..k] == requests[..k];
        OwnedStill(requests, k, u, d);
        assert MadeAt(requests, k, u, d);
      } else {
        assert MadeAt(requests, n, u, d);
        OwnedStill(requests, n, u, d);
      }
    }
  }

  // ---------- the two statements of updating a guest ----------

  /** The update, for the document that the select has read. */
  function GuestRowUpdated(t: Tables, guest: Uuid, d: Uuid, level: Level, now: int): Tables {
    if IsGuestRow(t, guest, d) then
      var row := t.permissions[(guest, d)].(level := level, lastModifiedAt := now);
      t.(permissions := t.permissions[(guest, d) := row])
    else t
  }

  predicate IsGuestRow(t: Tables, guest: Uuid, d: Uuid) {
    (guest, d) in t.permissions && t.permissions[(guest, d)].recipientType.Guest?
  }

  ghost predicate NotCreated(requests: seq<Request>, guest: Uuid, a: nat, b: nat)
    requires b <= |requests|
  {
    forall m :: a <= m < b ==> !(requests[m].op.CreateGuest? && requests[m].op.guest == guest)
  }

  /** A guest that is there was there before, on the same document, unless it was created since. */
  lemma {:induction false} GuestKept(requests: seq<Request>, guest: Uuid, a: nat, b: nat)
    requires a <= b <= |requests| && NotCreated(requests, guest, a, b) && guest in After(EMPTY, requests[..b]).guests
    ensures guest in After(EMPTY, requests[..a]).guests
    ensures After(EMPTY, requests[..a]).guests[guest] == After(EMPTY, requests[..b]).guests[guest]
    decreases b
  {
    if a < b {
      assert requests[..b][..b - 1] == requests[..b - 1];
      GuestStep(After(EMPTY, requests[..b - 1]), requests[b - 1].op, requests[b - 1].now, guest);
      GuestKept(requests, guest, a, b - 1);
    }
  }

  lemma GuestStep(t: Tables, op: Op, now: int, guest: Uuid)
    requires guest in Apply(t, op, now).guests && !(op.CreateGuest? && op.guest == guest)
    ensures guest in t.guests && t.guests[guest] == Apply(t, op, now).guests[guest]
  {
  }

  /** `UpdatePermissionGuest` reads the guest's document in one statement and updates in another.
      Whatever requests come between them, it does what it would do at once at the time of the
      update: the same tables, and not found exactly then. (Ids of guests are not reused.) */
  lemma GuestUpdateIsAtomic(requests: seq<Request>, guest: Uuid, level: int, now: int, a: nat, b: nat)
    requires a <= b <= |requests| && NotCreated(requests, guest, a, b)
    requires level in {0, 1} && guest in After(EMPTY, requests[..a]).guests
    ensures var d, t := After(EMPTY, requests[..a]).guests[guest].document, After(EMPTY, requests[..b]);
            && GuestRowUpdated(t, guest, d, ParseLevel(level).value, now) ==
                 Apply(t, UpdatePermissionGuest(guest, level), now)
            && Fails(t, UpdatePermissionGuest(guest, level)) == if IsGuestRow(t, guest, d) then None else Some(NotFound)
  {
    HistoryValid(requests[..b]);
    if guest in After(EMPTY, requests[..b]).guests { GuestKept(requests, guest, a, b); }
  }

  // ---------- times ----------

  ghost predicate TimesOk(t: Tables, now: int) {
    && (forall d :: d in t.documents ==> t.documents[d].createdAt == t.documents[d].lastModifiedAt <= now)
    && (forall k :: k in t.permissions ==> t.permissions[k].createdAt <= t.permissions[k].lastModifiedAt <= now)
  }

  predicate Ordered(requests: seq<Request>) {
    forall i :: 0 < i < |requests| ==> requests[i - 1].now <= requests[i].now
  }

  lemma ApplyTimes(t: Tables, op: Op, before: int, now: int)
    requires TimesOk(t, before) && before <= now
    ensures TimesOk(Apply(t, op, now), now)
  {
  }

  /** No request ever sets a document's `last_modified_at`, not even `UpdateDocument`: in every
      history with a clock that does not go back it equals `created_at`, so both sort orders of
      documents are the same. Permission rows are only ever modified after they are created. */
  lemma {:induction false} TimesInHistory(requests: seq<Request>)
    requires Ordered(requests)
    ensures requests != [] ==> TimesOk(After(EMPTY, requests), requests[|requests| - 1].now)
    decreases |requests|
  {
    if requests != [] {
      var before, last := requests[..|requests| - 1], requests[|requests| - 1];
      TimesInHistory(before);
      ApplyTimes(After(EMPTY, before), last.op, if before == [] then last.now else before[|before| - 1].now, last.now);
    }
  }

  // ---------- deleting in a loop ----------

  /** One document after the other, as the transaction does; none if one of them is missing. */
  function DeleteEach(t: Tables, ids: seq<Uuid>): Option<Tables>
    decreases |ids|
  {
    if ids == [] then Some(t)
    else if ids[0] !in t.documents then None
    else DeleteEach(WithoutDocument(t, ids[0]), ids[1..])
  }

  /** The loop goes through exactly if the ids are distinct and exist, and then removes just them. */
  lemma {:induction false} DeleteEachExactly(t: Tables, ids: seq<Uuid>)
    ensures DeleteEach(t, ids).Some? <==> Distinct(ids) && AllExist(t, ids)
    ensures DeleteEach(t, ids).Some? ==> DeleteEach(t, ids).value == WithoutDocuments(t, IdSet(ids))
    decreases |ids|
  {
    if ids == [] {
      assert WithoutDocuments(t, {}) == t;
      assert IdSet(ids) == {};
    } else {
      var rest, t' := ids[1..], WithoutDocument(t, ids[0]);
      DeleteEachExactly(t', rest);
      DistinctStep(ids);
      assert IdSet(ids) == IdSet(rest) + {ids[0]} by { assert ids == [ids[0]] + rest; }
      if ids[0] in t.documents { ExistStep(t, ids); }
      RemoveStep(t, ids[0], IdSet(rest));
    }
  }

  lemma RemoveStep(t: Tables, id: Uuid, ids: set<Uuid>)
    ensures WithoutDocuments(WithoutDocument(t, id), ids) == WithoutDocuments(t, ids + {id})
  {
  }

  lemma ExistStep(t: Tables, ids: seq<Uuid>)
    requires ids != [] && ids[0] in t.documents
    ensures AllExist(WithoutDocument(t, ids[0]), ids[1..]) <==> AllExist(t, ids) && ids[0] !in ids[1..]
  {
    assert ids == [ids[0]] + ids[1..];
  }

  lemma DistinctStep(ids: seq<Uuid>)
    requires ids != []
    ensures Distinct(ids) <==> Distinct(ids[1..]) && ids[0] !in ids[1..]
  {
    var rest := ids[1..];
    assert forall j :: 0 <= j < |rest| ==> rest[j] == ids[j + 1];
    if !Distinct(ids) {
      var i, j :| 0 <= i < j < |ids| && ids[i] == ids[j];
      assert rest[j - 1] == ids[j];
      if i > 0 { assert rest[i - 1] == ids[i]; }
    }
  }
}
