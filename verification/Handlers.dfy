/** The websocket handlers as the code runs them, one task at a time: parsing an update,
    persisting and broadcasting it, the server's vector, and the server's sync step two. */
module Handlers {
  import opened Wrappers
  import OpLog
  import opened Multirange
  import opened Repository
  import SyncProtocol

  // ---------- parsing ----------

  /** A decoded update: the clocks it inserts and deletes, as ranges per client. */
  datatype Update = Update(insertions: map<u64, seq<URange>>, deletes: DeletionSet)

  /** An id range of the CRDT library: ordered and without empty pieces. */
  ghost predicate WellFormed(u: Update) {
    forall c :: c in u.insertions ==> Normal(u.insertions[c])
  }

  /** The inclusive upper clock of this client's insertions, and the deletions if any. */
  function ParseUpdate(client: u64, u: Update): (r: (Option<u32>, Option<DeletionSet>))
    requires WellFormed(u)
    ensures r.0.Some? ==> client in u.insertions && Has(u.insertions[client], r.0.value)
    ensures r.0.Some? ==> forall x :: Has(u.insertions[client], x) ==> x <= r.0.value
    ensures r.0.None? ==> client !in u.insertions || u.insertions[client] == []
    ensures r.1.Some? <==> u.deletes != map[]
    ensures r.1.Some? ==> r.1.value == u.deletes
  {
    var offset: Option<u32> :=
      if client in u.insertions && u.insertions[client] != [] then
        var ranges := u.insertions[client];
        var last := ranges[|ranges| - 1];
        assert last.lo <= last.hi - 1 < last.hi;
        Some(last.hi - 1)
      else None;
    (offset, if u.deletes == map[] then None else Some(u.deletes))
  }

  /** The elements a deletion set names. */
  function DelIds(ds: DeletionSet): (ids: set<OpLog.Id>)
    ensures forall i :: i in ids <==> i.client < TWO_64 && Deletes(ds, i.client, i.clock)
  {
    var ids := set c, k, x | c in ds && 0 <= k < |ds[c]| && ds[c][k].lo <= x < ds[c][k].hi :: OpLog.Id(c, x);
    ids
  }

  /** The update as the operation log sees it: one run of the sender's own clocks. */
  function PayloadOf(client: u64, u: Update): OpLog.Payload
    requires WellFormed(u)
  {
    var dels := DelIds(u.deletes);
    if client in u.insertions && u.insertions[client] != [] then
      OpLog.Payload(u.insertions[client][0].lo, u.insertions[client][|u.insertions[client]| - 1].hi, dels)
    else OpLog.Payload(0, 0, dels)
  }

  /** An update is stored under its payload's key, and its payload is exactly what it inserts for
      its sender if and only if that is one run of clocks: a gap between two runs would count as
      received. */
  lemma PayloadExactly(client: u64, u: Update)
    requires WellFormed(u) && client in u.insertions && u.insertions[client] != []
    ensures var own, p := u.insertions[client], PayloadOf(client, u);
            && SyncProtocol.HasClocks(p)
            && SyncProtocol.RowKey(client, p) == OpLog.OpKey(client, ParseUpdate(client, u).0.value)
            && (|own| == 1 <==> forall x: nat :: OpLog.Id(client, x) in OpLog.Ids(client, p) <==> Has(own, x))
  {
    var own, p := u.insertions[client], PayloadOf(client, u);
    assert Has(own, own[|own| - 1].lo);
    if |own| > 1 {
      var gap: nat := own[0].hi;
      assert OpLog.Id(client, gap) in OpLog.Ids(client, p) by { assert own[0].hi < own[|own| - 1].lo; }
      assert !Has(own, gap);
    }
  }

  /** The payload of a stored row has exactly the update's deletions, whoever's elements they are. */
  lemma PayloadDeletions(client: u64, u: Update, d: OpLog.Id)
    requires WellFormed(u)
    ensures d in PayloadOf(client, u).dels <==> d.client < TWO_64 && Deletes(u.deletes, d.client, d.clock)
  {
    assert d in DelIds(u.deletes) <==> d.client < TWO_64 && Deletes(u.deletes, d.client, d.clock);
  }

  /** The handler's comparison is the protocol's: what the protocol's reader would insert after
      reading the maximum is what is above every row of the client. */
  lemma NewerIsProtocolNewer(log: OpLog.Log, client: u64, u: Update)
    requires WellFormed(u) && client in u.insertions && u.insertions[client] != []
    ensures SyncProtocol.IsNewer(SyncProtocol.ReadLast(PayloadOf(client, u), OpLog.Last(log, client))) <==>
              forall k :: k in log && k.client == client ==> k.offset < ParseUpdate(client, u).0.value
  {
    var last := OpLog.Last(log, client);
    if last.Some? { assert OpLog.OpKey(client, last.value) in log; }
  }

  // ---------- the deletion table as the protocol sees it ----------

  ghost function RowIds(client: i64, ranges: seq<Range>): set<OpLog.Id> {
    set x: nat | 0 <= x < TWO_32 && Has(ranges, x) :: OpLog.Id(I64ToClient(client), x)
  }

  ghost function TopicDels(t: DelTable, topic: nat): set<OpLog.Id> {
    set k, i | k in t && k.topic == topic && i in RowIds(k.client, t[k].ranges) :: i
  }

  lemma TopicDelsAt(t: DelTable, topic: nat, i: OpLog.Id)
    requires ValidDels(t)
    ensures i in TopicDels(t, topic) <==> i.client < TWO_64 && InTable(t, topic, i.client, i.clock)
  {
    if i.client < TWO_64 && InTable(t, topic, i.client, i.clock) {
      var key := DelKey(topic, ClientToI64(i.client));
      ClientCastsRoundTrip(i.client, 0);
      assert Bounded(t[key].ranges);
      assert i in RowIds(key.client, t[key].ranges);
    }
    if i in TopicDels(t, topic) {
      var k :| k in t && k.topic == topic && i in RowIds(k.client, t[k].ranges);
      ClientCastsRoundTrip(0, k.client);
    }
  }

  /** The upsert is the protocol's deletion step: the set becomes the union, and for the
      non-empty ranges of real updates the flag says that it grew. */
  lemma UpsertIsProtocolStep(t: DelTable, topic: nat, user: nat, ds: DeletionSet)
    requires ValidDels(t)
    ensures ValidDels(Upsert(t, topic, user, ds))
    ensures TopicDels(Upsert(t, topic, user, ds), topic) == TopicDels(t, topic) + DelIds(ds)
    ensures (forall c, i :: c in ds && 0 <= i < |ds[c]| ==> ds[c][i].lo < ds[c][i].hi) ==>
              (Novel(t, topic, ds) <==> !(DelIds(ds) <= TopicDels(t, topic)))
  {
    UpsertValid(t, topic, user, ds);
    forall i ensures i in TopicDels(Upsert(t, topic, user, ds), topic) <==> i in TopicDels(t, topic) + DelIds(ds) {
      TopicDelsAt(t, topic, i);
      TopicDelsAt(Upsert(t, topic, user, ds), topic, i);
      if i.client < TWO_64 { UpsertIsUnion(t, topic, user, ds, topic, i.client, i.clock); }
    }
    if forall c, i :: c in ds && 0 <= i < |ds[c]| ==> ds[c][i].lo < ds[c][i].hi {
      NovelMeansGrowth(t, topic, ds);
      if c: u64, x: int :| Deletes(ds, c, x) && !InTable(t, topic, c, x) {
        assert x >= 0;
        TopicDelsAt(t, topic, OpLog.Id(c, x));
        assert OpLog.Id(c, x) in DelIds(ds);
      }
      if i :| i in DelIds(ds) && i !in TopicDels(t, topic) {
        TopicDelsAt(t, topic, i);
        assert Deletes(ds, i.client, i.clock) && !InTable(t, topic, i.client, i.clock);
      }
    }
  }

  // ---------- the broadcast channel ----------

  datatype Operation = Operation(client: u64, offset: Option<u32>, update: Update, hasDeletion: bool)

  /** A stand-in for the sender: the number of receivers on its channel, what it has sent there,
      and what it has handed to the NATS client, whose answer is given. */
  class WrappedSender {
    var receivers: nat
    var sent: seq<Operation>
    var published: seq<Operation>

    /** Best effort on both ways: the one may fail and the other not. */
    method Send(op: Operation, natsAccepts: bool) returns (channel: Result<nat, Operation>, nats: bool)
      modifies this`sent, this`published
      ensures channel.Ok? <==> receivers > 0
      ensures sent == if receivers > 0 then old(sent) + [op] else old(sent)
      ensures nats == natsAccepts && published == if nats then old(published) + [op] else old(published)
    {
      channel := if receivers == 0 then Err(op) else Ok(receivers);
      if receivers > 0 { sent := sent + [op]; }
      if natsAccepts { published := published + [op]; }
      nats := natsAccepts;
    }
  }

  datatype TaskError = DecodeError | PersistenceError | ReaderToBroadcastSendError
  datatype MessageOutcome = MessageOutcome(persistedUpdate: bool, persistedDeletion: bool, broadcastMessage: bool,
                                           internalBroadcast: bool, natsClientBroadcast: bool)

  class WebsocketHandler {
    const topic: nat
    const user: nat
    const client: u64
    const repo: PgRepo

    constructor (topic: nat, user: nat, client: u64, repo: PgRepo)
      ensures this.topic == topic && this.user == user && this.client == client && this.repo == repo
    {
      this.topic, this.user, this.client, this.repo := topic, user, client, repo;
    }

    /** From the first to the last own clock, and all the deletions. */
    static ghost predicate HoldsUpdate(p: OpLog.Payload, client: u64, u: Update) {
      && client in u.insertions && u.insertions[client] != []
      && p.lo == u.insertions[client][0].lo && p.hi == u.insertions[client][|u.insertions[client]| - 1].hi
      && forall d :: d in p.dels <==> d.client < TWO_64 && Deletes(u.deletes, d.client, d.clock)
    }

    static ghost predicate AboveAll(log: OpLog.Log, client: u64, offset: Option<u32>) {
      offset.Some? && forall k :: k in log && k.client == client ==> k.offset < offset.value
    }

    /** Whether the update's last own clock is above the stored maximum. */
    ghost predicate Newer(u: Update)
      requires repo.Valid() && WellFormed(u)
      reads repo
    {
      var last := OpLog.Last(TopicLog(repo.operations, topic), client);
      var offset := ParseUpdate(client, u).0;
      offset.Some? && (last.None? || last.value < offset.value)
    }

    ghost predicate Inverted(u: Update) {
      exists c, x :: c in u.deletes && x in u.deletes[c] && x.lo > x.hi
    }

    /** The operation table's part: read the maximum, compare, insert or ignore. */
    method PersistOperation(u: Update, offset: Option<u32>) returns (persisted: bool)
      requires repo.Valid() && WellFormed(u) && offset == ParseUpdate(client, u).0
      modifies repo`operations
      ensures repo.Valid()
      ensures persisted == old(Newer(u))
      // exactly if the client's last own clock is above all that is stored of it
      ensures persisted <==> AboveAll(old(TopicLog(repo.operations, topic)), client, offset)
      ensures TopicLog(repo.operations, topic) ==
                if persisted
                then OpLog.Insert(old(TopicLog(repo.operations, topic)),
                                  OpLog.OpKey(client, offset.value), PayloadOf(client, u))
                else old(TopicLog(repo.operations, topic))
      ensures !persisted ==> repo.operations == old(repo.operations)
      // the new row holds the whole update
      ensures persisted ==> var key := OpLog.OpKey(client, offset.value);
                && key !in old(TopicLog(repo.operations, topic)) && key in TopicLog(repo.operations, topic)
                && HoldsUpdate(TopicLog(repo.operations, topic)[key], client, u)
    {
      forall d ensures d in PayloadOf(client, u).dels <==> d.client < TWO_64 && Deletes(u.deletes, d.client, d.clock) {
        PayloadDeletions(client, u, d);
      }
      persisted := false;
      if offset.Some? {
        var last := repo.ReadLastReceivedOffset(topic, client);
        if last.None? || last.value < offset.value {
          repo.WriteOperation(topic, user, client, offset.value, PayloadOf(client, u));
          persisted := true;
        }
      }
    }

    /** The deletion table's part. */
    method PersistDeletions(u: Update, deletes: Option<DeletionSet>) returns (r: Result<bool, RepoError>)
      requires repo.Valid() && WellFormed(u) && deletes == ParseUpdate(client, u).1
      modifies repo`deletions
      ensures repo.Valid()
      ensures r.Err? <==> Inverted(u)
      ensures repo.deletions == if r.Err? then old(repo.deletions)
                                else Upsert(old(repo.deletions), topic, user, u.deletes)
      ensures r.Ok? ==> r.value == Novel(old(repo.deletions), topic, u.deletes)
    {
      EmptyUpsert(repo.deletions, topic, user);
      if deletes.None? { return Ok(false); }
      r := repo.WriteDeletionSetIfNovel(topic, user, deletes.value);
    }

    /** What reaches the two ways out, and the result, once both tables are written. */
    ghost predicate BroadcastOutcome(r: Result<(Option<u32>, MessageOutcome), TaskError>, op: Operation, newer: bool,
                                     novel: bool, receivers: nat, natsAccepts: bool, toChannel: seq<Operation>,
                                     toNats: seq<Operation>)
    {
      if !newer && !novel then
        toChannel == toNats == [] && r == Ok((op.offset, MessageOutcome(false, false, false, false, false)))
      else
        && toChannel == (if receivers > 0 then [op] else [])
        && toNats == (if natsAccepts then [op] else [])
        && r == if receivers > 0 then Ok((op.offset, MessageOutcome(newer, novel, true, true, natsAccepts)))
                else Err(ReaderToBroadcastSendError)
    }

    method BroadcastIfNovel(op: Operation, persistedUpdate: bool, persistedDeletion: bool, sender: WrappedSender,
                            natsAccepts: bool)
      returns (r: Result<(Option<u32>, MessageOutcome), TaskError>)
      modifies sender`sent, sender`published
      ensures old(sender.sent) <= sender.sent && old(sender.published) <= sender.published
      ensures BroadcastOutcome(r, op, persistedUpdate, persistedDeletion, sender.receivers, natsAccepts,
                               sender.sent[|old(sender.sent)|..], sender.published[|old(sender.published)|..])
    {
      var internalBroadcast, natsClientBroadcast := false, false;
      if persistedUpdate || persistedDeletion {
        var channel, nats := sender.Send(op, natsAccepts);
        if channel.Err? { return Err(ReaderToBroadcastSendError); }
        internalBroadcast, natsClientBroadcast := true, nats;
      }
      r := Ok((op.offset, MessageOutcome(persistedUpdate, persistedDeletion, persistedUpdate || persistedDeletion,
                                         internalBroadcast, natsClientBroadcast)));
    }

    /** Persist what is novel, then broadcast if something was. An undecodable update changes
        nothing. An error of the deletion statement leaves the operation stored and unsent;
        a failed broadcast leaves both tables written, and may have gone out to NATS. */
    method PersistAndBroadcastUpdate(decoded: Option<Update>, sender: WrappedSender, natsAccepts: bool)
      returns (r: Result<(Option<u32>, MessageOutcome), TaskError>)
      requires repo.Valid() && (decoded.Some? ==> WellFormed(decoded.value))
      modifies repo, sender`sent, sender`published
      ensures repo.Valid()
      ensures old(sender.sent) <= sender.sent && old(sender.published) <= sender.published
      ensures decoded.None? ==>
                r == Err(DecodeError) && sender.sent == old(sender.sent) && sender.published == old(sender.published) &&
                repo.operations == old(repo.operations) && repo.deletions == old(repo.deletions)
      ensures decoded.Some? ==> var u := decoded.value;
                TopicLog(repo.operations, topic) ==
                  if old(Newer(u))
                  then OpLog.Insert(old(TopicLog(repo.operations, topic)),
                                    OpLog.OpKey(client, ParseUpdate(client, u).0.value), PayloadOf(client, u))
                  else old(TopicLog(repo.operations, topic))
      ensures decoded.Some? ==> var u := decoded.value; var own := ParseUpdate(client, u).0;
                && (old(Newer(u)) <==> AboveAll(old(TopicLog(repo.operations, topic)), client, own))
                && (old(Newer(u)) ==>
                      && OpLog.OpKey(client, own.value) in TopicLog(repo.operations, topic)
                      && HoldsUpdate(TopicLog(repo.operations, topic)[OpLog.OpKey(client, own.value)], client, u))
      ensures decoded.Some? ==> var u := decoded.value;
                && (Inverted(u) <==> r == Err(PersistenceError))
                && repo.deletions == if Inverted(u) then old(repo.deletions)
                                     else Upsert(old(repo.deletions), topic, user, u.deletes)
      ensures decoded.Some? && !Inverted(decoded.value) ==> var u := decoded.value;
                var novel := Novel(old(repo.deletions), topic, u.deletes);
                BroadcastOutcome(r, Operation(client, ParseUpdate(client, u).0, u, novel), old(Newer(u)), novel,
                                 sender.receivers, natsAccepts, sender.sent[|old(sender.sent)|..],
                                 sender.published[|old(sender.published)|..])
      ensures r == Err(PersistenceError) ==>
                sender.sent == old(sender.sent) && sender.published == old(sender.published)
    {
      if decoded.None? { return Err(DecodeError); }
      var u := decoded.value;
      var (offset, deletes) := ParseUpdate(client, u);
      var persistedUpdate := PersistOperation(u, offset);
      var w := PersistDeletions(u, deletes);
      if w.Err? { return Err(PersistenceError); }
      var persistedDeletion := w.value;
      r := BroadcastIfNovel(Operation(client, offset, u, persistedDeletion), persistedUpdate, persistedDeletion,
                            sender, natsAccepts);
    }

    /** The server's sync step one: the exclusive end of what it has from this client. The
        addition is on u32 and wraps: the vector is right exactly if that end is a u32. */
    method BuildServerSyncStep1() returns (sv: map<u64, u32>)
      requires repo.Valid()
      ensures forall c :: c in sv ==> c == client
      ensures var end := OpLog.Top(TopicLog(repo.operations, topic), client);
              && (client in sv <==> end > 0)
              && (client in sv ==> sv[client] == end % TWO_32)
              && ((if client in sv then sv[client] else 0) == end <==> end < TWO_32)
    {
      var last := repo.ReadLastReceivedOffset(topic, client);
      sv := map[];
      if last.Some? {
        sv := sv[client := (last.value + 1) % TWO_32];
      }
    }

    /** The server's sync step two for a vector: the rows at or above it merged with the
        topic's deletions, carried through the range conversions and rebuilt. */
    method ProcessClientSyncStepOne(sv: map<u64, u32>) returns (ids: set<OpLog.Id>, dels: set<OpLog.Id>)
      requires repo.Valid()
      ensures ids == OpLog.IdsAfter(TopicLog(repo.operations, topic), sv)
      ensures dels == OpLog.DelsAfter(TopicLog(repo.operations, topic), sv) + TopicDels(repo.deletions, topic)
    {
      var rows := repo.ReadOperationsAfter(sv, topic);
      var stored := RebuildDeletions();
      ids := MergedIds(rows);
      dels := MergedDels(rows) + stored;
      MergedIdsAreSelected(sv);
      MergedDelsAreSelected(sv);
    }

    /** The deletion round trip: what the table holds, read back through the range
        conversions and rebuilt, is exactly what it holds. */
    method RebuildDeletions() returns (dels: set<OpLog.Id>)
      requires repo.Valid()
      ensures dels == TopicDels(repo.deletions, topic)
    {
      var stored := repo.ReadDocDeletionSet(topic);
      var rebuilt := HackyBuildDeleteMessage(stored);
      dels := DelIds(rebuilt);
      SameDeletions(repo.deletions, topic, rebuilt);
    }

    lemma MergedIdsAreSelected(sv: map<u64, u32>)
      requires repo.Valid()
      ensures MergedIds(repo.ReadOperationsAfter(sv, topic)) == OpLog.IdsAfter(TopicLog(repo.operations, topic), sv)
    {
      var rows := repo.ReadOperationsAfter(sv, topic);
      forall i ensures i in MergedIds(rows) <==> i in OpLog.IdsAfter(TopicLog(repo.operations, topic), sv) {
        repo.SelectedRows(sv, topic, i);
        if i in MergedIds(rows) {
          var k :| k in rows && i in OpLog.Ids(I64ToClient(k.client), rows[k].payload);
        }
      }
    }

    lemma MergedDelsAreSelected(sv: map<u64, u32>)
      requires repo.Valid()
      ensures MergedDels(repo.ReadOperationsAfter(sv, topic)) == OpLog.DelsAfter(TopicLog(repo.operations, topic), sv)
    {
      var rows, log := repo.ReadOperationsAfter(sv, topic), TopicLog(repo.operations, topic);
      forall i ensures i in MergedDels(rows) <==> i in OpLog.DelsAfter(log, sv) {
        if i in MergedDels(rows) {
          var k :| k in rows && i in rows[k].payload.dels;
          repo.SelectedIsChosen(sv, topic, k);
        }
        if i in OpLog.DelsAfter(log, sv) {
          var lk :| lk in log && OpLog.Chosen(sv, lk) && i in log[lk].dels;
          repo.ChosenIsSelected(sv, topic, lk);
        }
      }
    }
  }

  lemma SameDeletions(t: DelTable, topic: nat, ds: DeletionSet)
    requires ValidDels(t) && forall c: u64, x: int :: Deletes(ds, c, x) <==> InTable(t, topic, c, x)
    ensures DelIds(ds) == TopicDels(t, topic)
  {
    forall i ensures i in DelIds(ds) <==> i in TopicDels(t, topic) {
      TopicDelsAt(t, topic, i);
    }
  }

  /** `merge_updates` of the rows' payloads. */
  function MergedIds(rows: OpTable): set<OpLog.Id> {
    set k, i | k in rows && i in OpLog.Ids(I64ToClient(k.client), rows[k].payload) :: i
  }

  function MergedDels(rows: OpTable): set<OpLog.Id> {
    set k, i | k in rows && i in rows[k].payload.dels :: i
  }

  lemma EmptyUpsert(t: DelTable, topic: nat, user: nat)
    ensures Upsert(t, topic, user, map[]) == t && !Novel(t, topic, map[])
  {
  }

  /** Sending the same update again persists nothing and reports nothing novel. */
  lemma SecondTimeIsSilent(log: OpLog.Log, t: DelTable, topic: nat, user: nat, client: u64, u: Update)
    requires ValidDels(t) && WellFormed(u)
    ensures var offset := ParseUpdate(client, u).0;
            offset.Some? ==>
              var log' := OpLog.Insert(log, OpLog.OpKey(client, offset.value), PayloadOf(client, u));
              OpLog.Last(log', client).Some? && OpLog.Last(log', client).value >= offset.value
    ensures !Novel(Upsert(t, topic, user, u.deletes), topic, u.deletes)
  {
    var t' := Upsert(t, topic, user, u.deletes);
    forall key | Touches(topic, u.deletes, key)
      ensures key in t' && Contains(t'[key].ranges, Canon(u.deletes[I64ToClient(key.client)]))
    {
      UpsertRows(t, topic, user, u.deletes, key);
      var ranges := u.deletes[I64ToClient(key.client)];
      forall x | Has(Canon(ranges), x) ensures Has(t'[key].ranges, x) {
        if key in t { UnionHas(t[key].ranges, Canon(ranges), x); }
      }
    }
  }

  // ---------- rebuilding a deletion message ----------

  /** `DeleteSet::insert`: `len` clocks from `clock` on. */
  function InsertDeletion(ds: DeletionSet, c: u64, clock: u32, len: u32): (ds': DeletionSet)
    requires clock + len < TWO_32
    ensures forall d: u64, x: int :: Deletes(ds', d, x) <==> Deletes(ds, d, x) || (d == c && clock <= x < clock + len)
  {
    var r: URange := Range(clock, clock + len);
    var before := if c in ds then ds[c] else [];
    assert forall x: int :: Has(before + [r], x) <==> Has(before, x) || clock <= x < clock + len by {
      forall x: int ensures Has(before + [r], x) <==> Has(before, x) || clock <= x < clock + len {
        HasConcat(before, [r], x);
        HasCons(r, [], x);
        assert [r] + [] == [r];
      }
    }
    ds[c := before + [r]]
  }

  /** The nested loops: each stored range inserted as a start and a length. No length
      underflows, and exactly the given deletions come out. */
  method HackyBuildDeleteMessage(stored: DeletionSet) returns (ds: DeletionSet)
    requires forall c, j :: c in stored && 0 <= j < |stored[c]| ==> stored[c][j].lo <= stored[c][j].hi
    ensures forall c: u64, x: int :: Deletes(ds, c, x) <==> Deletes(stored, c, x)
  {
    ds := map[];
    var todo := stored.Keys;
    while todo != {}
      invariant todo <= stored.Keys
      invariant forall c: u64, x: int :: Deletes(ds, c, x) <==> c !in todo && Deletes(stored, c, x)
      decreases |todo|
    {
      var c :| c in todo;
      var ranges := stored[c];
      for j := 0 to |ranges|
        invariant forall d: u64, x: int :: Deletes(ds, d, x) <==>
                    (d !in todo && Deletes(stored, d, x)) || (d == c && Has(ranges[..j], x))
      {
        ds := InsertDeletion(ds, c, ranges[j].lo, ranges[j].hi - ranges[j].lo);
        forall x: int ensures Has(ranges[..j + 1], x) <==> Has(ranges[..j], x) || ranges[j].lo <= x < ranges[j].hi {
          assert ranges[..j + 1] == ranges[..j] + [ranges[j]];
          HasConcat(ranges[..j], [ranges[j]], x);
          HasCons(ranges[j], [], x);
          assert [ranges[j]] + [] == [ranges[j]];
        }
      }
      assert ranges[..|ranges|] == ranges;
      todo := todo - {c};
    }
  }
}
