/** The inductive invariant of the sync protocol. */
module SyncInvariant {
  import opened Wrappers
  import opened OpLog
  import opened SyncProtocol

  // ---------- nothing is invented ----------

  predicate Created(s: State, i: Id) {
    i.client in s.clients && i.clock < s.clients[i.client].n
  }

  predicate Deleted(s: State, i: Id) {
    exists c :: c in s.clients && i in s.clients[c].own
  }

  predicate PayloadOk(s: State, c: nat, p: Payload) {
    && c in s.clients
    && p.lo <= p.hi <= s.clients[c].n
    && p.dels <= s.clients[c].dels
  }

  ghost predicate AllCreated(s: State, ids: set<Id>) { forall i :: i in ids ==> Created(s, i) }
  ghost predicate AllDeleted(s: State, dels: set<Id>) { forall i :: i in dels ==> Deleted(s, i) }

  ghost predicate ClientOk(s: State, c: nat)
    requires c in s.clients
  {
    var cl := s.clients[c];
    && cl.own <= cl.dels
    && AllCreated(s, cl.known) && AllDeleted(s, cl.dels)
    && (cl.conn.Some? ==> cl.conn.value < |s.conns| && s.conns[cl.conn.value].client == c)
  }

  predicate OutOk(s: State, cn: Conn, m: OutMsg) {
    match m
    case ServerStep1(next) => true
    case ServerStep2(ids, dels) => true
    case ServerUpdate(from, p) => PayloadOk(s, from, p) && from != cn.client
  }

  ghost predicate SentOk(s: State, m: OutMsg) {
    m.ServerStep2? ==> AllCreated(s, m.ids) && AllDeleted(s, m.dels)
  }

  // ---------- the handshake of one connection ----------

  /** The server says: one sync step one, at most one sync step two, then updates. */
  predicate OutTrace(out: seq<OutMsg>) {
    && (|out| >= 1 ==> out[0].ServerStep1?)
    && (|out| >= 2 ==> out[1].ServerStep2?)
    && forall i :: 2 <= i < |out| ==> out[i].ServerUpdate?
  }

  /** The client says: one sync step one, and at most one sync step two, at `answer`. */
  predicate InTrace(inbox: seq<InMsg>, answer: Option<nat>) {
    && |inbox| >= 1 && inbox[0].ClientStep1?
    && (forall i :: 1 <= i < |inbox| ==> !inbox[i].ClientStep1?)
    && (answer.None? ==> forall i :: 0 <= i < |inbox| ==> !inbox[i].ClientStep2?)
    && (answer.Some? ==>
          && 1 <= answer.value < |inbox| && inbox[answer.value].ClientStep2?
          && forall i :: 0 <= i < |inbox| && i != answer.value ==> !inbox[i].ClientStep2?)
  }

  predicate WriterTrace(cn: Conn) {
    match cn.writer
    case Starting => |cn.out| == 0
    case AwaitingVector => |cn.out| == 1
    case Serving(_) => |cn.out| == 1
    case GotOps(_, _) => |cn.out| == 1
    case Hot => |cn.out| >= 2
    case WriterDone => true
  }

  // ---------- the clocks in one connection's queue ----------

  /** From the sync step two on, each message starts where the one before it ended. */
  predicate Chained(inbox: seq<InMsg>, from: nat) {
    forall i :: from <= i && i + 1 < |inbox| && !inbox[i].ClientStep1? && !inbox[i + 1].ClientStep1?
      ==> inbox[i + 1].p.lo == inbox[i].p.hi
  }

  /** What the reader is doing is what it last took from the queue, and that starts no
      later than the log ends. Once past the operation table, it ends no later. */
  predicate ReaderOk(cn: Conn, top: nat)
    requires cn.hot ==> 1 <= cn.consumed <= |cn.inbox| && !cn.inbox[cn.consumed - 1].ClientStep1?
  {
    if !cn.hot then cn.reader.Idle? || cn.reader.ReaderDone?
    else
      var p := cn.inbox[cn.consumed - 1].p;
      match cn.reader
      case Idle => p.hi <= top
      case Parsed(q) => q == p && p.lo <= top
      case ReadLast(q, last) => q == p && p.lo <= top && HasClocks(p) && (last.Some? ==> last.value < top)
      case WroteOp(q, persisted) => q == p && p.hi <= top && (persisted ==> HasClocks(p))
      case WroteDels(q, persisted, novel) => q == p && p.hi <= top
      case ReaderDone => true
  }

  ghost predicate ConnOk(s: State, cn: Conn) {
    && cn.client in s.clients
    && cn.chan < |s.chans| && cn.pos <= |s.chans[cn.chan]|
    && (cn.writer != WriterDone ==> cn.chan == |s.chans| - 1)
    && cn.consumed <= |cn.inbox| && cn.delivered <= |cn.out| && cn.since <= |s.lost|
    // traces
    && OutTrace(cn.out) && WriterTrace(cn) && InTrace(cn.inbox, cn.answer)
    && (cn.answer.Some? <==> cn.delivered >= 1)
    // payloads
    && (forall i :: 0 <= i < |cn.inbox| && !cn.inbox[i].ClientStep1? ==> PayloadOk(s, cn.client, cn.inbox[i].p))
    && (forall i :: 0 <= i < |cn.out| ==> OutOk(s, cn, cn.out[i]) && SentOk(s, cn.out[i]))
    && (cn.writer.GotOps? ==> AllCreated(s, cn.writer.ids) && AllDeleted(s, cn.writer.dels))
    // clocks
    && (|cn.out| >= 1 ==> cn.out[0].next <= Top(s.log, cn.client))
    && (cn.answer.Some? ==> Chained(cn.inbox, cn.answer.value))
    && (!cn.hot && cn.answer.Some? ==>
          cn.consumed <= cn.answer.value && cn.inbox[cn.answer.value].p.lo <= Top(s.log, cn.client))
    && (cn.hot ==> cn.answer.Some? && cn.answer.value < cn.consumed)
    && ReaderOk(cn, Top(s.log, cn.client))
  }

  // ---------- the current connection of a client ----------

  /** The first message of the queue whose deletions are not yet in the table. */
  function FirstUnwritten(cn: Conn): nat {
    if cn.hot && (cn.reader.Parsed? || cn.reader.ReadLast? || cn.reader.WroteOp?)
    then if cn.consumed == 0 then 0 else cn.consumed - 1
    else cn.consumed
  }

  predicate InboxDeletes(cn: Conn, i: Id) {
    exists j :: FirstUnwritten(cn) <= j < |cn.inbox| &&
      (cn.answer.Some? ==> cn.answer.value <= j) && !cn.inbox[j].ClientStep1? && i in cn.inbox[j].p.dels
  }

  /** What the stored log lacks of this client's clocks and deletions is in the queue. */
  ghost predicate CurrentOk(s: State, c: nat)
    requires c in s.clients
  {
    var cl := s.clients[c];
    cl.conn.Some? && cl.conn.value < |s.conns| ==>
      var cn := s.conns[cl.conn.value];
      && (cl.sentStep2 <==> cn.answer.Some?)
      && (cl.receivedStep2 <==> cn.delivered >= 2)
      && (cn.answer.Some? ==> |cn.inbox| > 0 && !cn.inbox[|cn.inbox| - 1].ClientStep1?
                               && cn.inbox[|cn.inbox| - 1].p.hi == cl.n)
      && (cn.answer.Some? && cn.reader != ReaderDone ==>
            forall i :: i in cl.own ==> i in s.dels || InboxDeletes(cn, i))
  }

  // ---------- the tables and the channels ----------

  ghost predicate LogOk(s: State) {
    && WellKeyed(s.log) && NoHoles(s.log)
    && forall k :: k in s.log ==> PayloadOk(s, k.client, s.log[k])
  }

  ghost predicate ChansOk(s: State) {
    && AllDeleted(s, s.dels)
    && forall ch, j :: 0 <= ch < |s.chans| && 0 <= j < |s.chans[ch]| ==>
                         PayloadOk(s, s.chans[ch][j].sender, s.chans[ch][j].p)
  }

  // ---------- coverage: where a stored row or deletion is, for one receiver ----------

  function OutIds(m: OutMsg): set<Id> {
    match m
    case ServerStep1(_) => {}
    case ServerStep2(ids, _) => ids
    case ServerUpdate(from, p) => Ids(from, p)
  }

  function OutDels(m: OutMsg): set<Id> {
    match m
    case ServerStep1(_) => {}
    case ServerStep2(_, dels) => dels
    case ServerUpdate(_, p) => p.dels
  }

  /** The reader that inserted the row has yet to broadcast it. */
  predicate Owes(cn: Conn, d: nat, p: Payload) {
    cn.client == d && (cn.reader == WroteOp(p, true) ||
                       (cn.reader.WroteDels? && cn.reader.p == p && cn.reader.persisted))
  }

  /** The reader that stored the deletion has yet to broadcast it. */
  predicate OwesDel(cn: Conn, i: Id) {
    cn.reader.WroteDels? && cn.reader.novel && i in cn.reader.p.dels
  }

  predicate InDoc(s: State, c: nat, ids: set<Id>) { c in s.clients && ids <= s.clients[c].known }
  predicate InWriter(cn: Conn, ids: set<Id>) { cn.writer.GotOps? && ids <= cn.writer.ids }
  predicate InOut(cn: Conn, ids: set<Id>) { exists j :: cn.delivered <= j < |cn.out| && ids <= OutIds(cn.out[j]) }
  predicate InChan(s: State, cn: Conn, b: Bcast) {
    cn.chan < |s.chans| && exists j :: cn.pos <= j < |s.chans[cn.chan]| && s.chans[cn.chan][j] == b
  }
  predicate Owed(s: State, d: nat, p: Payload) { exists r :: 0 <= r < |s.conns| && Owes(s.conns[r], d, p) }

  /** Lost for this receiver: since its writer read the log, or by its own lagging. */
  predicate LostSince(s: State, from: nat, b: Bcast) { exists j :: from <= j < |s.lost| && s.lost[j] == b }
  predicate WasLost(s: State, cn: Conn, b: Bcast) { LostSince(s, cn.since, b) || b in cn.missed }

  predicate RowCovered(s: State, cn: Conn, d: nat, p: Payload) {
    || InDoc(s, cn.client, Ids(d, p))
    || InWriter(cn, Ids(d, p))
    || InOut(cn, Ids(d, p))
    || InChan(s, cn, Bcast(d, p))
    || Owed(s, d, p)
    || WasLost(s, cn, Bcast(d, p))
  }

  predicate DelInDoc(s: State, c: nat, i: Id) { c in s.clients && i in s.clients[c].dels }
  predicate DelInOut(cn: Conn, i: Id) { exists j :: cn.delivered <= j < |cn.out| && i in OutDels(cn.out[j]) }
  predicate DelInChan(s: State, cn: Conn, i: Id) {
    cn.chan < |s.chans| && exists j :: cn.pos <= j < |s.chans[cn.chan]| && i in s.chans[cn.chan][j].p.dels
  }
  predicate DelOwed(s: State, i: Id) { exists r :: 0 <= r < |s.conns| && OwesDel(s.conns[r], i) }
  predicate DelLostSince(s: State, from: nat, i: Id) {
    exists j :: from <= j < |s.lost| && i in s.lost[j].p.dels
  }
  predicate DelMissed(cn: Conn, i: Id) { exists b :: b in cn.missed && i in b.p.dels }
  predicate DelLost(s: State, cn: Conn, i: Id) { DelLostSince(s, cn.since, i) || DelMissed(cn, i) }

  predicate DelCovered(s: State, cn: Conn, i: Id) {
    || DelInDoc(s, cn.client, i) || DelInOut(cn, i) || DelInChan(s, cn, i) || DelOwed(s, i) || DelLost(s, cn, i)
  }

  predicate IsCurrent(s: State, k: nat) {
    k < |s.conns| && s.conns[k].client in s.clients && s.clients[s.conns[k].client].conn == Some(k)
  }

  /** For a current connection whose writer has read the log. */
  ghost predicate RowsCovered(s: State, cn: Conn) {
    cn.writer.GotOps? || cn.writer.Hot? ==>
      forall k :: k in s.log && k.client != cn.client ==> RowCovered(s, cn, k.client, s.log[k])
  }

  /** For a current connection whose writer has read the deletions. */
  ghost predicate DelsCovered(s: State, cn: Conn) {
    cn.writer.Hot? ==> forall i :: i in s.dels ==> DelCovered(s, cn, i)
  }

  ghost predicate VectorHeld(s: State, cn: Conn) {
    && (cn.slot.Some? ==> cn.client in s.clients && SoundVector(cn.client, s.clients[cn.client], cn.slot.value))
    && (cn.writer.Serving? ==> cn.client in s.clients && SoundVector(cn.client, s.clients[cn.client], cn.writer.sv))
    && forall i :: 0 <= i < |cn.inbox| && cn.inbox[i].ClientStep1? ==>
                     cn.client in s.clients && SoundVector(cn.client, s.clients[cn.client], cn.inbox[i].sv)
  }

  /** What was lost stays lost. */
  lemma LostGrows(s: State, t: State, from: nat, to: nat, b: Bcast)
    requires s.lost <= t.lost && to <= from && LostSince(s, from, b)
    ensures LostSince(t, to, b)
  {
    var j :| from <= j < |s.lost| && s.lost[j] == b;
    assert t.lost[j] == b;
  }

  lemma DelLostGrows(s: State, t: State, from: nat, to: nat, i: Id)
    requires s.lost <= t.lost && to <= from && DelLostSince(s, from, i)
    ensures DelLostSince(t, to, i)
  {
    var j :| from <= j < |s.lost| && i in s.lost[j].p.dels;
    assert i in t.lost[j].p.dels;
  }

  // ---------- the whole ----------

  ghost predicate Clients(s: State) { forall c :: c in s.clients ==> ClientOk(s, c) }
  ghost predicate Conns(s: State) { forall k :: 0 <= k < |s.conns| ==> ConnOk(s, s.conns[k]) }
  ghost predicate Current(s: State) { forall c :: c in s.clients ==> CurrentOk(s, c) }
  ghost predicate Vectors(s: State) { forall k :: 0 <= k < |s.conns| ==> VectorHeld(s, s.conns[k]) }
  ghost predicate Rows(s: State) { forall k :: 0 <= k < |s.conns| && IsCurrent(s, k) ==> RowsCovered(s, s.conns[k]) }
  ghost predicate Dels(s: State) { forall k :: 0 <= k < |s.conns| && IsCurrent(s, k) ==> DelsCovered(s, s.conns[k]) }

  ghost predicate Inv(s: State) {
    Clients(s) && Conns(s) && Current(s) && LogOk(s) && ChansOk(s) && Vectors(s) && Rows(s) && Dels(s)
  }

  // ---------- growth ----------

  predicate ClientGrows(a: Client, b: Client) {
    a.n <= b.n && a.known <= b.known && a.own <= b.own && a.dels <= b.dels
  }

  /** No step takes back a clock, an element, a deletion, a row or a broadcast. */
  ghost predicate Grows(s: State, t: State) {
    && s.clients.Keys == t.clients.Keys
    && (forall c :: c in s.clients ==> ClientGrows(s.clients[c], t.clients[c]))
    && (forall k :: k in s.log ==> k in t.log && t.log[k] == s.log[k])
    && s.dels <= t.dels && s.lost <= t.lost
    && |s.chans| <= |t.chans|
    && (forall ch :: 0 <= ch < |s.chans| ==> s.chans[ch] <= t.chans[ch])
    && |s.conns| <= |t.conns|
  }

  lemma DeletedGrows(s: State, t: State, i: Id)
    requires Grows(s, t) && Deleted(s, i)
    ensures Deleted(t, i)
  {
    var c :| c in s.clients && i in s.clients[c].own;
    assert c in t.clients && ClientGrows(s.clients[c], t.clients[c]);
  }

  lemma AllGrow(s: State, t: State, ids: set<Id>, dels: set<Id>)
    requires Grows(s, t)
    ensures AllCreated(s, ids) ==> AllCreated(t, ids)
    ensures AllDeleted(s, dels) ==> AllDeleted(t, dels)
  {
    if AllCreated(s, ids) {
      forall i | i in ids ensures Created(t, i) {
        assert Created(s, i);
        assert ClientGrows(s.clients[i.client], t.clients[i.client]);
      }
    }
    if AllDeleted(s, dels) {
      forall i | i in dels ensures Deleted(t, i) {
        assert Deleted(s, i);
        DeletedGrows(s, t, i);
      }
    }
  }

  lemma PayloadGrows(s: State, t: State, c: nat, p: Payload)
    requires Grows(s, t) && PayloadOk(s, c, p)
    ensures PayloadOk(t, c, p)
  {
    assert ClientGrows(s.clients[c], t.clients[c]);
  }

  /** A connection that a step does not touch stays in order as the rest grows. */
  lemma ConnGrows(s: State, t: State, cn: Conn)
    requires Grows(s, t) && ConnOk(s, cn)
    requires cn.writer != WriterDone ==> |t.chans| == |s.chans|
    ensures ConnOk(t, cn)
  {
    TopGrows(s.log, t.log, cn.client);
    forall i | 0 <= i < |cn.inbox| && !cn.inbox[i].ClientStep1? ensures PayloadOk(t, cn.client, cn.inbox[i].p) {
      PayloadGrows(s, t, cn.client, cn.inbox[i].p);
    }
    forall i | 0 <= i < |cn.out| ensures OutOk(t, cn, cn.out[i]) && SentOk(t, cn.out[i]) {
      assert OutOk(s, cn, cn.out[i]) && SentOk(s, cn.out[i]);
      match cn.out[i] {
        case ServerStep1(_) =>
        case ServerStep2(ids, dels) => AllGrow(s, t, ids, dels);
        case ServerUpdate(from, p) => PayloadGrows(s, t, from, p);
      }
    }
    if cn.writer.GotOps? {
      AllGrow(s, t, cn.writer.ids, cn.writer.dels);
    }
  }

  lemma VectorGrows(s: State, t: State, cn: Conn)
    requires Grows(s, t) && cn.client in s.clients && VectorHeld(s, cn)
    ensures VectorHeld(t, cn)
  {
    assert ClientGrows(s.clients[cn.client], t.clients[cn.client]);
  }
}
