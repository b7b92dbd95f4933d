/** Every step of a reader task keeps the invariant. */
module SyncReaderSteps {
  import opened Wrappers
  import opened OpLog
  import opened SyncProtocol
  import opened SyncInvariant

  /** Two connections that coverage cannot tell apart. */
  predicate SameView(a: Conn, b: Conn) {
    && a.client == b.client && a.chan == b.chan && a.pos == b.pos && a.writer == b.writer
    && a.out == b.out && a.delivered == b.delivered && a.missed == b.missed && a.since == b.since
  }

  /** A step of reader `k`: only that connection's reader side, the tables, the channels
      and the list of the lost may change. */
  ghost predicate ReaderStep(s: State, t: State, k: nat) {
    && k < |s.conns| && |t.conns| == |s.conns|
    && (forall j :: 0 <= j < |s.conns| && j != k ==> t.conns[j] == s.conns[j])
    && SameView(s.conns[k], t.conns[k])
    && t.conns[k].inbox == s.conns[k].inbox && t.conns[k].answer == s.conns[k].answer
    && t.clients == s.clients && |t.chans| == |s.chans|
  }

  /** Wherever a row was on its way, it still is. */
  lemma RowStays(s: State, t: State, a: Conn, b: Conn, d: nat, p: Payload)
    requires Grows(s, t) && SameView(a, b) && RowCovered(s, a, d, p)
    requires Owed(s, d, p) ==> Owed(t, d, p) || LostSince(t, b.since, Bcast(d, p)) || InChan(t, b, Bcast(d, p))
    ensures RowCovered(t, b, d, p)
  {
    if InDoc(s, a.client, Ids(d, p)) {
      assert ClientGrows(s.clients[a.client], t.clients[a.client]);
    } else if InOut(a, Ids(d, p)) {
      assert InOut(b, Ids(d, p));
    } else if InChan(s, a, Bcast(d, p)) {
      var j :| a.pos <= j < |s.chans[a.chan]| && s.chans[a.chan][j] == Bcast(d, p);
      assert t.chans[b.chan][j] == Bcast(d, p);
    } else if LostSince(s, a.since, Bcast(d, p)) {
      LostGrows(s, t, a.since, b.since, Bcast(d, p));
    }
  }

  lemma DelStays(s: State, t: State, a: Conn, b: Conn, i: Id)
    requires Grows(s, t) && SameView(a, b) && DelCovered(s, a, i)
    requires DelOwed(s, i) ==> DelOwed(t, i) || DelLost(t, b, i) || DelInChan(t, b, i)
    ensures DelCovered(t, b, i)
  {
    if DelInDoc(s, a.client, i) {
      assert ClientGrows(s.clients[a.client], t.clients[a.client]);
    } else if DelInOut(a, i) {
      assert DelInOut(b, i);
    } else if DelInChan(s, a, i) {
      var j :| a.pos <= j < |s.chans[a.chan]| && i in s.chans[a.chan][j].p.dels;
      assert i in t.chans[b.chan][j].p.dels;
    } else if DelLostSince(s, a.since, i) {
      DelLostGrows(s, t, a.since, b.since, i);
    } else if DelMissed(a, i) {
      assert DelMissed(b, i);
    }
  }

  /** The touched connection and the tables in order, all else stays in order. */
  lemma ReaderFrame(s: State, t: State, k: nat)
    requires Clients(s) && Conns(s) && Vectors(s) && Grows(s, t) && ReaderStep(s, t, k)
    requires ConnOk(t, t.conns[k]) && VectorHeld(t, t.conns[k])
    ensures Clients(t) && Conns(t) && Vectors(t)
  {
    forall c | c in t.clients ensures ClientOk(t, c) {
      assert ClientOk(s, c);
      AllGrow(s, t, s.clients[c].known, s.clients[c].dels);
    }
    forall j | 0 <= j < |t.conns| ensures ConnOk(t, t.conns[j]) && VectorHeld(t, t.conns[j]) {
      if j != k {
        assert ConnOk(s, s.conns[j]) && VectorHeld(s, s.conns[j]);
        ConnGrows(s, t, s.conns[j]);
        VectorGrows(s, t, s.conns[j]);
      }
    }
  }

  /** A reader that has not lost its message keeps the current connection's promise when
      it moves no further than the deletions it has written. */
  lemma CurrentFrame(s: State, t: State, k: nat)
    requires Current(s) && Grows(s, t) && ReaderStep(s, t, k)
    requires s.conns[k].reader != ReaderDone || t.conns[k].reader == ReaderDone
    requires t.conns[k].reader != ReaderDone && t.conns[k].answer.Some? ==>
               forall i :: InboxDeletes(s.conns[k], i) ==> i in t.dels || InboxDeletes(t.conns[k], i)
    ensures Current(t)
  {
    forall c | c in t.clients ensures CurrentOk(t, c) {
      assert CurrentOk(s, c);
      var cl := s.clients[c];
      if cl.conn.Some? && cl.conn.value < |s.conns| {
        var j := cl.conn.value;
        var cn := t.conns[j];
        if cn.answer.Some? && cn.reader != ReaderDone {
          forall i | i in cl.own ensures i in t.dels || InboxDeletes(cn, i) {
            assert i in s.dels || InboxDeletes(s.conns[j], i);
          }
        }
      }
    }
  }

  /** Coverage is kept when what the readers owe stays owed, is lost, or is in the
      channel, and what is new in the tables is owed or lost. */
  lemma CoverFrame(s: State, t: State, k: nat)
    requires Conns(s) && Rows(s) && Dels(s) && Grows(s, t) && ReaderStep(s, t, k)
    requires forall key :: key in t.log ==>
               key in s.log || Owed(t, key.client, t.log[key]) || LostSince(t, |s.lost|, Bcast(key.client, t.log[key]))
    requires forall i :: i in t.dels ==>
               i in s.dels || DelOwed(t, i) || DelLostSince(t, |s.lost|, i)
    requires forall d, p :: Owes(s.conns[k], d, p) ==>
               Owes(t.conns[k], d, p) || LostSince(t, |s.lost|, Bcast(d, p)) || InAllChans(t, Bcast(d, p))
    requires forall i :: OwesDel(s.conns[k], i) ==>
               OwesDel(t.conns[k], i) || DelLostSince(t, |s.lost|, i) || DelInAllChans(t, i)
    ensures Rows(t) && Dels(t)
  {
    forall j | 0 <= j < |t.conns| && IsCurrent(t, j)
      ensures RowsCovered(t, t.conns[j]) && DelsCovered(t, t.conns[j])
    {
      assert IsCurrent(s, j) && RowsCovered(s, s.conns[j]) && DelsCovered(s, s.conns[j]);
      var a, b := s.conns[j], t.conns[j];
      assert a.since <= |s.lost| by { assert ConnOk(s, a); }
      if b.writer.GotOps? || b.writer.Hot? {
        forall key | key in t.log && key.client != b.client
          ensures RowCovered(t, b, key.client, t.log[key])
        {
          if key in s.log {
            NewlyLost(t, |s.lost|, b.since, Bcast(key.client, t.log[key]));
            OwedStays(s, t, k, key.client, t.log[key]);
            RowStays(s, t, a, b, key.client, t.log[key]);
          } else {
            NewlyLost(t, |s.lost|, b.since, Bcast(key.client, t.log[key]));
          }
        }
      }
      if b.writer.Hot? {
        forall i | i in t.dels ensures DelCovered(t, b, i) {
          NewlyDelLost(t, |s.lost|, b.since, i);
          if i in s.dels {
            DelOwedStays(s, t, k, i);
            DelStays(s, t, a, b, i);
          }
        }
      }
    }
  }

  /** What is lost now is lost since any earlier moment. */
  lemma NewlyLost(t: State, now: nat, since: nat, b: Bcast)
    requires since <= now
    ensures LostSince(t, now, b) ==> LostSince(t, since, b)
  {
  }

  lemma NewlyDelLost(t: State, now: nat, since: nat, i: Id)
    requires since <= now
    ensures DelLostSince(t, now, i) ==> DelLostSince(t, since, i)
  {
  }

  /** In the unread part of the channel of everybody who listens. */
  predicate InAllChans(t: State, b: Bcast) {
    forall j :: 0 <= j < |t.conns| && t.conns[j].writer != WriterDone ==> InChan(t, t.conns[j], b)
  }

  predicate DelInAllChans(t: State, i: Id) {
    forall j :: 0 <= j < |t.conns| && t.conns[j].writer != WriterDone ==> DelInChan(t, t.conns[j], i)
  }

  lemma OwedStays(s: State, t: State, k: nat, d: nat, p: Payload)
    requires ReaderStep(s, t, k)
    requires Owes(s.conns[k], d, p) ==>
               Owes(t.conns[k], d, p) || LostSince(t, |s.lost|, Bcast(d, p)) || InAllChans(t, Bcast(d, p))
    ensures Owed(s, d, p) ==> Owed(t, d, p) || LostSince(t, |s.lost|, Bcast(d, p)) || InAllChans(t, Bcast(d, p))
  {
    if Owed(s, d, p) {
      var r :| 0 <= r < |s.conns| && Owes(s.conns[r], d, p);
      if r != k { assert Owes(t.conns[r], d, p); }
    }
  }

  lemma DelOwedStays(s: State, t: State, k: nat, i: Id)
    requires ReaderStep(s, t, k)
    requires OwesDel(s.conns[k], i) ==>
               OwesDel(t.conns[k], i) || DelLostSince(t, |s.lost|, i) || DelInAllChans(t, i)
    ensures DelOwed(s, i) ==>
              DelOwed(t, i) || DelLostSince(t, |s.lost|, i) || DelInAllChans(t, i)
  {
    if DelOwed(s, i) {
      var r :| 0 <= r < |s.conns| && OwesDel(s.conns[r], i);
      if r != k { assert OwesDel(t.conns[r], i); }
    }
  }

  // ---------- the tables ----------

  lemma LogSame(s: State, t: State)
    requires LogOk(s) && t.clients == s.clients && t.log == s.log
    ensures LogOk(t)
  {
    forall key | key in t.log ensures PayloadOk(t, key.client, t.log[key]) {
      assert PayloadOk(s, key.client, s.log[key]);
    }
  }

  lemma ChansSame(s: State, t: State)
    requires ChansOk(s) && t.clients == s.clients && t.chans == s.chans && AllDeleted(t, t.dels)
    ensures ChansOk(t)
  {
    forall ch, j | 0 <= ch < |t.chans| && 0 <= j < |t.chans[ch]|
      ensures PayloadOk(t, t.chans[ch][j].sender, t.chans[ch][j].p)
    {
      assert PayloadOk(s, s.chans[ch][j].sender, s.chans[ch][j].p);
    }
  }

  lemma DelsGrow(s: State, t: State, c: nat, p: Payload)
    requires Clients(s) && AllDeleted(s, s.dels) && PayloadOk(s, c, p)
    requires t.clients == s.clients && t.dels <= s.dels + p.dels
    ensures AllDeleted(t, t.dels)
  {
    assert ClientOk(s, c);
    forall i | i in t.dels ensures Deleted(t, i) {
      assert Deleted(s, i);
      var d :| d in s.clients && i in s.clients[d].own;
      assert d in t.clients && i in t.clients[d].own;
    }
  }

  lemma RowsStayOk(s: State, t: State, key: OpKey, p: Payload)
    requires t.clients == s.clients && t.log == Insert(s.log, key, p) && PayloadOk(s, key.client, p)
    requires forall k :: k in s.log ==> PayloadOk(s, k.client, s.log[k])
    ensures forall k :: k in t.log ==> PayloadOk(t, k.client, t.log[k])
  {
    forall k | k in t.log ensures PayloadOk(t, k.client, t.log[k]) {
      if k in s.log { assert PayloadOk(s, k.client, s.log[k]); }
    }
  }

  /** Writing the row, or finding it unnecessary, leaves a log without holes that ends no
      earlier than the message does. */
  lemma RowWritten(s: State, t: State, cn: Conn)
    requires cn.reader.ReadLast? && LogOk(s) && PayloadOk(s, cn.client, cn.reader.p) && t.clients == s.clients
    requires HasClocks(cn.reader.p) && cn.reader.p.lo <= Top(s.log, cn.client)
    requires cn.reader.last.Some? ==> cn.reader.last.value < Top(s.log, cn.client)
    requires t.log == s.log || t.log == Insert(s.log, RowKey(cn.client, cn.reader.p), cn.reader.p)
    ensures LogOk(t)
    ensures cn.reader.p.hi <= Top(t.log, cn.client) || (t.log == s.log && IsNewer(cn.reader))
  {
    if t.log == s.log {
      LogSame(s, t);
      if RowKey(cn.client, cn.reader.p) in s.log { TopAbove(s.log, RowKey(cn.client, cn.reader.p)); }
    } else {
      InsertKeepsNoHoles(s.log, cn.client, cn.reader.p);
      RowsStayOk(s, t, RowKey(cn.client, cn.reader.p), cn.reader.p);
    }
  }

  // ---------- the touched connection ----------

  /** It keeps everything about it that a reader step cannot reach. */
  lemma TouchedConn(s: State, t: State, k: nat)
    requires Grows(s, t) && ReaderStep(s, t, k)
    requires ConnOk(s, s.conns[k]) && VectorHeld(s, s.conns[k])
    requires var a, b := s.conns[k], t.conns[k];
             && b.consumed <= |b.inbox|
             && (!b.hot && b.answer.Some? ==> b.consumed <= b.answer.value)
             && (a.hot ==> b.hot)
             && (b.hot ==> b.answer.Some? && b.answer.value < b.consumed)
             && (b.slot.Some? ==> b.slot == a.slot || ClientStep1(b.slot.value) in b.inbox)
    requires var b := t.conns[k];
             (b.hot ==> 1 <= b.consumed && !b.inbox[b.consumed - 1].ClientStep1?) ==> ReaderOk(b, Top(t.log, b.client))
    ensures ConnOk(t, t.conns[k]) && VectorHeld(t, t.conns[k])
  {
    var a, b := s.conns[k], t.conns[k];
    VectorGrows(s, t, a);
    TopGrows(s.log, t.log, a.client);
    if b.hot {
      assert b.answer.value <= b.consumed - 1;
      assert !b.inbox[b.consumed - 1].ClientStep1?;
    }
    forall i | 0 <= i < |b.inbox| && !b.inbox[i].ClientStep1? ensures PayloadOk(t, b.client, b.inbox[i].p) {
      PayloadGrows(s, t, b.client, a.inbox[i].p);
    }
    forall i | 0 <= i < |b.out| ensures OutOk(t, b, b.out[i]) && SentOk(t, b.out[i]) {
      assert OutOk(s, a, a.out[i]) && SentOk(s, a.out[i]);
      match b.out[i] {
        case ServerStep1(_) =>
        case ServerStep2(ids, dels) => AllGrow(s, t, ids, dels);
        case ServerUpdate(from, p) => PayloadGrows(s, t, from, p);
      }
    }
    if b.writer.GotOps? {
      AllGrow(s, t, a.writer.ids, a.writer.dels);
    }
  }

  /** What a busy reader works on. */
  lemma BusyReader(s: State, cn: Conn)
    requires ConnOk(s, cn) && !cn.reader.Idle? && !cn.reader.ReaderDone?
    ensures cn.hot && 1 <= cn.consumed <= |cn.inbox| && cn.inbox[cn.consumed - 1] in cn.inbox
    ensures !cn.inbox[cn.consumed - 1].ClientStep1? && cn.reader.p == cn.inbox[cn.consumed - 1].p
    ensures PayloadOk(s, cn.client, cn.reader.p) && ReaderOk(cn, Top(s.log, cn.client))
  {
    assert !cn.inbox[cn.consumed - 1].ClientStep1?;
  }

  /** A step that leaves the queue alone and the reader in order. */
  lemma BusyStep(s: State, t: State, k: nat)
    requires Grows(s, t) && ReaderStep(s, t, k)
    requires ConnOk(s, s.conns[k]) && VectorHeld(s, s.conns[k])
    requires t.conns[k] == s.conns[k].(reader := t.conns[k].reader)
    requires var a := s.conns[k]; a.hot ==> 1 <= a.consumed <= |a.inbox| && !a.inbox[a.consumed - 1].ClientStep1?
    requires ReaderOk(t.conns[k], Top(t.log, t.conns[k].client))
    ensures ConnOk(t, t.conns[k]) && VectorHeld(t, t.conns[k])
  {
    TouchedConn(s, t, k);
  }

  /** The parts of a busy reader's step put together. */
  lemma BusyInv(s: State, t: State, k: nat)
    requires Inv(s) && Grows(s, t) && ReaderStep(s, t, k) && BusyOnly(s, t, k)
    requires ReaderOk(t.conns[k], Top(t.log, t.conns[k].client))
    requires LogOk(t) && ChansOk(t) && Current(t) && Rows(t) && Dels(t)
    ensures Inv(t)
  {
    assert ConnOk(s, s.conns[k]) && VectorHeld(s, s.conns[k]);
    BusyStep(s, t, k);
    ReaderFrame(s, t, k);
  }

  /** Only the reader's own place changes on the connection, and it was busy. */
  ghost predicate BusyOnly(s: State, t: State, k: nat)
    requires k < |s.conns| && k < |t.conns|
  {
    var a := s.conns[k];
    && t.conns[k] == a.(reader := t.conns[k].reader)
    && a.hot && 1 <= a.consumed <= |a.inbox| && !a.inbox[a.consumed - 1].ClientStep1?
    && !a.reader.Idle? && !a.reader.ReaderDone? && a.reader.p == a.inbox[a.consumed - 1].p
    && PayloadOk(s, a.client, a.reader.p) && ReaderOk(a, Top(s.log, a.client))
  }

  /** A reader that stays before the deletion table, or ends, keeps the promise. */
  lemma SameUnwritten(s: State, t: State, k: nat)
    requires Current(s) && Grows(s, t) && ReaderStep(s, t, k) && BusyOnly(s, t, k)
    requires t.conns[k].reader.ReaderDone? || FirstUnwritten(t.conns[k]) == FirstUnwritten(s.conns[k])
    ensures Current(t)
  {
    forall i | InboxDeletes(s.conns[k], i) ensures t.conns[k].reader.ReaderDone? || InboxDeletes(t.conns[k], i) {
    }
    CurrentFrame(s, t, k);
  }

  lemma DelsSame(s: State, t: State)
    requires ChansOk(s) && t.clients == s.clients && t.chans == s.chans && t.dels == s.dels
    ensures ChansOk(t)
  {
    forall i | i in t.dels ensures Deleted(t, i) {
      assert Deleted(s, i);
      var d :| d in s.clients && i in s.clients[d].own;
      assert d in t.clients && i in t.clients[d].own;
    }
    ChansSame(s, t);
  }

  // ---------- taking a message, and stopping ----------

  lemma TakeConn(s: State, k: nat)
    requires Enabled(s, Take(k)) && ConnOk(s, s.conns[k]) && VectorHeld(s, s.conns[k])
    ensures var t := SetConn(s, k, TakeMsg(s.conns[k])); ConnOk(t, t.conns[k]) && VectorHeld(t, t.conns[k])
  {
    var t := SetConn(s, k, TakeMsg(s.conns[k]));
    TakeReader(s, s.conns[k]);
    TakeStep(s, k);
    TouchedConn(s, t, k);
  }

  /** The next message starts where the log ends, or before. */
  lemma TakeReader(s: State, a: Conn)
    requires ConnOk(s, a) && a.reader.Idle? && a.consumed < |a.inbox|
    ensures var b := TakeMsg(a);
            && (b.hot ==> b.answer.Some? && b.answer.value < b.consumed && !b.inbox[b.consumed - 1].ClientStep1?)
            && (!b.hot && b.answer.Some? ==> b.consumed <= b.answer.value)
            && ReaderOk(b, Top(s.log, b.client))
            && b.consumed <= |b.inbox| && (a.hot ==> b.hot)
            && (b.slot.Some? ==> b.slot == a.slot || ClientStep1(b.slot.value) in b.inbox)
  {
    assert a.inbox[a.consumed] in a.inbox;
    if a.hot {
      assert !a.inbox[a.consumed].ClientStep1?;
      assert !a.inbox[a.consumed - 1].ClientStep1?;
      assert a.inbox[a.consumed].p.lo == a.inbox[a.consumed - 1].p.hi;
    }
  }

  lemma TakeCurrent(s: State, k: nat)
    requires Current(s) && Enabled(s, Take(k)) && ConnOk(s, s.conns[k])
    ensures Current(SetConn(s, k, TakeMsg(s.conns[k])))
  {
    var t := SetConn(s, k, TakeMsg(s.conns[k]));
    var a, b := s.conns[k], t.conns[k];
    forall i | InboxDeletes(a, i) && a.answer.Some? ensures InboxDeletes(b, i) {
      var j :| FirstUnwritten(a) <= j < |a.inbox| && (a.answer.Some? ==> a.answer.value <= j)
                && !a.inbox[j].ClientStep1? && i in a.inbox[j].p.dels;
      assert FirstUnwritten(b) <= j;
    }
    CurrentFrame(s, t, k);
  }

  lemma IdleInv(s: State, t: State, k: nat)
    requires Inv(s) && ReaderStep(s, t, k) && t == SetConn(s, k, t.conns[k])
    requires s.conns[k].reader.Idle? && ConnOk(t, t.conns[k]) && VectorHeld(t, t.conns[k]) && Current(t)
    ensures Inv(t)
  {
    LogSame(s, t);
    DelsSame(s, t);
    ReaderFrame(s, t, k);
    CoverFrame(s, t, k);
  }

  lemma TakeStep(s: State, k: nat)
    requires Enabled(s, Take(k))
    ensures var t := SetConn(s, k, TakeMsg(s.conns[k]));
            s.conns[k].reader.Idle? && Grows(s, t) && ReaderStep(s, t, k) && t == SetConn(s, k, t.conns[k])
  {
  }

  lemma TakeInv(s: State, k: nat)
    requires Inv(s) && Enabled(s, Take(k))
    ensures Inv(SetConn(s, k, TakeMsg(s.conns[k])))
  {
    TakeStep(s, k);
    assert ConnOk(s, s.conns[k]);
    assert VectorHeld(s, s.conns[k]);
    TakeConn(s, k);
    TakeCurrent(s, k);
    IdleInv(s, SetConn(s, k, TakeMsg(s.conns[k])), k);
  }

  lemma StopReaderInv(s: State, k: nat)
    requires Inv(s) && Enabled(s, StopReader(k))
    ensures Inv(SetConn(s, k, s.conns[k].(reader := ReaderDone)))
  {
    var t := SetConn(s, k, s.conns[k].(reader := ReaderDone));
    assert ConnOk(s, s.conns[k]) && VectorHeld(s, s.conns[k]);
    TouchedConn(s, t, k);
    CurrentFrame(s, t, k);
    IdleInv(s, t, k);
  }

  // ---------- reading the maximum ----------

  lemma ReadMaxStep(s: State, k: nat)
    requires Enabled(s, ReadMax(k)) && LogOk(s) && ConnOk(s, s.conns[k])
    ensures var t := DoReadMax(s, k);
            && t == s.(conns := t.conns) && Grows(s, t) && ReaderStep(s, t, k) && BusyOnly(s, t, k) && LogOk(t)
            && ReaderOk(t.conns[k], Top(t.log, t.conns[k].client))
            && FirstUnwritten(t.conns[k]) == FirstUnwritten(s.conns[k])
  {
    BusyReader(s, s.conns[k]);
    LogSame(s, DoReadMax(s, k));
  }

  lemma ReadMaxCover(s: State, k: nat)
    requires Conns(s) && Rows(s) && Dels(s) && Enabled(s, ReadMax(k))
    ensures var t := DoReadMax(s, k); Rows(t) && Dels(t)
  {
    CoverFrame(s, DoReadMax(s, k), k);
  }

  lemma ReadMaxInv(s: State, k: nat)
    requires Inv(s) && Enabled(s, ReadMax(k))
    ensures Inv(DoReadMax(s, k))
  {
    var t := DoReadMax(s, k);
    assert ConnOk(s, s.conns[k]);
    ReadMaxStep(s, k);
    DelsSame(s, t);
    SameUnwritten(s, t, k);
    ReadMaxCover(s, k);
    BusyInv(s, t, k);
  }

  // ---------- writing the operation ----------

  lemma WriteOpGrows(s: State, k: nat)
    requires Enabled(s, WriteOp(k))
    ensures Grows(s, DoWriteOp(s, k)) && ReaderStep(s, DoWriteOp(s, k), k)
  {
  }

  lemma WriteOpStep(s: State, k: nat)
    requires Enabled(s, WriteOp(k)) && LogOk(s) && ConnOk(s, s.conns[k])
    ensures var t := DoWriteOp(s, k);
            && BusyOnly(s, t, k) && LogOk(t)
            && ReaderOk(t.conns[k], Top(t.log, t.conns[k].client))
            && FirstUnwritten(t.conns[k]) == FirstUnwritten(s.conns[k])
  {
    var t := DoWriteOp(s, k);
    BusyReader(s, s.conns[k]);
    RowWritten(s, t, s.conns[k]);
  }

  lemma WriteOpCover(s: State, k: nat)
    requires Conns(s) && Rows(s) && Dels(s) && Enabled(s, WriteOp(k))
    ensures var t := DoWriteOp(s, k); Rows(t) && Dels(t)
  {
    var t := DoWriteOp(s, k);
    forall key | key in t.log && key !in s.log ensures Owed(t, key.client, t.log[key]) {
      assert key == RowKey(s.conns[k].client, s.conns[k].reader.p);
      assert Owes(t.conns[k], key.client, t.log[key]);
    }
    CoverFrame(s, t, k);
  }

  lemma WriteOpInv(s: State, k: nat)
    requires Inv(s) && Enabled(s, WriteOp(k))
    ensures Inv(DoWriteOp(s, k))
  {
    var t := DoWriteOp(s, k);
    assert ConnOk(s, s.conns[k]);
    WriteOpGrows(s, k);
    WriteOpStep(s, k);
    DelsSame(s, t);
    SameUnwritten(s, t, k);
    WriteOpCover(s, k);
    BusyInv(s, t, k);
  }

  // ---------- writing the deletions ----------

  lemma WriteDelsStep(s: State, k: nat)
    requires Clients(s) && ChansOk(s) && LogOk(s) && Enabled(s, WriteDels(k)) && ConnOk(s, s.conns[k])
    ensures var t := DoWriteDels(s, k);
            && Grows(s, t) && ReaderStep(s, t, k) && BusyOnly(s, t, k) && LogOk(t) && ChansOk(t)
            && ReaderOk(t.conns[k], Top(t.log, t.conns[k].client))
  {
    var t := DoWriteDels(s, k);
    var a := s.conns[k];
    BusyReader(s, a);
    DelsGrow(s, t, a.client, a.reader.p);
    LogSame(s, t);
    ChansSame(s, t);
  }

  lemma WriteDelsCurrent(s: State, k: nat)
    requires Current(s) && Enabled(s, WriteDels(k)) && BusyOnly(s, DoWriteDels(s, k), k)
    ensures Current(DoWriteDels(s, k))
  {
    var t := DoWriteDels(s, k);
    var a, b := s.conns[k], t.conns[k];
    forall i | InboxDeletes(a, i) ensures i in t.dels || InboxDeletes(b, i) {
      var j :| FirstUnwritten(a) <= j < |a.inbox| && (a.answer.Some? ==> a.answer.value <= j)
                && !a.inbox[j].ClientStep1? && i in a.inbox[j].p.dels;
      assert j == FirstUnwritten(a) || FirstUnwritten(b) <= j;
    }
    CurrentFrame(s, t, k);
  }

  lemma WriteDelsCover(s: State, k: nat)
    requires Conns(s) && Rows(s) && Dels(s) && Enabled(s, WriteDels(k))
    ensures var t := DoWriteDels(s, k); Rows(t) && Dels(t)
  {
    var t := DoWriteDels(s, k);
    forall i | i in t.dels && i !in s.dels ensures DelOwed(t, i) {
      assert OwesDel(t.conns[k], i);
    }
    CoverFrame(s, t, k);
  }

  lemma WriteDelsInv(s: State, k: nat)
    requires Inv(s) && Enabled(s, WriteDels(k))
    ensures Inv(DoWriteDels(s, k))
  {
    assert ConnOk(s, s.conns[k]);
    WriteDelsStep(s, k);
    WriteDelsCurrent(s, k);
    WriteDelsCover(s, k);
    BusyInv(s, DoWriteDels(s, k), k);
  }

  // ---------- broadcasting ----------

  /** A send that finds a receiver reaches every receiver: the live channel is unique. */
  lemma SentToAll(s: State, k: nat)
    requires Conns(s) && Enabled(s, Broadcast(k))
    ensures var t := DoBroadcast(s, k); var r := s.conns[k].reader; var m := Bcast(s.conns[k].client, r.p);
            r.persisted || r.novel ==> LostSince(t, |s.lost|, m) || InAllChans(t, m)
  {
    var t := DoBroadcast(s, k);
    var a := s.conns[k];
    var m := Bcast(a.client, a.reader.p);
    if (a.reader.persisted || a.reader.novel) && Listening(s, a.chan) {
      var l :| 0 <= l < |s.conns| && s.conns[l].chan == a.chan && s.conns[l].writer != WriterDone;
      assert ConnOk(s, s.conns[l]);
      forall j | 0 <= j < |t.conns| && t.conns[j].writer != WriterDone ensures InChan(t, t.conns[j], m) {
        assert ConnOk(s, s.conns[j]);
        assert t.chans[a.chan][|s.chans[a.chan]|] == m;
      }
    } else if a.reader.persisted || a.reader.novel {
      assert t.lost[|s.lost|] == m;
    }
  }

  lemma BroadcastChans(s: State, k: nat)
    requires ChansOk(s) && Enabled(s, Broadcast(k)) && PayloadOk(s, s.conns[k].client, s.conns[k].reader.p)
    ensures ChansOk(DoBroadcast(s, k))
  {
    var t := DoBroadcast(s, k);
    DelsSame(s, t.(chans := s.chans));
    forall i | i in t.dels ensures Deleted(t, i) {
      assert Deleted(t.(chans := s.chans), i);
    }
    forall ch, j | 0 <= ch < |t.chans| && 0 <= j < |t.chans[ch]|
      ensures PayloadOk(t, t.chans[ch][j].sender, t.chans[ch][j].p)
    {
      if j < |s.chans[ch]| { assert PayloadOk(s, s.chans[ch][j].sender, s.chans[ch][j].p); }
    }
  }

  lemma BroadcastFrame(s: State, k: nat)
    requires Enabled(s, Broadcast(k))
    ensures var t := DoBroadcast(s, k);
            && |t.chans| == |s.chans| && (forall ch :: 0 <= ch < |s.chans| ==> s.chans[ch] <= t.chans[ch])
            && t == s.(conns := t.conns, chans := t.chans, lost := t.lost) && s.lost <= t.lost
            && t.conns == s.conns[k := s.conns[k].(reader := t.conns[k].reader)]
  {
  }

  lemma BroadcastGrows(s: State, k: nat)
    requires Enabled(s, Broadcast(k))
    ensures Grows(s, DoBroadcast(s, k)) && ReaderStep(s, DoBroadcast(s, k), k)
  {
    BroadcastFrame(s, k);
  }

  lemma BroadcastStep(s: State, k: nat)
    requires LogOk(s) && Enabled(s, Broadcast(k)) && ConnOk(s, s.conns[k])
    ensures var t := DoBroadcast(s, k);
            && BusyOnly(s, t, k) && LogOk(t) && ReaderOk(t.conns[k], Top(t.log, t.conns[k].client))
            && FirstUnwritten(t.conns[k]) == FirstUnwritten(s.conns[k])
  {
    BusyReader(s, s.conns[k]);
    LogSame(s, DoBroadcast(s, k));
  }

  lemma BroadcastCover(s: State, k: nat)
    requires Conns(s) && Rows(s) && Dels(s) && Enabled(s, Broadcast(k))
    ensures var t := DoBroadcast(s, k); Rows(t) && Dels(t)
  {
    var t := DoBroadcast(s, k);
    var m := Bcast(s.conns[k].client, s.conns[k].reader.p);
    SentToAll(s, k);
    assert LostSince(t, |s.lost|, m) ==> forall i | i in m.p.dels :: DelLostSince(t, |s.lost|, i);
    forall i | OwesDel(s.conns[k], i) && !LostSince(t, |s.lost|, m) ensures DelInAllChans(t, i) {
      forall j | 0 <= j < |t.conns| && t.conns[j].writer != WriterDone ensures DelInChan(t, t.conns[j], i) {
        assert InChan(t, t.conns[j], m);
      }
    }
    CoverFrame(s, t, k);
  }

  lemma BroadcastInv(s: State, k: nat)
    requires Inv(s) && Enabled(s, Broadcast(k))
    ensures Inv(DoBroadcast(s, k))
  {
    assert ConnOk(s, s.conns[k]);
    BroadcastStep(s, k);
    BroadcastChans(s, k);
    BroadcastGrows(s, k);
    SameUnwritten(s, DoBroadcast(s, k), k);
    BroadcastCover(s, k);
    BusyInv(s, DoBroadcast(s, k), k);
  }

  // ---------- a repository error ----------

  lemma ReaderErrorStep(s: State, k: nat, applied: bool)
    requires LogOk(s) && Enabled(s, ReaderError(k, applied)) && ConnOk(s, s.conns[k])
    ensures var t := DoReaderError(s, k, applied);
            && Grows(s, t) && ReaderStep(s, t, k) && BusyOnly(s, t, k) && LogOk(t)
  {
    var t := DoReaderError(s, k, applied);
    BusyReader(s, s.conns[k]);
    if s.conns[k].reader.ReadLast? { RowWritten(s, t, s.conns[k]); } else { LogSame(s, t); }
  }

  lemma ReaderErrorDels(s: State, k: nat, applied: bool)
    requires Clients(s) && ChansOk(s) && Enabled(s, ReaderError(k, applied))
    requires PayloadOk(s, s.conns[k].client, s.conns[k].reader.p)
    ensures ChansOk(DoReaderError(s, k, applied))
  {
    var t := DoReaderError(s, k, applied);
    DelsGrow(s, t, s.conns[k].client, s.conns[k].reader.p);
    ChansSame(s, t);
  }

  lemma ReaderErrorCover(s: State, k: nat, applied: bool)
    requires Conns(s) && Rows(s) && Dels(s) && Enabled(s, ReaderError(k, applied))
    ensures var t := DoReaderError(s, k, applied); Rows(t) && Dels(t)
  {
    var t := DoReaderError(s, k, applied);
    var m := Bcast(s.conns[k].client, s.conns[k].reader.p);
    assert t.lost != s.lost ==> t.lost[|s.lost|] == m;
    forall i | i in t.dels && i !in s.dels ensures DelLostSince(t, |s.lost|, i) {
    }
    CoverFrame(s, t, k);
  }

  lemma ReaderErrorInv(s: State, k: nat, applied: bool)
    requires Inv(s) && Enabled(s, ReaderError(k, applied))
    ensures Inv(DoReaderError(s, k, applied))
  {
    assert ConnOk(s, s.conns[k]);
    ReaderErrorStep(s, k, applied);
    ReaderErrorDels(s, k, applied);
    SameUnwritten(s, DoReaderError(s, k, applied), k);
    ReaderErrorCover(s, k, applied);
    BusyInv(s, DoReaderError(s, k, applied), k);
  }
}
