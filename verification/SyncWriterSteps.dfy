/** Every step of a writer task keeps the invariant. */
module SyncWriterSteps {
  import opened Wrappers
  import opened OpLog
  import opened SyncProtocol
  import opened SyncInvariant

  /** A step of writer `k`: its place in the channel, what it has sent, and its phase. */
  predicate WriterStep(s: State, t: State, k: nat) {
    && k < |s.conns| && k < |t.conns| && t == SetConn(s, k, t.conns[k])
    && var a, b := s.conns[k], t.conns[k];
       b == a.(pos := b.pos, slot := b.slot, writer := b.writer, out := b.out, missed := b.missed, since := b.since)
  }

  lemma TablesSame(s: State, t: State, k: nat)
    requires Inv(s) && WriterStep(s, t, k)
    ensures LogOk(t) && ChansOk(t) && Clients(t) && Current(t)
  {
    AllGrow(s, t, {}, s.dels);
    forall key | key in t.log ensures PayloadOk(t, key.client, t.log[key]) {
      assert PayloadOk(s, key.client, s.log[key]);
    }
    forall ch, j | 0 <= ch < |t.chans| && 0 <= j < |t.chans[ch]|
      ensures PayloadOk(t, t.chans[ch][j].sender, t.chans[ch][j].p)
    {
      assert PayloadOk(s, s.chans[ch][j].sender, s.chans[ch][j].p);
    }
    forall c | c in t.clients ensures ClientOk(t, c) {
      assert ClientOk(s, c);
      AllGrow(s, t, s.clients[c].known, s.clients[c].dels);
    }
    CurrentSame(s, t, k);
  }

  lemma CurrentSame(s: State, t: State, k: nat)
    requires Current(s) && WriterStep(s, t, k)
    ensures Current(t)
  {
    forall c | c in t.clients ensures CurrentOk(t, c) {
      assert CurrentOk(s, c);
      var cl := s.clients[c];
      if cl.conn.Some? && cl.conn.value < |s.conns| {
        var a, b := s.conns[cl.conn.value], t.conns[cl.conn.value];
        assert FirstUnwritten(b) == FirstUnwritten(a);
        if b.answer.Some? && b.reader != ReaderDone {
          forall i | i in cl.own ensures i in t.dels || InboxDeletes(b, i) {
            assert i in s.dels || InboxDeletes(a, i);
          }
        }
      }
    }
  }

  lemma OthersSame(s: State, t: State, k: nat)
    requires Conns(s) && Vectors(s) && WriterStep(s, t, k)
    requires ConnOk(t, t.conns[k]) && VectorHeld(t, t.conns[k])
    ensures Conns(t) && Vectors(t)
  {
    forall j | 0 <= j < |t.conns| ensures ConnOk(t, t.conns[j]) && VectorHeld(t, t.conns[j]) {
      if j != k {
        assert ConnOk(s, s.conns[j]) && VectorHeld(s, s.conns[j]);
        ConnGrows(s, t, s.conns[j]);
        VectorGrows(s, t, s.conns[j]);
      }
    }
  }

  lemma OwedSame(s: State, t: State, k: nat, d: nat, p: Payload)
    requires WriterStep(s, t, k)
    ensures Owed(s, d, p) ==> Owed(t, d, p)
  {
    if Owed(s, d, p) {
      var r :| 0 <= r < |s.conns| && Owes(s.conns[r], d, p);
      assert Owes(t.conns[r], d, p);
    }
  }

  lemma DelOwedSame(s: State, t: State, k: nat, i: Id)
    requires WriterStep(s, t, k)
    ensures DelOwed(s, i) ==> DelOwed(t, i)
  {
    if DelOwed(s, i) {
      var r :| 0 <= r < |s.conns| && OwesDel(s.conns[r], i);
      assert OwesDel(t.conns[r], i);
    }
  }

  /** What other connections still have to receive is where it was. */
  lemma CoverSame(s: State, t: State, k: nat)
    requires Rows(s) && Dels(s) && WriterStep(s, t, k)
    requires IsCurrent(s, k) ==> RowsCovered(t, t.conns[k]) && DelsCovered(t, t.conns[k])
    ensures Rows(t) && Dels(t)
  {
    forall j | 0 <= j < |t.conns| && IsCurrent(t, j)
      ensures RowsCovered(t, t.conns[j]) && DelsCovered(t, t.conns[j])
    {
      assert IsCurrent(s, j) && RowsCovered(s, s.conns[j]) && DelsCovered(s, s.conns[j]);
      var cn := t.conns[j];
      if j != k && (cn.writer.GotOps? || cn.writer.Hot?) {
        forall key | key in t.log && key.client != cn.client ensures RowCovered(t, cn, key.client, t.log[key]) {
          assert RowCovered(s, cn, key.client, s.log[key]);
          OwedSame(s, t, k, key.client, s.log[key]);
          assert InChan(s, cn, Bcast(key.client, s.log[key])) ==> InChan(t, cn, Bcast(key.client, s.log[key]));
        }
      }
      if j != k && cn.writer.Hot? {
        forall i | i in t.dels ensures DelCovered(t, cn, i) {
          assert DelCovered(s, cn, i);
          DelOwedSame(s, t, k, i);
          assert DelInChan(s, cn, i) ==> DelInChan(t, cn, i);
        }
      }
    }
  }

  /** The writer's own connection stays in order when what it adds is in order. */
  lemma TouchedConn(s: State, t: State, k: nat)
    requires WriterStep(s, t, k) && ConnOk(s, s.conns[k]) && VectorHeld(s, s.conns[k])
    requires var a, b := s.conns[k], t.conns[k];
             && b.pos <= |s.chans[a.chan]| && b.since <= |s.lost| && (b.writer != WriterDone ==> a.writer != WriterDone)
             && a.out <= b.out && |b.out| <= |a.out| + 1
             && OutTrace(b.out) && WriterTrace(b)
             && (|b.out| > |a.out| ==> OutOk(s, a, b.out[|a.out|]) && SentOk(s, b.out[|a.out|]))
             && (|b.out| >= 1 ==> b.out[0].ServerStep1? && b.out[0].next <= Top(s.log, a.client))
             && (b.writer.GotOps? ==> AllCreated(s, b.writer.ids) && AllDeleted(s, b.writer.dels))
             && (b.slot.Some? ==> b.slot == a.slot)
             && (b.writer.Serving? ==> b.writer == a.writer || a.slot == Some(b.writer.sv))
    ensures ConnOk(t, t.conns[k]) && VectorHeld(t, t.conns[k])
  {
    var a, b := s.conns[k], t.conns[k];
    VectorGrows(s, t, a);
    forall i | 0 <= i < |b.inbox| && !b.inbox[i].ClientStep1? ensures PayloadOk(t, b.client, b.inbox[i].p) {
      PayloadGrows(s, t, b.client, a.inbox[i].p);
    }
    forall i | 0 <= i < |b.out| ensures OutOk(t, b, b.out[i]) && SentOk(t, b.out[i]) {
      if i < |a.out| { assert b.out[i] == a.out[i]; }
      assert OutOk(s, a, b.out[i]) && SentOk(s, b.out[i]);
      match b.out[i] {
        case ServerStep1(_) =>
        case ServerStep2(ids, dels) => AllGrow(s, t, ids, dels);
        case ServerUpdate(from, p) => PayloadGrows(s, t, from, p);
      }
    }
    if b.writer.GotOps? {
      AllGrow(s, t, b.writer.ids, b.writer.dels);
    }
  }

  lemma WriterInv(s: State, t: State, k: nat)
    requires Inv(s) && WriterStep(s, t, k)
    requires ConnOk(t, t.conns[k]) && VectorHeld(t, t.conns[k])
    requires IsCurrent(s, k) ==> RowsCovered(t, t.conns[k]) && DelsCovered(t, t.conns[k])
    ensures Inv(t)
  {
    TablesSame(s, t, k);
    OthersSame(s, t, k);
    CoverSame(s, t, k);
  }

  // ---------- the handshake ----------

  lemma SendStep1Inv(s: State, k: nat)
    requires Inv(s) && Enabled(s, SendStep1(k))
    ensures Inv(DoSendStep1(s, k))
  {
    var t := DoSendStep1(s, k);
    assert ConnOk(s, s.conns[k]) && VectorHeld(s, s.conns[k]);
    TouchedConn(s, t, k);
    WriterInv(s, t, k);
  }

  lemma TakeVectorInv(s: State, k: nat)
    requires Inv(s) && Enabled(s, TakeVector(k))
    ensures Inv(DoTakeVector(s, k))
  {
    var t := DoTakeVector(s, k);
    assert ConnOk(s, s.conns[k]) && VectorHeld(s, s.conns[k]);
    TouchedConn(s, t, k);
    WriterInv(s, t, k);
  }

  /** The rows below a sound vector are in the document; the others are all read. */
  lemma ReadOpsCovers(s: State, k: nat)
    requires LogOk(s) && Enabled(s, ReadOps(k)) && VectorHeld(s, s.conns[k])
    ensures var t := DoReadOps(s, k); RowsCovered(t, t.conns[k])
  {
    var t := DoReadOps(s, k);
    var cn := t.conns[k];
    var sv := s.conns[k].writer.sv;
    forall key | key in t.log && key.client != cn.client
      ensures RowCovered(t, cn, key.client, t.log[key])
    {
      if Chosen(sv, key) {
        assert InWriter(cn, Ids(key.client, t.log[key]));
      } else {
        assert InDoc(t, cn.client, Ids(key.client, t.log[key]));
      }
    }
  }

  lemma ReadOpsBounds(s: State, k: nat)
    requires Inv(s) && Enabled(s, ReadOps(k))
    ensures var w := DoReadOps(s, k).conns[k].writer; AllCreated(s, w.ids) && AllDeleted(s, w.dels)
  {
    var w := DoReadOps(s, k).conns[k].writer;
    forall i | i in w.ids ensures Created(s, i) {
      var key :| key in s.log && i in Ids(key.client, s.log[key]);
      assert PayloadOk(s, key.client, s.log[key]);
    }
    forall i | i in w.dels ensures Deleted(s, i) {
      var key :| key in s.log && i in s.log[key].dels;
      assert PayloadOk(s, key.client, s.log[key]);
      assert ClientOk(s, key.client);
    }
  }

  lemma ReadOpsInv(s: State, k: nat)
    requires Inv(s) && Enabled(s, ReadOps(k))
    ensures Inv(DoReadOps(s, k))
  {
    var t := DoReadOps(s, k);
    assert ConnOk(s, s.conns[k]) && VectorHeld(s, s.conns[k]);
    ReadOpsCovers(s, k);
    ReadOpsBounds(s, k);
    TouchedConn(s, t, k);
    WriterInv(s, t, k);
  }

  lemma ReadDelsCovers(s: State, k: nat)
    requires Rows(s) && Enabled(s, ReadDels(k)) && IsCurrent(s, k) && ConnOk(s, s.conns[k])
    ensures var t := DoReadDels(s, k); RowsCovered(t, t.conns[k]) && DelsCovered(t, t.conns[k])
  {
    var t := DoReadDels(s, k);
    var a, b := s.conns[k], t.conns[k];
    var last := |a.out|;
    assert RowsCovered(s, a);
    forall key | key in t.log && key.client != b.client ensures RowCovered(t, b, key.client, t.log[key]) {
      var ids := Ids(key.client, s.log[key]);
      assert RowCovered(s, a, key.client, s.log[key]);
      assert InWriter(a, ids) ==> ids <= OutIds(b.out[last]);
      if InOut(a, ids) {
        var j :| a.delivered <= j < |a.out| && ids <= OutIds(a.out[j]);
        assert ids <= OutIds(b.out[j]);
      }
      OwedSame(s, t, k, key.client, s.log[key]);
      assert InChan(s, a, Bcast(key.client, s.log[key])) ==> InChan(t, b, Bcast(key.client, s.log[key]));
    }
    forall i | i in t.dels ensures DelCovered(t, b, i) {
      assert i in OutDels(b.out[last]);
      assert DelInOut(b, i);
    }
  }

  lemma ReadDelsInv(s: State, k: nat)
    requires Inv(s) && Enabled(s, ReadDels(k))
    ensures Inv(DoReadDels(s, k))
  {
    var t := DoReadDels(s, k);
    assert ConnOk(s, s.conns[k]) && VectorHeld(s, s.conns[k]);
    if IsCurrent(s, k) { ReadDelsCovers(s, k); }
    TouchedConn(s, t, k);
    WriterInv(s, t, k);
  }

  // ---------- the hot path ----------

  lemma ReceiveRows(s: State, k: nat)
    requires Rows(s) && Enabled(s, Receive(k)) && IsCurrent(s, k) && ConnOk(s, s.conns[k])
    ensures var t := DoReceive(s, k); RowsCovered(t, t.conns[k])
  {
    var t := DoReceive(s, k);
    var a, b := s.conns[k], t.conns[k];
    assert RowsCovered(s, a);
    forall key | key in t.log && key.client != b.client ensures RowCovered(t, b, key.client, t.log[key]) {
      var ids := Ids(key.client, s.log[key]);
      var m := Bcast(key.client, s.log[key]);
      assert RowCovered(s, a, key.client, s.log[key]);
      if InOut(a, ids) {
        var j :| a.delivered <= j < |a.out| && ids <= OutIds(a.out[j]);
        assert ids <= OutIds(b.out[j]);
      } else if InChan(s, a, m) {
        var j :| a.pos <= j < |s.chans[a.chan]| && s.chans[a.chan][j] == m;
        if j == a.pos {
          assert ids <= OutIds(b.out[|a.out|]);
        } else {
          assert t.chans[b.chan][j] == m;
          assert InChan(t, b, m);
        }
      }
      OwedSame(s, t, k, key.client, s.log[key]);
    }
  }

  lemma ReceiveDels(s: State, k: nat)
    requires Dels(s) && ChansOk(s) && Enabled(s, Receive(k)) && IsCurrent(s, k) && ConnOk(s, s.conns[k])
    ensures var t := DoReceive(s, k); DelsCovered(t, t.conns[k])
  {
    var t := DoReceive(s, k);
    var a, b := s.conns[k], t.conns[k];
    assert DelsCovered(s, a);
    assert PayloadOk(s, s.chans[a.chan][a.pos].sender, s.chans[a.chan][a.pos].p);
    forall i | i in t.dels ensures DelCovered(t, b, i) {
      assert DelCovered(s, a, i);
      if DelInOut(a, i) {
        var j :| a.delivered <= j < |a.out| && i in OutDels(a.out[j]);
        assert i in OutDels(b.out[j]);
      } else if DelInChan(s, a, i) {
        var j :| a.pos <= j < |s.chans[a.chan]| && i in s.chans[a.chan][j].p.dels;
        if j > a.pos {
          assert i in t.chans[b.chan][j].p.dels;
        } else if s.chans[a.chan][j].sender != a.client {
          assert i in OutDels(b.out[|a.out|]);
        }
      }
      DelOwedSame(s, t, k, i);
    }
  }

  lemma ReceiveInv(s: State, k: nat)
    requires Inv(s) && Enabled(s, Receive(k))
    ensures Inv(DoReceive(s, k))
  {
    var t := DoReceive(s, k);
    var a := s.conns[k];
    assert ConnOk(s, a) && VectorHeld(s, a);
    assert PayloadOk(s, s.chans[a.chan][a.pos].sender, s.chans[a.chan][a.pos].p);
    if IsCurrent(s, k) { ReceiveRows(s, k); ReceiveDels(s, k); }
    TouchedConn(s, t, k);
    WriterInv(s, t, k);
  }

  lemma LagCovers(s: State, k: nat, count: nat)
    requires Rows(s) && Dels(s) && Enabled(s, Lag(k, count)) && IsCurrent(s, k)
    ensures var t := DoLag(s, k, count); RowsCovered(t, t.conns[k]) && DelsCovered(t, t.conns[k])
  {
    var t := DoLag(s, k, count);
    var a, b := s.conns[k], t.conns[k];
    assert RowsCovered(s, a) && DelsCovered(s, a);
    forall j | a.pos <= j < b.pos ensures s.chans[a.chan][j] in b.missed {
      assert s.chans[a.chan][a.pos..b.pos][j - a.pos] == s.chans[a.chan][j];
    }
    forall key | key in t.log && key.client != b.client ensures RowCovered(t, b, key.client, t.log[key]) {
      var m := Bcast(key.client, s.log[key]);
      assert RowCovered(s, a, key.client, s.log[key]);
      if InChan(s, a, m) {
        var j :| a.pos <= j < |s.chans[a.chan]| && s.chans[a.chan][j] == m;
        assert j < b.pos || InChan(t, b, m) by {
          if j >= b.pos { assert t.chans[b.chan][j] == m; }
        }
      }
      assert InOut(a, Ids(m.sender, m.p)) ==> InOut(b, Ids(m.sender, m.p));
      OwedSame(s, t, k, key.client, s.log[key]);
    }
    LagDels(s, k, count);
  }

  lemma LagDels(s: State, k: nat, count: nat)
    requires Dels(s) && Enabled(s, Lag(k, count)) && IsCurrent(s, k)
    ensures var t := DoLag(s, k, count); DelsCovered(t, t.conns[k])
  {
    var t := DoLag(s, k, count);
    var a, b := s.conns[k], t.conns[k];
    assert DelsCovered(s, a);
    forall j | a.pos <= j < b.pos ensures s.chans[a.chan][j] in b.missed {
      assert s.chans[a.chan][a.pos..b.pos][j - a.pos] == s.chans[a.chan][j];
    }
    forall i | i in t.dels ensures DelCovered(t, b, i) {
      assert DelCovered(s, a, i);
      if DelInChan(s, a, i) {
        var j :| a.pos <= j < |s.chans[a.chan]| && i in s.chans[a.chan][j].p.dels;
        if j < b.pos {
          assert DelMissed(b, i);
        } else {
          assert i in t.chans[b.chan][j].p.dels;
        }
      } else if DelMissed(a, i) {
        var m :| m in a.missed && i in m.p.dels;
        assert m in b.missed;
      }
      assert DelInOut(a, i) ==> DelInOut(b, i);
      DelOwedSame(s, t, k, i);
    }
  }

  lemma LagInv(s: State, k: nat, count: nat)
    requires Inv(s) && Enabled(s, Lag(k, count))
    ensures Inv(DoLag(s, k, count))
  {
    var t := DoLag(s, k, count);
    assert ConnOk(s, s.conns[k]) && VectorHeld(s, s.conns[k]);
    if IsCurrent(s, k) { LagCovers(s, k, count); }
    TouchedConn(s, t, k);
    WriterInv(s, t, k);
  }

  lemma StopWriterInv(s: State, k: nat)
    requires Inv(s) && Enabled(s, StopWriter(k))
    ensures Inv(SetConn(s, k, s.conns[k].(writer := WriterDone)))
  {
    var t := SetConn(s, k, s.conns[k].(writer := WriterDone));
    assert ConnOk(s, s.conns[k]) && VectorHeld(s, s.conns[k]);
    TouchedConn(s, t, k);
    WriterInv(s, t, k);
  }
}
