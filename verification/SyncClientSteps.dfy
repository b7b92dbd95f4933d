/** Every step of a client keeps the invariant. */
module SyncClientSteps {
  import opened Wrappers
  import opened OpLog
  import opened SyncProtocol
  import opened SyncInvariant

  /** A step of client `c`: its record, and the queue of one connection of its own. */
  ghost predicate ClientStep(s: State, t: State, c: nat) {
    && Grows(s, t) && c in s.clients
    && (forall d :: d in s.clients && d != c ==> t.clients[d] == s.clients[d])
    && t.log == s.log && t.dels == s.dels && t.lost == s.lost
    && (forall ch :: 0 <= ch < |s.chans| ==> t.chans[ch] == s.chans[ch])
    && (forall j :: 0 <= j < |s.conns| ==>
          && t.conns[j].reader == s.conns[j].reader && t.conns[j].client == s.conns[j].client
          && (s.conns[j].client != c ==> t.conns[j] == s.conns[j]))
  }

  lemma TablesKept(s: State, t: State, c: nat)
    requires LogOk(s) && ChansOk(s) && ClientStep(s, t, c)
    requires forall ch :: |s.chans| <= ch < |t.chans| ==> t.chans[ch] == []
    ensures LogOk(t) && ChansOk(t)
  {
    AllGrow(s, t, {}, s.dels);
    forall key | key in t.log ensures PayloadOk(t, key.client, t.log[key]) {
      PayloadGrows(s, t, key.client, s.log[key]);
    }
    forall ch, j | 0 <= ch < |t.chans| && 0 <= j < |t.chans[ch]|
      ensures PayloadOk(t, t.chans[ch][j].sender, t.chans[ch][j].p)
    {
      PayloadGrows(s, t, s.chans[ch][j].sender, s.chans[ch][j].p);
    }
  }

  lemma ClientsKept(s: State, t: State, c: nat)
    requires Clients(s) && ClientStep(s, t, c) && ClientOk(t, c)
    ensures Clients(t)
  {
    forall d | d in t.clients ensures ClientOk(t, d) {
      if d != c {
        assert ClientOk(s, d);
        AllGrow(s, t, s.clients[d].known, s.clients[d].dels);
      }
    }
  }

  lemma CurrentKept(s: State, t: State, c: nat)
    requires Current(s) && Clients(s) && ClientStep(s, t, c) && CurrentOk(t, c)
    ensures Current(t)
  {
    forall d | d in t.clients ensures CurrentOk(t, d) {
      if d != c {
        assert CurrentOk(s, d) && ClientOk(s, d);
      }
    }
  }

  /** Other clients' connections: what they still have to receive is where it was. */
  lemma CoverKept(s: State, t: State, c: nat)
    requires Rows(s) && Dels(s) && Conns(s) && ClientStep(s, t, c)
    requires forall j :: 0 <= j < |t.conns| && t.conns[j].client == c && IsCurrent(t, j) ==>
                           RowsCovered(t, t.conns[j]) && DelsCovered(t, t.conns[j])
    requires forall j :: |s.conns| <= j < |t.conns| ==> t.conns[j].client == c
    ensures Rows(t) && Dels(t)
  {
    forall j | 0 <= j < |t.conns| && IsCurrent(t, j)
      ensures RowsCovered(t, t.conns[j]) && DelsCovered(t, t.conns[j])
    {
      if t.conns[j].client != c {
        assert IsCurrent(s, j) && RowsCovered(s, s.conns[j]) && DelsCovered(s, s.conns[j]) && ConnOk(s, s.conns[j]);
        RowsKept(s, t, c, s.conns[j]);
        DelsKept(s, t, c, s.conns[j]);
      }
    }
  }

  lemma OwedKept(s: State, t: State, c: nat, d: nat, p: Payload)
    requires ClientStep(s, t, c)
    ensures Owed(s, d, p) ==> Owed(t, d, p)
  {
    if Owed(s, d, p) {
      var r :| 0 <= r < |s.conns| && Owes(s.conns[r], d, p);
      assert Owes(t.conns[r], d, p);
    }
  }

  lemma DelOwedKept(s: State, t: State, c: nat, i: Id)
    requires ClientStep(s, t, c)
    ensures DelOwed(s, i) ==> DelOwed(t, i)
  {
    if DelOwed(s, i) {
      var r :| 0 <= r < |s.conns| && OwesDel(s.conns[r], i);
      assert OwesDel(t.conns[r], i);
    }
  }

  lemma RowsKept(s: State, t: State, c: nat, cn: Conn)
    requires ClientStep(s, t, c) && RowsCovered(s, cn) && ConnOk(s, cn)
    ensures RowsCovered(t, cn)
  {
    if cn.writer.GotOps? || cn.writer.Hot? {
      forall key | key in t.log && key.client != cn.client ensures RowCovered(t, cn, key.client, t.log[key]) {
        var m := Bcast(key.client, s.log[key]);
        assert RowCovered(s, cn, key.client, s.log[key]);
        OwedKept(s, t, c, key.client, s.log[key]);
        assert InChan(s, cn, m) ==> InChan(t, cn, m);
        assert ClientGrows(s.clients[cn.client], t.clients[cn.client]);
      }
    }
  }

  lemma DelsKept(s: State, t: State, c: nat, cn: Conn)
    requires ClientStep(s, t, c) && DelsCovered(s, cn) && ConnOk(s, cn)
    ensures DelsCovered(t, cn)
  {
    if cn.writer.Hot? {
      forall i | i in t.dels ensures DelCovered(t, cn, i) {
        assert DelCovered(s, cn, i);
        DelOwedKept(s, t, c, i);
        assert DelInChan(s, cn, i) ==> DelInChan(t, cn, i);
        assert ClientGrows(s.clients[cn.client], t.clients[cn.client]);
      }
    }
  }

  /** The same, when the connection's own queue towards the server grew. */
  lemma OwnKept(s: State, t: State, c: nat, a: Conn, b: Conn)
    requires ClientStep(s, t, c) && ConnOk(s, a) && RowsCovered(s, a) && DelsCovered(s, a)
    requires b == a.(inbox := b.inbox, answer := b.answer)
    ensures RowsCovered(t, b) && DelsCovered(t, b)
  {
    RowsKept(s, t, c, a);
    DelsKept(s, t, c, a);
    if b.writer.GotOps? || b.writer.Hot? {
      forall key | key in t.log && key.client != b.client ensures RowCovered(t, b, key.client, t.log[key]) {
        assert RowCovered(t, a, key.client, t.log[key]);
        assert InOut(a, Ids(key.client, t.log[key])) ==> InOut(b, Ids(key.client, t.log[key]));
        assert InChan(t, a, Bcast(key.client, t.log[key])) ==> InChan(t, b, Bcast(key.client, t.log[key]));
      }
    }
    if b.writer.Hot? {
      forall i | i in t.dels ensures DelCovered(t, b, i) {
        assert DelCovered(t, a, i);
        assert DelInOut(a, i) ==> DelInOut(b, i);
        assert DelInChan(t, a, i) ==> DelInChan(t, b, i);
      }
    }
  }

  lemma ConnsKept(s: State, t: State, c: nat, k: nat)
    requires Conns(s) && Vectors(s) && ClientStep(s, t, c) && k < |t.conns|
    requires forall j :: 0 <= j < |s.conns| && j != k ==> t.conns[j] == s.conns[j]
    requires forall j :: 0 <= j < |s.conns| && s.conns[j].writer != WriterDone ==> |t.chans| == |s.chans|
    requires |t.conns| <= |s.conns| + 1 && (|t.conns| > |s.conns| ==> k == |s.conns|)
    requires ConnOk(t, t.conns[k]) && VectorHeld(t, t.conns[k])
    ensures Conns(t) && Vectors(t)
  {
    forall j | 0 <= j < |t.conns| ensures ConnOk(t, t.conns[j]) && VectorHeld(t, t.conns[j]) {
      if j != k {
        assert ConnOk(s, s.conns[j]) && VectorHeld(s, s.conns[j]);
        ConnGrows(s, t, s.conns[j]);
        VectorGrows(s, t, s.conns[j]);
      }
    }
  }

  /** The parts of a client's step on its connection `k` put together. */
  lemma ClientInv(s: State, t: State, c: nat, k: nat)
    requires Inv(s) && ClientStep(s, t, c) && ClientOk(t, c) && CurrentOk(t, c)
    requires t.chans == s.chans && |t.conns| == |s.conns| && k < |s.conns| && IsCurrent(s, k)
    requires t.clients[c].conn == s.clients[c].conn == Some(k) && t.conns[k].client == c
    requires forall j :: 0 <= j < |s.conns| && j != k ==> t.conns[j] == s.conns[j]
    requires ConnOk(t, t.conns[k]) && VectorHeld(t, t.conns[k])
    requires RowsCovered(t, t.conns[k]) && DelsCovered(t, t.conns[k])
    ensures Inv(t)
  {
    TablesKept(s, t, c);
    ClientsKept(s, t, c);
    CurrentKept(s, t, c);
    ConnsKept(s, t, c, k);
    CoverKept(s, t, c);
  }

  // ---------- connecting ----------

  lemma ConnectStep(s: State, c: nat, sv: map<nat, nat>, freshChannel: bool)
    requires Clients(s) && Enabled(s, Connect(c, sv, freshChannel))
    ensures var t := DoConnect(s, c, sv, freshChannel); ClientStep(s, t, c) && ClientOk(t, c) && CurrentOk(t, c)
  {
    var t := DoConnect(s, c, sv, freshChannel);
    assert ClientOk(s, c);
    AllGrow(s, t, s.clients[c].known, s.clients[c].dels);
  }

  lemma ConnectConn(s: State, c: nat, sv: map<nat, nat>, freshChannel: bool)
    requires Enabled(s, Connect(c, sv, freshChannel))
    ensures var t := DoConnect(s, c, sv, freshChannel); var k := |s.conns|;
            && |t.conns| == k + 1 && (forall j :: 0 <= j < k ==> t.conns[j] == s.conns[j])
            && ConnOk(t, t.conns[k]) && VectorHeld(t, t.conns[k])
  {
  }

  lemma ConnectCover(s: State, c: nat, sv: map<nat, nat>, freshChannel: bool)
    requires Conns(s) && Rows(s) && Dels(s) && Clients(s) && Enabled(s, Connect(c, sv, freshChannel))
    requires ClientStep(s, DoConnect(s, c, sv, freshChannel), c)
    ensures var t := DoConnect(s, c, sv, freshChannel); Rows(t) && Dels(t)
  {
    var t := DoConnect(s, c, sv, freshChannel);
    CoverKept(s, t, c);
  }

  lemma ConnectInv(s: State, c: nat, sv: map<nat, nat>, freshChannel: bool)
    requires Inv(s) && Enabled(s, Connect(c, sv, freshChannel))
    ensures Inv(DoConnect(s, c, sv, freshChannel))
  {
    var t := DoConnect(s, c, sv, freshChannel);
    ConnectStep(s, c, sv, freshChannel);
    ConnectConn(s, c, sv, freshChannel);
    ConnectCover(s, c, sv, freshChannel);
    TablesKept(s, t, c);
    ClientsKept(s, t, c);
    CurrentKept(s, t, c);
    ConnsKept(s, t, c, |s.conns|);
  }

  // ---------- a message added to the queue of the current connection ----------

  /** The queue grows by one message that carries on where it ended. */
  lemma QueueGrows(s: State, t: State, a: Conn, b: Conn, m: InMsg)
    requires Grows(s, t) && ConnOk(s, a) && VectorHeld(s, a) && |t.chans| == |s.chans|
    requires !m.ClientStep1? && PayloadOk(t, a.client, m.p)
    requires b == a.(inbox := a.inbox + [m], answer := b.answer, delivered := b.delivered)
    requires b.delivered <= |b.out| && (b.answer.Some? <==> b.delivered >= 1)
    requires m.ClientUpdate? ==> b.answer == a.answer
    requires m.ClientStep2? ==> a.answer.None? && b.answer == Some(|a.inbox|) && m.p.lo <= Top(s.log, a.client)
    requires m.ClientUpdate? && a.answer.Some? ==>
               !a.inbox[|a.inbox| - 1].ClientStep1? && m.p.lo == a.inbox[|a.inbox| - 1].p.hi
    ensures ConnOk(t, b) && VectorHeld(t, b)
  {
    ConnGrows(s, t, a);
    VectorGrows(s, t, a);
    forall i | 0 <= i < |b.inbox| && !b.inbox[i].ClientStep1? ensures PayloadOk(t, b.client, b.inbox[i].p) {
      if i < |a.inbox| { assert PayloadOk(t, a.client, a.inbox[i].p); }
    }
    if a.hot { assert !a.inbox[a.consumed - 1].ClientStep1?; }
    forall i | 0 <= i < |b.out| ensures OutOk(t, b, b.out[i]) && SentOk(t, b.out[i]) {
      assert OutOk(t, a, a.out[i]);
    }
    QueueTrace(a, b, m);
  }

  lemma QueueTrace(a: Conn, b: Conn, m: InMsg)
    requires InTrace(a.inbox, a.answer) && (a.answer.Some? ==> Chained(a.inbox, a.answer.value))
    requires !m.ClientStep1? && b.inbox == a.inbox + [m]
    requires m.ClientUpdate? ==> b.answer == a.answer
    requires m.ClientStep2? ==> a.answer.None? && b.answer == Some(|a.inbox|)
    requires m.ClientUpdate? && a.answer.Some? ==>
               !a.inbox[|a.inbox| - 1].ClientStep1? && m.p.lo == a.inbox[|a.inbox| - 1].p.hi
    ensures InTrace(b.inbox, b.answer) && (b.answer.Some? ==> Chained(b.inbox, b.answer.value))
  {
    if b.answer.Some? {
      forall i | b.answer.value <= i && i + 1 < |b.inbox| && !b.inbox[i].ClientStep1? && !b.inbox[i + 1].ClientStep1?
        ensures b.inbox[i + 1].p.lo == b.inbox[i].p.hi
      {
        if i + 1 < |a.inbox| { assert a.inbox[i + 1].p.lo == a.inbox[i].p.hi; }
      }
    }
  }

  /** Its deletions stay queued, and the new message's join them. */
  lemma QueueDeletes(a: Conn, b: Conn, m: InMsg, i: Id)
    requires b == a.(inbox := a.inbox + [m], answer := b.answer, delivered := b.delivered) && a.consumed <= |a.inbox|
    requires !m.ClientStep1? && b.answer.Some? && b.answer.value <= |a.inbox|
    ensures a.answer == b.answer && InboxDeletes(a, i) ==> InboxDeletes(b, i)
    ensures i in m.p.dels ==> InboxDeletes(b, i)
  {
    assert FirstUnwritten(b) == FirstUnwritten(a);
    if a.answer == b.answer && InboxDeletes(a, i) {
      var j :| FirstUnwritten(a) <= j < |a.inbox| && a.answer.value <= j
                && !a.inbox[j].ClientStep1? && i in a.inbox[j].p.dels;
      assert b.inbox[j] == a.inbox[j];
    }
    if i in m.p.dels { assert b.inbox[|a.inbox|] == m; }
  }

  // ---------- editing ----------

  lemma EditStep(s: State, c: nat, count: nat, deleted: set<Id>)
    requires Clients(s) && Enabled(s, Edit(c, count, deleted))
    ensures var t := DoEdit(s, c, count, deleted); ClientStep(s, t, c) && ClientOk(t, c)
  {
    var t := DoEdit(s, c, count, deleted);
    assert ClientOk(s, c);
    AllGrow(s, t, s.clients[c].known, s.clients[c].dels);
    forall i | i in t.clients[c].dels ensures Deleted(t, i) {
      if i in deleted { assert i in t.clients[c].own; } else { assert i in s.clients[c].dels; }
    }
  }

  lemma EditCurrent(s: State, c: nat, count: nat, deleted: set<Id>)
    requires c in s.clients && CurrentOk(s, c) && Enabled(s, Edit(c, count, deleted))
    requires ConnOk(s, s.conns[s.clients[c].conn.value])
    ensures CurrentOk(DoEdit(s, c, count, deleted), c)
  {
    var t := DoEdit(s, c, count, deleted);
    var k := s.clients[c].conn.value;
    var a, b := s.conns[k], t.conns[k];
    var m := b.inbox[|a.inbox|];
    if b.answer.Some? && b.reader != ReaderDone {
      forall i | i in t.clients[c].own ensures i in t.dels || InboxDeletes(b, i) {
        QueueDeletes(a, b, m, i);
        assert i in s.clients[c].own || i in deleted;
      }
    }
  }

  lemma EditQueue(s: State, c: nat, count: nat, deleted: set<Id>)
    requires c in s.clients && CurrentOk(s, c) && Enabled(s, Edit(c, count, deleted))
    requires var a := s.conns[s.clients[c].conn.value]; a.client == c && ConnOk(s, a) && VectorHeld(s, a)
    requires ClientStep(s, DoEdit(s, c, count, deleted), c)
    ensures var t := DoEdit(s, c, count, deleted); var k := s.clients[c].conn.value;
            ConnOk(t, t.conns[k]) && VectorHeld(t, t.conns[k])
  {
    var t := DoEdit(s, c, count, deleted);
    var k := s.clients[c].conn.value;
    QueueGrows(s, t, s.conns[k], t.conns[k], t.conns[k].inbox[|s.conns[k].inbox|]);
  }

  lemma EditInv(s: State, c: nat, count: nat, deleted: set<Id>)
    requires Inv(s) && Enabled(s, Edit(c, count, deleted))
    ensures Inv(DoEdit(s, c, count, deleted))
  {
    var t := DoEdit(s, c, count, deleted);
    var k := s.clients[c].conn.value;
    assert ClientOk(s, c) && CurrentOk(s, c) && ConnOk(s, s.conns[k]) && VectorHeld(s, s.conns[k]);
    assert IsCurrent(s, k) && RowsCovered(s, s.conns[k]) && DelsCovered(s, s.conns[k]);
    EditStep(s, c, count, deleted);
    EditCurrent(s, c, count, deleted);
    EditQueue(s, c, count, deleted);
    OwnKept(s, t, c, s.conns[k], t.conns[k]);
    ClientInv(s, t, c, k);
  }

  // ---------- receiving ----------

  /** What a message adds to a document was created, and deleted, by somebody. */
  lemma DeliverBounds(s: State, cn: Conn, m: OutMsg)
    requires Clients(s) && OutOk(s, cn, m) && SentOk(s, m)
    ensures AllCreated(s, OutIds(m)) && AllDeleted(s, OutDels(m))
  {
    if m.ServerUpdate? { assert ClientOk(s, m.from); }
  }

  lemma DeliverGrows(s: State, c: nat, reported: set<Id>)
    requires Enabled(s, Deliver(c, reported)) && ClientOk(s, c)
    ensures ClientStep(s, DoDeliver(s, c, reported), c)
  {
  }

  lemma DeliverStep(s: State, c: nat, reported: set<Id>)
    requires Clients(s) && Conns(s) && Enabled(s, Deliver(c, reported))
    ensures var t := DoDeliver(s, c, reported); ClientStep(s, t, c) && ClientOk(t, c)
  {
    var t := DoDeliver(s, c, reported);
    var cn := s.conns[s.clients[c].conn.value];
    var m := cn.out[cn.delivered];
    assert ClientOk(s, c);
    DeliverGrows(s, c, reported);
    assert AllCreated(s, OutIds(m)) && AllDeleted(s, OutDels(m)) by {
      assert ConnOk(s, cn) && OutOk(s, cn, m) && SentOk(s, m);
      DeliverBounds(s, cn, m);
    }
    DeliverClient(s, t, c, m);
  }

  lemma DeliverClient(s: State, t: State, c: nat, m: OutMsg)
    requires ClientStep(s, t, c) && ClientOk(s, c)
    requires AllCreated(s, OutIds(m)) && AllDeleted(s, OutDels(m))
    requires t.clients[c].own == s.clients[c].own && t.clients[c].conn == s.clients[c].conn
    requires t.clients[c].known <= s.clients[c].known + OutIds(m)
    requires t.clients[c].dels <= s.clients[c].dels + OutDels(m)
    ensures ClientOk(t, c)
  {
    AllGrow(s, t, s.clients[c].known, s.clients[c].dels);
    AllGrow(s, t, OutIds(m), OutDels(m));
  }

  /** What the handshake says of the message at the read position. */
  lemma DeliverFacts(s: State, c: nat, reported: set<Id>)
    requires Clients(s) && Conns(s) && Current(s) && Enabled(s, Deliver(c, reported))
    ensures var t := DoDeliver(s, c, reported); var k := s.clients[c].conn.value;
            var a, b := s.conns[k], t.conns[k]; var m := a.out[a.delivered];
            && ConnOk(s, a) && a.client == c
            && (m.ServerStep1? <==> a.delivered == 0)
            && b == a.(delivered := a.delivered + 1, inbox := b.inbox, answer := b.answer)
            && (!m.ServerStep1? ==> b.inbox == a.inbox && b.answer == a.answer)
            && OutIds(m) <= t.clients[c].known && OutDels(m) <= t.clients[c].dels
  {
    var a := s.conns[s.clients[c].conn.value];
    assert ClientOk(s, c) && CurrentOk(s, c) && ConnOk(s, a);
    assert a.out[a.delivered].ServerUpdate? ==> a.delivered >= 2;
  }

  lemma ReadConn(s: State, t: State, a: Conn, b: Conn)
    requires Grows(s, t) && ConnOk(s, a) && VectorHeld(s, a) && |t.chans| == |s.chans|
    requires 1 <= a.delivered < |a.out| && b == a.(delivered := a.delivered + 1)
    ensures ConnOk(t, b) && VectorHeld(t, b)
  {
    ConnGrows(s, t, a);
    VectorGrows(s, t, a);
    if a.hot { assert !a.inbox[a.consumed - 1].ClientStep1?; }
    forall i | 0 <= i < |b.out| ensures OutOk(t, b, b.out[i]) && SentOk(t, b.out[i]) {
      assert OutOk(t, a, a.out[i]);
    }
  }

  lemma DeliverConn(s: State, c: nat, reported: set<Id>)
    requires Clients(s) && Conns(s) && Vectors(s) && Current(s) && Enabled(s, Deliver(c, reported))
    ensures var t := DoDeliver(s, c, reported); var k := s.clients[c].conn.value;
            ConnOk(t, t.conns[k]) && VectorHeld(t, t.conns[k])
  {
    var t := DoDeliver(s, c, reported);
    var k := s.clients[c].conn.value;
    var a, b := s.conns[k], t.conns[k];
    DeliverStep(s, c, reported);
    DeliverFacts(s, c, reported);
    assert VectorHeld(s, a);
    if a.out[a.delivered].ServerStep1? {
      QueueGrows(s, t, a, b, b.inbox[|a.inbox|]);
    } else {
      ReadConn(s, t, a, b);
    }
  }

  lemma DeliverCurrent(s: State, c: nat, reported: set<Id>)
    requires c in s.clients && CurrentOk(s, c) && Enabled(s, Deliver(c, reported))
    requires ConnOk(s, s.conns[s.clients[c].conn.value])
    ensures CurrentOk(DoDeliver(s, c, reported), c)
  {
    var t := DoDeliver(s, c, reported);
    var k := s.clients[c].conn.value;
    var a, b := s.conns[k], t.conns[k];
    assert OutTrace(a.out);
    if b.answer.Some? && b.reader != ReaderDone {
      forall i | i in t.clients[c].own ensures i in t.dels || InboxDeletes(b, i) {
        if a.out[a.delivered].ServerStep1? {
          QueueDeletes(a, b, b.inbox[|a.inbox|], i);
        } else {
          assert i in s.dels || InboxDeletes(a, i);
          assert FirstUnwritten(b) == FirstUnwritten(a);
        }
      }
    }
  }

  /** What leaves the socket is in the document. */
  lemma ReadCovers(s: State, t: State, a: Conn, b: Conn)
    requires ClientStep(s, t, a.client) && ConnOk(s, a) && RowsCovered(s, a) && DelsCovered(s, a)
    requires a.delivered < |a.out| && b == a.(delivered := a.delivered + 1, inbox := b.inbox, answer := b.answer)
    requires OutIds(a.out[a.delivered]) <= t.clients[a.client].known
    requires OutDels(a.out[a.delivered]) <= t.clients[a.client].dels
    ensures RowsCovered(t, b) && DelsCovered(t, b)
  {
    RowsKept(s, t, a.client, a);
    DelsKept(s, t, a.client, a);
    if b.writer.GotOps? || b.writer.Hot? {
      forall key | key in t.log && key.client != b.client ensures RowCovered(t, b, key.client, t.log[key]) {
        var ids := Ids(key.client, t.log[key]);
        assert RowCovered(t, a, key.client, t.log[key]);
        assert InChan(t, a, Bcast(key.client, t.log[key])) ==> InChan(t, b, Bcast(key.client, t.log[key]));
        if InOut(a, ids) {
          var j :| a.delivered <= j < |a.out| && ids <= OutIds(a.out[j]);
          assert j == a.delivered || ids <= OutIds(b.out[j]);
        }
      }
    }
    if b.writer.Hot? {
      forall i | i in t.dels ensures DelCovered(t, b, i) {
        assert DelCovered(t, a, i);
        assert DelInChan(t, a, i) ==> DelInChan(t, b, i);
        if DelInOut(a, i) {
          var j :| a.delivered <= j < |a.out| && i in OutDels(a.out[j]);
          assert j == a.delivered || i in OutDels(b.out[j]);
        }
      }
    }
  }

  lemma DeliverFrame(s: State, c: nat, reported: set<Id>)
    requires Enabled(s, Deliver(c, reported))
    ensures var t := DoDeliver(s, c, reported); var k := s.clients[c].conn.value;
            && t.chans == s.chans && |t.conns| == |s.conns| && t.clients[c].conn == s.clients[c].conn
            && t.conns[k].client == s.conns[k].client
            && (forall j :: 0 <= j < |s.conns| && j != k ==> t.conns[j] == s.conns[j])
  {
  }

  lemma DeliverInv(s: State, c: nat, reported: set<Id>)
    requires Inv(s) && Enabled(s, Deliver(c, reported))
    ensures Inv(DoDeliver(s, c, reported))
  {
    var t := DoDeliver(s, c, reported);
    var k := s.clients[c].conn.value;
    DeliverFrame(s, c, reported);
    DeliverStep(s, c, reported);
    DeliverFacts(s, c, reported);
    DeliverCurrent(s, c, reported);
    DeliverConn(s, c, reported);
    assert IsCurrent(s, k) && RowsCovered(s, s.conns[k]) && DelsCovered(s, s.conns[k]);
    ReadCovers(s, t, s.conns[k], t.conns[k]);
    ClientInv(s, t, c, k);
  }
}
