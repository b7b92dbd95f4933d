/** What holds in every reachable state of the sync protocol. */
module SyncTheorems {
  import opened Wrappers
  import opened OpLog
  import opened SyncProtocol
  import opened SyncInvariant
  import SyncReaderSteps
  import SyncWriterSteps
  import SyncClientSteps

  lemma InitInv(s: State)
    requires Init(s)
    ensures Inv(s)
  {
  }

  lemma StepInv(s: State, st: Step)
    requires Inv(s) && Enabled(s, st)
    ensures Inv(Do(s, st))
  {
    match st {
      case Connect(c, sv, freshChannel) => SyncClientSteps.ConnectInv(s, c, sv, freshChannel);
      case Edit(c, count, deleted) => SyncClientSteps.EditInv(s, c, count, deleted);
      case Deliver(c, reported) => SyncClientSteps.DeliverInv(s, c, reported);
      case Take(k) => SyncReaderSteps.TakeInv(s, k);
      case ReadMax(k) => SyncReaderSteps.ReadMaxInv(s, k);
      case WriteOp(k) => SyncReaderSteps.WriteOpInv(s, k);
      case WriteDels(k) => SyncReaderSteps.WriteDelsInv(s, k);
      case Broadcast(k) => SyncReaderSteps.BroadcastInv(s, k);
      case ReaderError(k, applied) => SyncReaderSteps.ReaderErrorInv(s, k, applied);
      case StopReader(k) => SyncReaderSteps.StopReaderInv(s, k);
      case SendStep1(k) => SyncWriterSteps.SendStep1Inv(s, k);
      case TakeVector(k) => SyncWriterSteps.TakeVectorInv(s, k);
      case ReadOps(k) => SyncWriterSteps.ReadOpsInv(s, k);
      case ReadDels(k) => SyncWriterSteps.ReadDelsInv(s, k);
      case Receive(k) => SyncWriterSteps.ReceiveInv(s, k);
      case Lag(k, count) => SyncWriterSteps.LagInv(s, k, count);
      case StopWriter(k) => SyncWriterSteps.StopWriterInv(s, k);
    }
  }

  /** Every state of every run is in order. */
  lemma {:induction false} RunInv(run: seq<State>, steps: seq<Step>, i: nat)
    requires IsRun(run, steps) && i < |run|
    ensures Inv(run[i])
  {
    if i == 0 {
      InitInv(run[0]);
    } else {
      RunInv(run, steps, i - 1);
      assert Enabled(run[i - 1], steps[i - 1]);
      StepInv(run[i - 1], steps[i - 1]);
    }
  }

  // ---------- the log ----------

  /** No holes: in every reachable state, with any number of live and stale readers in the
      middle of their three steps, the stored clocks of a client are exactly those up to
      its stored maximum, and no more than the client has created. */
  lemma LogIsAPrefix(run: seq<State>, steps: seq<Step>, i: nat, c: nat, x: nat)
    requires IsRun(run, steps) && i < |run|
    ensures x < Top(run[i].log, c) <==> Stored(run[i].log, c, x)
    ensures c in run[i].clients ==> Top(run[i].log, c) <= run[i].clients[c].n
  {
    RunInv(run, steps, i);
    var s := run[i];
    if Stored(s.log, c, x) {
      var k :| k in s.log && k.client == c && s.log[k].lo <= x < s.log[k].hi;
      TopAbove(s.log, k);
    }
    if c in s.clients { TopBound(s, c); }
  }

  lemma StoredBelowTop(log: Log, c: nat, lo: nat, hi: nat)
    requires WellKeyed(log) && NoHoles(log) && hi <= Top(log, c)
    ensures forall x :: lo <= x < hi ==> Stored(log, c, x)
  {
  }

  /** Dropping is lossless: when a reader skips the insert because the maximum it read is
      not below the message, or when the insert meets a stored key, every clock of the
      message is already in the log. */
  lemma DroppingIsLossless(run: seq<State>, steps: seq<Step>, i: nat, k: nat)
    requires IsRun(run, steps) && i < |steps| && steps[i] == WriteOp(k)
    requires var cn := run[i].conns[k];
             !IsNewer(cn.reader) || RowKey(cn.client, cn.reader.p) in run[i].log
    ensures var cn := run[i].conns[k];
            forall x :: cn.reader.p.lo <= x < cn.reader.p.hi ==> Stored(run[i].log, cn.client, x)
  {
    RunInv(run, steps, i);
    assert Enabled(run[i], steps[i]);
    var s := run[i];
    var cn := s.conns[k];
    assert ConnOk(s, cn);
    SyncReaderSteps.BusyReader(s, cn);
    if RowKey(cn.client, cn.reader.p) in s.log {
      TopAbove(s.log, RowKey(cn.client, cn.reader.p));
    }
    StoredBelowTop(s.log, cn.client, cn.reader.p.lo, cn.reader.p.hi);
  }

  // ---------- reconnecting ----------

  /** Where the reader stands in the queue: the first message not known to be stored. */
  function FirstUnstored(cn: Conn): nat {
    if cn.hot && (cn.reader.Parsed? || cn.reader.ReadLast?) && cn.consumed > 0 then cn.consumed - 1 else cn.consumed
  }

  predicate Queued(cn: Conn, x: nat) {
    exists j :: FirstUnstored(cn) <= j < |cn.inbox| && cn.answer.Some? && cn.answer.value <= j
                && !cn.inbox[j].ClientStep1? && cn.inbox[j].p.lo <= x < cn.inbox[j].p.hi
  }

  lemma {:induction false} ChainReaches(cn: Conn, from: nat, x: nat)
    requires cn.answer.Some? && cn.answer.value <= from < |cn.inbox| && FirstUnstored(cn) <= from
    requires InTrace(cn.inbox, cn.answer) && Chained(cn.inbox, cn.answer.value)
    requires !cn.inbox[from].ClientStep1? && cn.inbox[from].p.lo <= x
    requires !cn.inbox[|cn.inbox| - 1].ClientStep1? && x < cn.inbox[|cn.inbox| - 1].p.hi
    ensures Queued(cn, x)
    decreases |cn.inbox| - from
  {
    if x >= cn.inbox[from].p.hi {
      assert from + 1 < |cn.inbox| && !cn.inbox[from + 1].ClientStep1?;
      ChainReaches(cn, from + 1, x);
    }
  }

  /** Reconnecting resends what is missing: once a client has answered on its current
      connection, and for as long as that connection's reader lives, each clock the client
      ever created is stored or queued there, and so is each deletion it ever made. */
  lemma NothingIsForgotten(run: seq<State>, steps: seq<Step>, i: nat, c: nat)
    requires IsRun(run, steps) && i < |run| && HasCurrent(run[i], c)
    requires var cn := run[i].conns[run[i].clients[c].conn.value]; cn.answer.Some? && cn.reader != ReaderDone
    ensures var s := run[i]; var cn := s.conns[s.clients[c].conn.value];
            && (forall x :: 0 <= x < s.clients[c].n ==> Stored(s.log, c, x) || Queued(cn, x))
            && (forall d :: d in s.clients[c].own ==> d in s.dels || InboxDeletes(cn, d))
  {
    RunInv(run, steps, i);
    var s := run[i];
    var cn := s.conns[s.clients[c].conn.value];
    assert ClientOk(s, c) && CurrentOk(s, c) && ConnOk(s, cn);
    forall x | 0 <= x < s.clients[c].n ensures Stored(s.log, c, x) || Queued(cn, x) {
      if x < Top(s.log, c) {
        assert Stored(s.log, c, x);
      } else {
        UnstoredIsQueued(s, cn, x);
      }
    }
  }

  lemma UnstoredIsQueued(s: State, cn: Conn, x: nat)
    requires ConnOk(s, cn) && cn.answer.Some? && cn.reader != ReaderDone
    requires !cn.inbox[|cn.inbox| - 1].ClientStep1?
    requires Top(s.log, cn.client) <= x < cn.inbox[|cn.inbox| - 1].p.hi
    ensures Queued(cn, x)
  {
    if !cn.hot {
      ChainReaches(cn, cn.answer.value, x);
    } else {
      assert !cn.inbox[cn.consumed - 1].ClientStep1?;
      var f := FirstUnstored(cn);
      if f == cn.consumed {
        assert cn.consumed < |cn.inbox|;
        assert !cn.inbox[cn.consumed].ClientStep1?;
        assert cn.inbox[cn.consumed].p.lo == cn.inbox[cn.consumed - 1].p.hi;
      }
      ChainReaches(cn, f, x);
    }
  }

  /** A drained queue: the reader is between messages and has taken all of them. */
  predicate Drained(cn: Conn) {
    cn.hot && cn.reader.Idle? && cn.consumed == |cn.inbox|
  }

  lemma TopBound(s: State, c: nat)
    requires LogOk(s) && c in s.clients
    ensures Top(s.log, c) <= s.clients[c].n
  {
    if Top(s.log, c) > 0 {
      var k := OpKey(c, Last(s.log, c).value);
      assert k in s.log && PayloadOk(s, c, s.log[k]);
    }
  }

  lemma DrainedNow(s: State, c: nat)
    requires Inv(s) && HasCurrent(s, c) && Drained(s.conns[s.clients[c].conn.value])
    ensures Top(s.log, c) == s.clients[c].n
    ensures s.clients[c].own <= s.dels
  {
    TopBound(s, c);
    var cn := s.conns[s.clients[c].conn.value];
    assert ClientOk(s, c) && CurrentOk(s, c) && ConnOk(s, cn);
    forall d | d in s.clients[c].own ensures d in s.dels {
      assert d in s.dels || InboxDeletes(cn, d);
    }
  }

  /** Draining the queue of the current connection makes the expected offset the client's
      own clock counter, and stores all its deletions. */
  lemma DrainedIsUpToDate(run: seq<State>, steps: seq<Step>, i: nat, c: nat)
    requires IsRun(run, steps) && i < |run| && HasCurrent(run[i], c)
    requires Drained(run[i].conns[run[i].clients[c].conn.value])
    ensures Top(run[i].log, c) == run[i].clients[c].n
    ensures run[i].clients[c].own <= run[i].dels
  {
    RunInv(run, steps, i);
    DrainedNow(run[i], c);
  }

  // ---------- the handshake ----------

  /** Every connection obeys the handshake. The server sends one sync step one, at most one
      sync step two, then only updates of other clients; the client's queue holds one vector
      first and at most one sync step two; a reader works only on that sync step two or on
      a message after it. */
  lemma HandshakeIsObeyed(run: seq<State>, steps: seq<Step>, i: nat, k: nat)
    requires IsRun(run, steps) && i < |run| && k < |run[i].conns|
    ensures var cn := run[i].conns[k];
            && OutTrace(cn.out) && InTrace(cn.inbox, cn.answer)
            && (forall j :: 0 <= j < |cn.out| && cn.out[j].ServerUpdate? ==> cn.out[j].from != cn.client)
            && (!cn.reader.Idle? && !cn.reader.ReaderDone? ==>
                  && cn.answer.Some? && cn.answer.value < cn.consumed <= |cn.inbox|
                  && !cn.inbox[cn.consumed - 1].ClientStep1? && cn.reader.p == cn.inbox[cn.consumed - 1].p
                  && (cn.inbox[cn.consumed - 1].ClientStep2? <==> cn.consumed - 1 == cn.answer.value))
  {
    RunInv(run, steps, i);
    var cn := run[i].conns[k];
    assert ConnOk(run[i], cn);
    forall j | 0 <= j < |cn.out| && cn.out[j].ServerUpdate? ensures cn.out[j].from != cn.client {
      assert OutOk(run[i], cn, cn.out[j]);
    }
    if !cn.reader.Idle? && !cn.reader.ReaderDone? {
      SyncReaderSteps.BusyReader(run[i], cn);
    }
  }

  /** The gate that makes a client ignore updates before the server's sync step two never
      drops one. */
  lemma NoUpdateIsIgnored(run: seq<State>, steps: seq<Step>, i: nat, c: nat, reported: set<Id>)
    requires IsRun(run, steps) && i < |steps| && steps[i] == Deliver(c, reported)
    requires var cn := run[i].conns[run[i].clients[c].conn.value]; cn.out[cn.delivered].ServerUpdate?
    ensures run[i].clients[c].receivedStep2
  {
    RunInv(run, steps, i);
    assert Enabled(run[i], steps[i]);
    UpdatesComeThird(run[i], c);
  }

  lemma UpdatesComeThird(s: State, c: nat)
    requires Clients(s) && Conns(s) && Current(s) && HasCurrent(s, c)
    requires var cn := s.conns[s.clients[c].conn.value];
             cn.delivered < |cn.out| && cn.out[cn.delivered].ServerUpdate?
    ensures s.clients[c].receivedStep2
  {
    assert CurrentOk(s, c);
    assert OutTrace(s.conns[s.clients[c].conn.value].out) by {
      assert ConnOk(s, s.conns[s.clients[c].conn.value]);
    }
  }

  // ---------- receivers ----------

  /** Whatever was lost before, a handshake catches up: when the writer of a client's current
      connection reads the log, every clock stored for another client is in the document
      already or in the sync step two being built. */
  lemma HandshakeCatchesUp(run: seq<State>, steps: seq<Step>, i: nat, k: nat, d: nat, x: nat)
    requires IsRun(run, steps) && i < |steps| && steps[i] == ReadOps(k)
    requires k < |run[i].conns| && d != run[i].conns[k].client && Stored(run[i].log, d, x)
    ensures var c := run[i].conns[k].client;
            c in run[i].clients &&
            (Id(d, x) in run[i].clients[c].known || Id(d, x) in run[i + 1].conns[k].writer.ids)
  {
    RunInv(run, steps, i);
    assert Enabled(run[i], steps[i]);
    LogIsAPrefix(run, steps, i, d, x);
    var s := run[i];
    assert ConnOk(s, s.conns[k]) && VectorHeld(s, s.conns[k]);
    var sv := s.conns[k].writer.sv;
    if !(d in sv && x < sv[d]) {
      StepTwoComplete(s.log, sv, d, x);
    }
  }

  /** Subscribing before reading leaves no gap: past its handshake, a client has each row of
      another client in its document, on its way to it, or still owed by the reader that
      inserted it; the only other possibility is that exactly this update was lost after this
      connection's writer read the log. The same for each deletion. */
  lemma NoGap(run: seq<State>, steps: seq<Step>, i: nat, k: nat)
    requires IsRun(run, steps) && i < |run| && IsCurrent(run[i], k) && run[i].conns[k].writer.Hot?
    ensures var s := run[i]; var cn := s.conns[k];
            && (forall key :: key in s.log && key.client != cn.client ==>
                  || InDoc(s, cn.client, Ids(key.client, s.log[key]))
                  || InOut(cn, Ids(key.client, s.log[key]))
                  || InChan(s, cn, Bcast(key.client, s.log[key]))
                  || Owed(s, key.client, s.log[key])
                  || WasLost(s, cn, Bcast(key.client, s.log[key])))
            && (forall d :: d in s.dels ==>
                  || d in s.clients[cn.client].dels || DelInOut(cn, d) || DelInChan(s, cn, d) || DelOwed(s, d)
                  || DelLost(s, cn, d))
  {
    RunInv(run, steps, i);
    var s := run[i];
    var cn := s.conns[k];
    assert RowsCovered(s, cn) && DelsCovered(s, cn);
    forall key | key in s.log && key.client != cn.client
      ensures InDoc(s, cn.client, Ids(key.client, s.log[key])) || InOut(cn, Ids(key.client, s.log[key]))
              || InChan(s, cn, Bcast(key.client, s.log[key])) || Owed(s, key.client, s.log[key])
              || WasLost(s, cn, Bcast(key.client, s.log[key]))
    {
      assert RowCovered(s, cn, key.client, s.log[key]);
    }
    forall d | d in s.dels
      ensures d in s.clients[cn.client].dels || DelInOut(cn, d) || DelInChan(s, cn, d) || DelOwed(s, d)
              || DelLost(s, cn, d)
    {
      assert DelCovered(s, cn, d);
    }
  }

  // ---------- convergence ----------

  /** A client's document: what it created and what it received. */
  function Doc(s: State, c: nat): set<Id>
    requires c in s.clients
  {
    s.clients[c].known + set x | 0 <= x < s.clients[c].n :: Id(c, x)
  }

  /** Nothing is on its way: every client is connected and past its handshake, every queue
      is drained, no reader is in the middle of a message, and nothing was lost since the
      current connections read the log. */
  ghost predicate Quiet(s: State) {
    && (forall k :: 0 <= k < |s.conns| ==> s.conns[k].reader.Idle? || s.conns[k].reader.ReaderDone?)
    && (forall c :: c in s.clients ==> HasCurrent(s, c) && QuietConn(s, s.conns[s.clients[c].conn.value]))
  }

  predicate QuietConn(s: State, cn: Conn) {
    && Drained(cn) && cn.writer.Hot? && cn.delivered == |cn.out| && cn.missed == {} && cn.since == |s.lost|
    && cn.chan < |s.chans| && cn.pos == |s.chans[cn.chan]|
  }

  lemma QuietRow(s: State, c: nat, d: nat, p: Payload)
    requires Quiet(s) && c in s.clients && s.conns[s.clients[c].conn.value].client == c
    requires RowCovered(s, s.conns[s.clients[c].conn.value], d, p)
    ensures Ids(d, p) <= s.clients[c].known
  {
    assert QuietConn(s, s.conns[s.clients[c].conn.value]);
  }

  lemma QuietStored(s: State, e: Id)
    requires Inv(s) && Quiet(s) && Created(s, e)
    ensures Stored(s.log, e.client, e.clock)
  {
    DrainedNow(s, e.client);
  }

  lemma QuietCovered(s: State, c: nat, key: OpKey)
    requires Clients(s) && Rows(s) && Quiet(s) && c in s.clients && key in s.log && key.client != c
    ensures s.conns[s.clients[c].conn.value].client == c
    ensures RowCovered(s, s.conns[s.clients[c].conn.value], key.client, s.log[key])
  {
    var k := s.clients[c].conn.value;
    assert ClientOk(s, c);
    assert IsCurrent(s, k) && QuietConn(s, s.conns[k]);
    assert RowsCovered(s, s.conns[k]);
  }

  lemma QuietKnown(s: State, c: nat, key: OpKey)
    requires Clients(s) && Rows(s) && Quiet(s) && c in s.clients && key in s.log && key.client != c
    ensures Ids(key.client, s.log[key]) <= s.clients[c].known
  {
    QuietCovered(s, c, key);
    QuietRow(s, c, key.client, s.log[key]);
  }

  lemma QuietHas(s: State, c: nat, e: Id)
    requires Clients(s) && Rows(s) && Quiet(s) && c in s.clients && e.client != c && Stored(s.log, e.client, e.clock)
    ensures e in s.clients[c].known
  {
    var key :| key in s.log && key.client == e.client && s.log[key].lo <= e.clock < s.log[key].hi;
    assert e in Ids(key.client, s.log[key]);
    QuietKnown(s, c, key);
  }

  lemma QuietHolds(s: State, c: nat, e: Id)
    requires Inv(s) && Quiet(s) && c in s.clients
    ensures Created(s, e) <==> e in Doc(s, c)
  {
    assert ClientOk(s, c);
    if Created(s, e) && e.client != c {
      QuietStored(s, e);
      QuietHas(s, c, e);
    }
  }

  lemma QuietDeletions(s: State, c: nat)
    requires Inv(s) && Quiet(s) && c in s.clients
    ensures s.clients[c].dels == s.dels
  {
    assert ClientOk(s, c);
    forall d | d in s.clients[c].dels ensures d in s.dels {
      assert Deleted(s, d);
      var e :| e in s.clients && d in s.clients[e].own;
      DrainedNow(s, e);
    }
    forall d | d in s.dels ensures d in s.clients[c].dels { QuietDeletion(s, c, d); }
  }

  lemma QuietDeletion(s: State, c: nat, d: Id)
    requires Clients(s) && Dels(s) && Quiet(s) && c in s.clients && d in s.dels
    ensures d in s.clients[c].dels
  {
    var k := s.clients[c].conn.value;
    assert ClientOk(s, c);
    assert IsCurrent(s, k) && QuietConn(s, s.conns[k]);
    assert DelsCovered(s, s.conns[k]);
    assert DelCovered(s, s.conns[k], d);
  }

  lemma QuietAgree(s: State, c: nat, d: nat)
    requires Inv(s) && Quiet(s) && c in s.clients && d in s.clients
    ensures Doc(s, c) == Doc(s, d)
    ensures forall e :: e in Doc(s, c) <==> Created(s, e)
    ensures s.clients[c].dels == s.clients[d].dels == s.dels
  {
    forall e ensures (e in Doc(s, c) <==> Created(s, e)) && (e in Doc(s, d) <==> Created(s, e)) {
      QuietHolds(s, c, e);
      QuietHolds(s, d, e);
    }
    QuietDeletions(s, c);
    QuietDeletions(s, d);
  }

  /** Convergence: in every reachable quiet state, whatever was lost on the way there, all
      clients hold the same document, with every element any of them created, and the same
      deletions, which are the stored ones. */
  lemma QuietClientsAgree(run: seq<State>, steps: seq<Step>, i: nat, c: nat, d: nat)
    requires IsRun(run, steps) && i < |run| && Quiet(run[i]) && c in run[i].clients && d in run[i].clients
    ensures Doc(run[i], c) == Doc(run[i], d)
    ensures forall e :: e in Doc(run[i], c) <==> Created(run[i], e)
    ensures run[i].clients[c].dels == run[i].clients[d].dels == run[i].dels
  {
    RunInv(run, steps, i);
    QuietAgree(run[i], c, d);
  }
}
