/** What the messages and the writes of a run hold, element by element: nothing that is not
    called for, and nothing less. */
module SyncExactness {
  import opened Wrappers
  import opened OpLog
  import opened SyncProtocol
  import opened SyncInvariant
  import SyncTheorems

  // ---------- the rows for a state vector ----------

  predicate Has(p: Payload, x: nat) { p.lo <= x < p.hi }

  /** The row holds a clock at or above the vector. */
  ghost predicate RowAfter(log: Log, sv: map<nat, nat>, key: OpKey) {
    key in log && exists x :: Has(log[key], x) && (key.client in sv ==> sv[key.client] <= x)
  }

  ghost predicate IdAfter(log: Log, sv: map<nat, nat>, e: Id) {
    exists key :: RowAfter(log, sv, key) && key.client == e.client && Has(log[key], e.clock)
  }

  ghost predicate DelAfter(log: Log, sv: map<nat, nat>, d: Id) {
    exists key :: RowAfter(log, sv, key) && d in log[key].dels
  }

  lemma ChosenMeans(log: Log, sv: map<nat, nat>, key: OpKey)
    requires WellKeyed(log)
    ensures RowAfter(log, sv, key) <==> key in log && Chosen(sv, key)
  {
    if key in log {
      StepTwoPrecise(log, sv, key);
      assert Has(log[key], key.offset);
    }
  }

  lemma IdsAfterMeans(log: Log, sv: map<nat, nat>, e: Id)
    requires WellKeyed(log)
    ensures e in IdsAfter(log, sv) <==> IdAfter(log, sv, e)
  {
    if e in IdsAfter(log, sv) {
      var key :| key in log && Chosen(sv, key) && e in Ids(key.client, log[key]);
      ChosenMeans(log, sv, key);
    }
    if IdAfter(log, sv, e) {
      var key :| RowAfter(log, sv, key) && key.client == e.client && Has(log[key], e.clock);
      ChosenMeans(log, sv, key);
      assert e in Ids(key.client, log[key]);
    }
  }

  lemma DelsAfterMeans(log: Log, sv: map<nat, nat>, d: Id)
    requires WellKeyed(log)
    ensures d in DelsAfter(log, sv) <==> DelAfter(log, sv, d)
  {
    if d in DelsAfter(log, sv) {
      var key :| key in log && Chosen(sv, key) && d in log[key].dels;
      ChosenMeans(log, sv, key);
    }
    if DelAfter(log, sv, d) {
      var key :| RowAfter(log, sv, key) && d in log[key].dels;
      ChosenMeans(log, sv, key);
    }
  }

  // ---------- what a writer has sent, and when it read it ----------

  ghost predicate StoredBelow(log: Log, c: nat, next: nat) { forall x: nat :: x < next <==> Stored(log, c, x) }

  /** The server's step one asks for just what was not stored when it was made. */
  ghost predicate Asked(run: seq<State>, steps: seq<Step>, i: nat, k: nat, c: nat, m: OutMsg)
    requires i <= |steps| < |run|
  {
    exists a: nat :: a < i && steps[a] == SendStep1(k) && m.ServerStep1? && StoredBelow(run[a].log, c, m.next)
  }

  ghost predicate HoldsRows(log: Log, sv: map<nat, nat>, ids: set<Id>, dels: set<Id>) {
    && (forall e :: e in ids <==> IdAfter(log, sv, e))
    && forall d :: d in dels <==> DelAfter(log, sv, d)
  }

  ghost predicate Selected(run: seq<State>, steps: seq<Step>, i: nat, k: nat, sv: map<nat, nat>, w: Writer)
    requires i <= |steps| < |run| && w.GotOps?
  {
    exists a: nat :: a < i && steps[a] == ReadOps(k) && HoldsRows(run[a].log, sv, w.ids, w.dels)
  }

  ghost predicate HoldsAll(log: Log, dels: set<Id>, sv: map<nat, nat>, m: OutMsg) {
    && m.ServerStep2?
    && (forall e :: e in m.ids <==> IdAfter(log, sv, e))
    && forall d :: d in m.dels <==> DelAfter(log, sv, d) || d in dels
  }

  /** The server's step two holds just the rows the vector called for when the log was read,
      and all deletions stored when they were read after it. */
  ghost predicate Assembled(run: seq<State>, steps: seq<Step>, i: nat, k: nat, sv: map<nat, nat>, m: OutMsg)
    requires i <= |steps| < |run|
  {
    exists a: nat, b: nat :: a < b < i && steps[a] == ReadOps(k) && steps[b] == ReadDels(k) &&
      HoldsAll(run[a].log, run[b].dels, sv, m)
  }

  ghost predicate WriterHistory(run: seq<State>, steps: seq<Step>, i: nat, k: nat)
    requires i <= |steps| < |run| && k < |run[i].conns|
  {
    var cn := run[i].conns[k];
    && |cn.inbox| > 0 && cn.inbox[0].ClientStep1?
    && var sv := cn.inbox[0].sv;
    && (cn.slot.Some? ==> cn.slot.value == sv)
    && (cn.writer.Serving? ==> cn.writer.sv == sv)
    && (cn.writer.GotOps? ==> Selected(run, steps, i, k, sv, cn.writer))
    && (|cn.out| >= 1 ==> Asked(run, steps, i, k, cn.client, cn.out[0]))
    && (|cn.out| >= 2 ==> Assembled(run, steps, i, k, sv, cn.out[1]))
  }

  /** The steps that read or write what `WriterHistory` speaks of. */
  predicate Writes(st: Step, k: nat) {
    st == Take(k) || st == SendStep1(k) || st == TakeVector(k) || st == ReadOps(k) || st == ReadDels(k)
    || st == Receive(k) || st == StopWriter(k)
  }

  /** The steps that change what `ReaderHistory` speaks of. */
  predicate Reads(st: Step, k: nat) {
    || st == Take(k) || st == ReadMax(k) || st == WriteOp(k) || st == WriteDels(k) || st == Broadcast(k)
    || st == StopReader(k) || (st.ReaderError? && st.k == k)
  }

  ghost predicate ConnMoves(s: State, t: State, st: Step, k: nat)
    requires k < |s.conns|
  {
    && k < |t.conns|
    && var a, b := s.conns[k], t.conns[k];
    && b.client == a.client && b.chan == a.chan && a.inbox <= b.inbox && a.out <= b.out
    && (!Writes(st, k) ==> b.writer == a.writer && b.slot == a.slot && b.out == a.out)
    && (!Reads(st, k) ==> b.reader == a.reader)
    && (st != Take(k) ==> b.consumed == a.consumed)
  }

  predicate OfClient(st: Step) { st.Connect? || st.Edit? || st.Deliver? }

  predicate OfReader(st: Step) {
    st.Take? || st.ReadMax? || st.WriteOp? || st.WriteDels? || st.Broadcast? || st.ReaderError? || st.StopReader?
  }

  lemma ClientMoves(s: State, st: Step, k: nat)
    requires Enabled(s, st) && k < |s.conns| && OfClient(st)
    ensures ConnMoves(s, Do(s, st), st, k)
  {
  }

  lemma TakeMoves(s: State, st: Step, k: nat)
    requires Enabled(s, st) && k < |s.conns| && st.Take?
    ensures ConnMoves(s, Do(s, st), st, k)
  {
  }

  lemma BroadcastMoves(s: State, st: Step, k: nat)
    requires Enabled(s, st) && k < |s.conns| && st.Broadcast?
    ensures ConnMoves(s, Do(s, st), st, k)
  {
  }

  lemma ErrorMoves(s: State, st: Step, k: nat)
    requires Enabled(s, st) && k < |s.conns| && st.ReaderError?
    ensures ConnMoves(s, Do(s, st), st, k)
  {
  }

  lemma ReaderMoves(s: State, st: Step, k: nat)
    requires Enabled(s, st) && k < |s.conns| && OfReader(st) && !st.Take? && !st.ReaderError? && !st.Broadcast?
    ensures ConnMoves(s, Do(s, st), st, k)
  {
  }

  lemma WriterMoves(s: State, st: Step, k: nat)
    requires Enabled(s, st) && k < |s.conns| && !OfClient(st) && !OfReader(st)
    ensures ConnMoves(s, Do(s, st), st, k)
  {
  }

  lemma Moves(s: State, st: Step, k: nat)
    requires Enabled(s, st) && k < |s.conns|
    ensures ConnMoves(s, Do(s, st), st, k)
  {
    if OfClient(st) {
      ClientMoves(s, st, k);
    } else if st.Take? {
      TakeMoves(s, st, k);
    } else if st.Broadcast? {
      BroadcastMoves(s, st, k);
    } else if st.ReaderError? {
      ErrorMoves(s, st, k);
    } else if OfReader(st) {
      ReaderMoves(s, st, k);
    } else {
      WriterMoves(s, st, k);
    }
  }

  lemma NewConnFresh(s: State, st: Step, k: nat)
    requires Enabled(s, st) && |s.conns| <= k < |Do(s, st).conns|
    ensures var b := Do(s, st).conns[k];
            b.writer.Starting? && b.slot.None? && b.out == [] && b.reader.Idle? &&
            |b.inbox| == 1 && b.inbox[0].ClientStep1?
  {
  }

  lemma AskedNow(run: seq<State>, steps: seq<Step>, i: nat, k: nat)
    requires IsRun(run, steps) && i < |steps| && steps[i] == SendStep1(k) && k < |run[i].conns|
    requires |run[i].conns[k].out| == 0
    ensures k < |run[i + 1].conns|
    ensures var b := run[i + 1].conns[k]; |b.out| == 1 && Asked(run, steps, i + 1, k, b.client, b.out[0])
  {
    assert Enabled(run[i], steps[i]);
    var c := run[i].conns[k].client;
    forall x: nat ensures x < Top(run[i].log, c) <==> Stored(run[i].log, c, x) {
      SyncTheorems.LogIsAPrefix(run, steps, i, c, x);
    }
  }

  lemma SelectedNow(run: seq<State>, steps: seq<Step>, i: nat, k: nat)
    requires IsRun(run, steps) && i < |steps| && steps[i] == ReadOps(k)
    requires WellKeyed(run[i].log) && k < |run[i].conns| && run[i].conns[k].writer.Serving?
    ensures k < |run[i + 1].conns| && run[i + 1].conns[k].writer.GotOps?
    ensures Selected(run, steps, i + 1, k, run[i].conns[k].writer.sv, run[i + 1].conns[k].writer)
  {
    assert Enabled(run[i], steps[i]);
    var log, sv := run[i].log, run[i].conns[k].writer.sv;
    forall e ensures e in IdsAfter(log, sv) <==> IdAfter(log, sv, e) { IdsAfterMeans(log, sv, e); }
    forall d ensures d in DelsAfter(log, sv) <==> DelAfter(log, sv, d) { DelsAfterMeans(log, sv, d); }
    var w := run[i + 1].conns[k].writer;
    assert HoldsRows(log, sv, w.ids, w.dels);
  }

  lemma AllHeld(log: Log, dels: set<Id>, sv: map<nat, nat>, w: Writer, m: OutMsg)
    requires w.GotOps? && HoldsRows(log, sv, w.ids, w.dels) && m == ServerStep2(w.ids, w.dels + dels)
    ensures HoldsAll(log, dels, sv, m)
  {
  }

  lemma AssembledNow(run: seq<State>, steps: seq<Step>, i: nat, k: nat, sv: map<nat, nat>)
    requires IsRun(run, steps) && i < |steps| && steps[i] == ReadDels(k) && k < |run[i].conns|
    requires run[i].conns[k].writer.GotOps? && |run[i].conns[k].out| == 1
    requires Selected(run, steps, i, k, sv, run[i].conns[k].writer)
    ensures k < |run[i + 1].conns| && |run[i + 1].conns[k].out| == 2
    ensures Assembled(run, steps, i + 1, k, sv, run[i + 1].conns[k].out[1])
  {
    assert Enabled(run[i], steps[i]);
    var w := run[i].conns[k].writer;
    var a: nat :| a < i && steps[a] == ReadOps(k) && HoldsRows(run[a].log, sv, w.ids, w.dels);
    AllHeld(run[a].log, run[i].dels, sv, w, run[i + 1].conns[k].out[1]);
  }

  lemma WriterKept(run: seq<State>, steps: seq<Step>, i: nat, k: nat)
    requires IsRun(run, steps) && i < |steps| && k < |run[i].conns| && WriterHistory(run, steps, i, k)
    requires !Writes(steps[i], k) || steps[i] == Take(k) || steps[i] == TakeVector(k) || steps[i] == StopWriter(k)
    requires InTrace(run[i].conns[k].inbox, run[i].conns[k].answer)
    ensures k < |run[i + 1].conns| && WriterHistory(run, steps, i + 1, k)
  {
    assert Enabled(run[i], steps[i]);
    Moves(run[i], steps[i], k);
    var a, b := run[i].conns[k], run[i + 1].conns[k];
    assert b.out == a.out && b.inbox[0] == a.inbox[0];
  }

  lemma WriterSent(run: seq<State>, steps: seq<Step>, i: nat, k: nat)
    requires IsRun(run, steps) && i < |steps| && k < |run[i].conns| && WriterHistory(run, steps, i, k)
    requires steps[i] == SendStep1(k) || steps[i] == ReadOps(k) || steps[i] == ReadDels(k) || steps[i] == Receive(k)
    requires WellKeyed(run[i].log) && WriterTrace(run[i].conns[k])
    ensures k < |run[i + 1].conns| && WriterHistory(run, steps, i + 1, k)
  {
    assert Enabled(run[i], steps[i]);
    Moves(run[i], steps[i], k);
    var a, b := run[i].conns[k], run[i + 1].conns[k];
    assert b.inbox[0] == a.inbox[0];
    match steps[i] {
      case SendStep1(_) => AskedNow(run, steps, i, k);
      case ReadOps(_) => SelectedNow(run, steps, i, k);
      case ReadDels(_) => AssembledNow(run, steps, i, k, a.inbox[0].sv);
      case Receive(_) => assert b.out[0] == a.out[0] && b.out[1] == a.out[1];
    }
  }

  lemma {:induction false} WriterHistoryHolds(run: seq<State>, steps: seq<Step>, i: nat, k: nat)
    requires IsRun(run, steps) && i < |run| && k < |run[i].conns|
    ensures WriterHistory(run, steps, i, k)
  {
    if i > 0 {
      assert Enabled(run[i - 1], steps[i - 1]);
      if k < |run[i - 1].conns| {
        WriterHistoryHolds(run, steps, i - 1, k);
        TracesHold(run, steps, i - 1, k);
        if !Writes(steps[i - 1], k) || steps[i - 1].Take? || steps[i - 1].TakeVector? || steps[i - 1].StopWriter? {
          WriterKept(run, steps, i - 1, k);
        } else {
          WriterSent(run, steps, i - 1, k);
        }
      } else {
        NewConnFresh(run[i - 1], steps[i - 1], k);
      }
    }
  }

  /** The server's sync step one asks for just the clocks that were not stored when it was made,
      and its sync step two, for the vector that the client sent on this connection, holds just
      the rows with a clock at or above that vector when the log was read, and with their
      deletions all those that were stored when they were read after the log. */
  lemma ServerHandshakeIsExact(run: seq<State>, steps: seq<Step>, i: nat, k: nat)
    requires IsRun(run, steps) && i < |run| && k < |run[i].conns|
    ensures var cn := run[i].conns[k];
            && |cn.inbox| > 0 && cn.inbox[0].ClientStep1?
            && (|cn.out| >= 1 ==> Asked(run, steps, i, k, cn.client, cn.out[0]))
            && (|cn.out| >= 2 ==> Assembled(run, steps, i, k, cn.inbox[0].sv, cn.out[1]))
  {
    WriterHistoryHolds(run, steps, i, k);
  }

  // ---------- the client's messages ----------

  ghost predicate OtherConnsKept(s: State, t: State, k: nat) {
    |t.conns| == |s.conns| && forall j :: 0 <= j < |s.conns| && j != k ==> t.conns[j] == s.conns[j]
  }

  ghost predicate OtherClientsKept(s: State, t: State, c: nat) {
    t.clients.Keys == s.clients.Keys && forall d :: d in s.clients && d != c ==> t.clients[d] == s.clients[d]
  }

  ghost predicate SharedKept(s: State, t: State) {
    t.log == s.log && t.dels == s.dels && t.chans == s.chans && t.lost == s.lost
  }

  lemma AnswerIsExact(s: State, c: nat, reported: set<Id>)
    requires Enabled(s, Deliver(c, reported))
    requires var cn := s.conns[s.clients[c].conn.value]; cn.out[cn.delivered].ServerStep1?
    ensures var t := Do(s, Deliver(c, reported)); var cl := s.clients[c]; var k := cl.conn.value;
            && OtherClientsKept(s, t, c) && SharedKept(s, t) && OtherConnsKept(s, t, k)
            && c in t.clients && t.clients[c] == cl.(sentStep2 := true)
            && |t.conns[k].inbox| == |s.conns[k].inbox| + 1 && s.conns[k].inbox <= t.conns[k].inbox
            && var m := t.conns[k].inbox[|s.conns[k].inbox|];
            && m.ClientStep2? && m.p.dels == reported
            && forall x: nat :: Has(m.p, x) <==> s.conns[k].out[s.conns[k].delivered].next <= x < cl.n
  {
  }

  /** All clocks below `n` that are not stored, and no other. */
  ghost predicate IsMissing(log: Log, c: nat, n: nat, p: Payload) {
    forall x: nat :: Has(p, x) <==> x < n && !Stored(log, c, x)
  }

  lemma RestIsMissing(log: Log, c: nat, next: nat, n: nat, p: Payload)
    requires StoredBelow(log, c, next) && forall x: nat :: Has(p, x) <==> next <= x < n
    ensures IsMissing(log, c, n, p)
  {
  }

  lemma FirstComesFirst(run: seq<State>, steps: seq<Step>, i: nat, c: nat)
    requires IsRun(run, steps) && i < |run| && HasCurrent(run[i], c)
    requires var cn := run[i].conns[run[i].clients[c].conn.value];
             cn.delivered < |cn.out| && cn.out[cn.delivered].ServerStep1?
    ensures var cn := run[i].conns[run[i].clients[c].conn.value]; cn.delivered == 0 && cn.client == c
  {
    SyncTheorems.RunInv(run, steps, i);
    assert ConnOk(run[i], run[i].conns[run[i].clients[c].conn.value]) && ClientOk(run[i], c);
  }

  /** Reconnecting resends only what is missing: the client's sync step two holds a clock exactly
      if it is the client's own and was not stored when the server asked, and every deletion the
      client made. Nothing else changes but the handshake flag. */
  lemma OnlyTheMissingIsResent(run: seq<State>, steps: seq<Step>, i: nat, c: nat, reported: set<Id>)
    requires IsRun(run, steps) && i < |steps| && steps[i] == Deliver(c, reported) && HasCurrent(run[i], c)
    requires var cn := run[i].conns[run[i].clients[c].conn.value];
             cn.delivered < |cn.out| && cn.out[cn.delivered].ServerStep1?
    ensures OtherClientsKept(run[i], run[i + 1], c) && SharedKept(run[i], run[i + 1])
    ensures var cl := run[i].clients[c];
            c in run[i + 1].clients && run[i + 1].clients[c] == cl.(sentStep2 := true)
    ensures var cl := run[i].clients[c]; var k := cl.conn.value;
            && OtherConnsKept(run[i], run[i + 1], k)
            && var a, b := run[i].conns[k], run[i + 1].conns[k];
            && |b.inbox| == |a.inbox| + 1 && a.inbox <= b.inbox && b.inbox[|a.inbox|].ClientStep2?
            && var p := b.inbox[|a.inbox|].p;
            && cl.own <= p.dels <= cl.dels
            && exists j: nat :: j < i && steps[j] == SendStep1(k) && IsMissing(run[j].log, c, cl.n, p)
  {
    assert Enabled(run[i], steps[i]);
    var k := run[i].clients[c].conn.value;
    FirstComesFirst(run, steps, i, c);
    AnswerIsExact(run[i], c, reported);
    ServerHandshakeIsExact(run, steps, i, k);
    var next := run[i].conns[k].out[0].next;
    var j: nat :| j < i && steps[j] == SendStep1(k) && StoredBelow(run[j].log, c, next);
    RestIsMissing(run[j].log, c, next, run[i].clients[c].n, run[i + 1].conns[k].inbox[|run[i].conns[k].inbox|].p);
  }

  /** What the server sends is added to the document, and nothing else. */
  lemma DeliveryIsExact(run: seq<State>, steps: seq<Step>, i: nat, c: nat, reported: set<Id>)
    requires IsRun(run, steps) && i < |steps| && steps[i] == Deliver(c, reported) && HasCurrent(run[i], c)
    requires var cn := run[i].conns[run[i].clients[c].conn.value];
             cn.delivered < |cn.out| && !cn.out[cn.delivered].ServerStep1?
    ensures OtherClientsKept(run[i], run[i + 1], c) && SharedKept(run[i], run[i + 1]) && c in run[i + 1].clients
    ensures var k := run[i].clients[c].conn.value;
            && OtherConnsKept(run[i], run[i + 1], k)
            && run[i + 1].conns[k] == run[i].conns[k].(delivered := run[i].conns[k].delivered + 1)
    ensures var a, b := run[i].clients[c], run[i + 1].clients[c]; var cn := run[i].conns[a.conn.value];
            var m := cn.out[cn.delivered];
            && b == a.(known := b.known, dels := b.dels, receivedStep2 := true)
            && (m.ServerStep2? ==> && (forall e :: e in b.known <==> e in a.known || e in m.ids)
                                   && (forall d :: d in b.dels <==> d in a.dels || d in m.dels))
            && (m.ServerUpdate? ==>
                  && (forall e :: e in b.known <==>
                        e in a.known || (e.client == m.from && m.p.lo <= e.clock < m.p.hi))
                  && (forall d :: d in b.dels <==> d in a.dels || d in m.p.dels))
  {
    assert Enabled(run[i], steps[i]);
    var cn := run[i].conns[run[i].clients[c].conn.value];
    var m := cn.out[cn.delivered];
    if m.ServerUpdate? {
      SyncTheorems.NoUpdateIsIgnored(run, steps, i, c, reported);
      assert forall e :: e in Ids(m.from, m.p) <==> e.client == m.from && m.p.lo <= e.clock < m.p.hi;
    }
  }

  /** An edit sends just the clocks and the deletions it makes. */
  lemma EditIsExact(s: State, c: nat, count: nat, deleted: set<Id>)
    requires Enabled(s, Edit(c, count, deleted))
    ensures var t := Do(s, Edit(c, count, deleted)); var k := s.clients[c].conn.value;
            && OtherClientsKept(s, t, c) && SharedKept(s, t) && OtherConnsKept(s, t, k)
            && c in t.clients && var a, b := s.clients[c], t.clients[c];
            && b == a.(n := a.n + count, own := b.own, dels := b.dels)
            && (forall d :: d in b.own <==> d in a.own || d in deleted)
            && (forall d :: d in b.dels <==> d in a.dels || d in deleted)
            && |t.conns[k].inbox| == |s.conns[k].inbox| + 1 && s.conns[k].inbox <= t.conns[k].inbox
            && var m := t.conns[k].inbox[|s.conns[k].inbox|];
            && m.ClientUpdate? && m.p.dels == deleted
            && forall x: nat :: Has(m.p, x) <==> a.n <= x < b.n
  {
  }

  // ---------- what a reader stores and passes on ----------

  /** At step `a` the reader was working on the same message. */
  predicate SameMessage(run: seq<State>, a: nat, i: nat, k: nat) {
    && a < |run| && i < |run| && k < |run[a].conns| && k < |run[i].conns|
    && run[a].conns[k].consumed == run[i].conns[k].consumed
  }

  ghost predicate NewClocks(log: Log, c: nat, p: Payload) { HasClocks(p) && !Stored(log, c, p.hi - 1) }

  ghost predicate NewDeletion(dels: set<Id>, p: Payload) { exists d :: d in p.dels && d !in dels }

  /** The last clock was new to the log when the reader read the maximum for this message. */
  ghost predicate FoundNewer(run: seq<State>, steps: seq<Step>, i: nat, k: nat, p: Payload, newer: bool)
    requires i <= |steps| < |run| && k < |run[i].conns|
  {
    exists a: nat :: a < i && steps[a] == ReadMax(k) && SameMessage(run, a, i, k) &&
      (newer <==> NewClocks(run[a].log, run[i].conns[k].client, p))
  }

  /** And so for a deletion, when it wrote the message's deletions. */
  ghost predicate FoundNovel(run: seq<State>, steps: seq<Step>, i: nat, k: nat, p: Payload, novel: bool)
    requires i <= |steps| < |run| && k < |run[i].conns|
  {
    exists b: nat :: b < i && steps[b] == WriteDels(k) && SameMessage(run, b, i, k) &&
      (novel <==> NewDeletion(run[b].dels, p))
  }

  ghost predicate ReaderHistory(run: seq<State>, steps: seq<Step>, i: nat, k: nat)
    requires i <= |steps| < |run| && k < |run[i].conns|
  {
    match run[i].conns[k].reader
    case ReadLast(p, _) => FoundNewer(run, steps, i, k, p, IsNewer(run[i].conns[k].reader))
    case WroteOp(p, persisted) => FoundNewer(run, steps, i, k, p, persisted)
    case WroteDels(p, persisted, novel) =>
      FoundNewer(run, steps, i, k, p, persisted) && FoundNovel(run, steps, i, k, p, novel)
    case _ => true
  }

  predicate Resting(r: Reader) { r.Parsed? || r.Idle? || r.ReaderDone? }

  lemma TakeRests(s: State, st: Step, k: nat)
    requires Enabled(s, st) && (st == Take(k) || st == StopReader(k))
    ensures k < |Do(s, st).conns| && Resting(Do(s, st).conns[k].reader)
  {
  }

  lemma EndRests(s: State, st: Step, k: nat)
    requires Enabled(s, st) && (st == Broadcast(k) || (st.ReaderError? && st.k == k))
    ensures k < |Do(s, st).conns| && Resting(Do(s, st).conns[k].reader)
  {
  }

  lemma FoundKept(run: seq<State>, steps: seq<Step>, i: nat, k: nat, p: Payload, flag: bool)
    requires IsRun(run, steps) && i < |steps| && k < |run[i].conns| && k < |run[i + 1].conns|
    requires run[i + 1].conns[k].consumed == run[i].conns[k].consumed
    requires run[i + 1].conns[k].client == run[i].conns[k].client
    ensures FoundNewer(run, steps, i, k, p, flag) ==> FoundNewer(run, steps, i + 1, k, p, flag)
    ensures FoundNovel(run, steps, i, k, p, flag) ==> FoundNovel(run, steps, i + 1, k, p, flag)
  {
    if FoundNewer(run, steps, i, k, p, flag) {
      var a: nat :| a < i && steps[a] == ReadMax(k) && SameMessage(run, a, i, k) &&
        (flag <==> NewClocks(run[a].log, run[i].conns[k].client, p));
      assert SameMessage(run, a, i + 1, k);
    }
    if FoundNovel(run, steps, i, k, p, flag) {
      var b: nat :| b < i && steps[b] == WriteDels(k) && SameMessage(run, b, i, k) &&
        (flag <==> NewDeletion(run[b].dels, p));
      assert SameMessage(run, b, i + 1, k);
    }
  }

  lemma ReadsMaximum(run: seq<State>, steps: seq<Step>, i: nat, k: nat)
    requires IsRun(run, steps) && i < |steps| && steps[i] == ReadMax(k) && k < |run[i].conns|
    ensures k < |run[i + 1].conns| && ReaderHistory(run, steps, i + 1, k)
  {
    assert Enabled(run[i], steps[i]);
    var cn := run[i].conns[k];
    var p := cn.reader.p;
    assert SameMessage(run, i, i + 1, k);
    if HasClocks(p) {
      SyncTheorems.LogIsAPrefix(run, steps, i, cn.client, p.hi - 1);
      assert IsNewer(run[i + 1].conns[k].reader) <==> NewClocks(run[i].log, cn.client, p);
    } else {
      assert !NewClocks(run[i].log, cn.client, p);
    }
  }

  lemma WritesDeletions(run: seq<State>, steps: seq<Step>, i: nat, k: nat)
    requires IsRun(run, steps) && i < |steps| && steps[i] == WriteDels(k) && k < |run[i].conns|
    requires ReaderHistory(run, steps, i, k)
    ensures k < |run[i + 1].conns| && ReaderHistory(run, steps, i + 1, k)
  {
    assert Enabled(run[i], steps[i]);
    var r := run[i].conns[k].reader;
    FoundKept(run, steps, i, k, r.p, r.persisted);
    assert SameMessage(run, i, i + 1, k);
    assert !(r.p.dels <= run[i].dels) <==> NewDeletion(run[i].dels, r.p);
  }

  lemma ReaderKept(run: seq<State>, steps: seq<Step>, i: nat, k: nat)
    requires IsRun(run, steps) && i < |steps| && k < |run[i].conns| && ReaderHistory(run, steps, i, k)
    requires !Reads(steps[i], k) || steps[i] == WriteOp(k)
    ensures k < |run[i + 1].conns| && ReaderHistory(run, steps, i + 1, k)
  {
    assert Enabled(run[i], steps[i]);
    Moves(run[i], steps[i], k);
    var r := run[i].conns[k].reader;
    match r {
      case ReadLast(p, _) => FoundKept(run, steps, i, k, p, IsNewer(r));
      case WroteOp(p, persisted) => FoundKept(run, steps, i, k, p, persisted);
      case WroteDels(p, persisted, novel) =>
        FoundKept(run, steps, i, k, p, persisted);
        FoundKept(run, steps, i, k, p, novel);
      case _ =>
    }
  }

  lemma {:induction false} ReaderHistoryHolds(run: seq<State>, steps: seq<Step>, i: nat, k: nat)
    requires IsRun(run, steps) && i < |run| && k < |run[i].conns|
    ensures ReaderHistory(run, steps, i, k)
  {
    if i > 0 {
      var st := steps[i - 1];
      assert Enabled(run[i - 1], st);
      if k >= |run[i - 1].conns| {
        NewConnFresh(run[i - 1], st, k);
      } else {
        ReaderHistoryHolds(run, steps, i - 1, k);
        if st == ReadMax(k) {
          ReadsMaximum(run, steps, i - 1, k);
        } else if st == WriteDels(k) {
          WritesDeletions(run, steps, i - 1, k);
        } else if !Reads(st, k) || st == WriteOp(k) {
          ReaderKept(run, steps, i - 1, k);
        } else if st.Take? || st.StopReader? {
          TakeRests(run[i - 1], st, k);
        } else {
          EndRests(run[i - 1], st, k);
        }
      }
    }
  }

  /** The message the reader is working on. */
  ghost predicate AtWork(run: seq<State>, i: nat, k: nat, p: Payload)
    requires i < |run| && k < |run[i].conns|
  {
    var cn := run[i].conns[k];
    0 < cn.consumed <= |cn.inbox| && !cn.inbox[cn.consumed - 1].ClientStep1? && cn.inbox[cn.consumed - 1].p == p
  }

  lemma WorksOn(run: seq<State>, steps: seq<Step>, i: nat, k: nat)
    requires IsRun(run, steps) && i < |run| && k < |run[i].conns|
    requires var r := run[i].conns[k].reader; !r.Idle? && !r.ReaderDone?
    ensures AtWork(run, i, k, run[i].conns[k].reader.p)
  {
    SyncTheorems.HandshakeIsObeyed(run, steps, i, k);
  }

  /** The table gets a row exactly if the message's last clock was not stored when the maximum was
      read for it: the message itself, under that clock, unless the key is taken. */
  lemma RowIsWrittenIfNew(run: seq<State>, steps: seq<Step>, i: nat, k: nat)
    requires IsRun(run, steps) && i < |steps| && steps[i] == WriteOp(k) && k < |run[i].conns|
    ensures exists p, newer :: AtWork(run, i, k, p) && FoundNewer(run, steps, i, k, p, newer) &&
              var log, log', c := run[i].log, run[i + 1].log, run[i].conns[k].client;
              && HasClocks(p)
              && (forall key :: key in log' <==> key in log || (newer && key == OpKey(c, p.hi - 1)))
              && (forall key :: key in log' ==> log'[key] == if key in log then log[key] else p)
    ensures run[i + 1].dels == run[i].dels && run[i + 1].chans == run[i].chans && run[i + 1].lost == run[i].lost
    ensures run[i + 1].clients == run[i].clients && OtherConnsKept(run[i], run[i + 1], k)
  {
    assert Enabled(run[i], steps[i]);
    var r := run[i].conns[k].reader;
    WorksOn(run, steps, i, k);
    ReaderHistoryHolds(run, steps, i, k);
    assert HasClocks(r.p) by {
      SyncTheorems.RunInv(run, steps, i);
      assert ConnOk(run[i], run[i].conns[k]);
    }
    assert AtWork(run, i, k, r.p) && FoundNewer(run, steps, i, k, r.p, IsNewer(r));
  }

  /** The table gets just the message's deletions. */
  lemma DeletionsAreWritten(run: seq<State>, steps: seq<Step>, i: nat, k: nat)
    requires IsRun(run, steps) && i < |steps| && steps[i] == WriteDels(k) && k < |run[i].conns|
    ensures exists p :: AtWork(run, i, k, p) &&
              forall d :: d in run[i + 1].dels <==> d in run[i].dels || d in p.dels
    ensures run[i + 1].log == run[i].log && run[i + 1].chans == run[i].chans && run[i + 1].lost == run[i].lost
    ensures run[i + 1].clients == run[i].clients && OtherConnsKept(run[i], run[i + 1], k)
  {
    assert Enabled(run[i], steps[i]);
    WorksOn(run, steps, i, k);
    assert AtWork(run, i, k, run[i].conns[k].reader.p);
  }

  /** One more broadcast on one channel. */
  ghost predicate Sent(chans: seq<seq<Bcast>>, chans': seq<seq<Bcast>>, ch: nat, b: Bcast) {
    && |chans'| == |chans| && ch < |chans|
    && (forall h :: 0 <= h < |chans| && h != ch ==> chans'[h] == chans[h])
    && |chans'[ch]| == |chans[ch]| + 1 && chans[ch] <= chans'[ch] && chans'[ch][|chans[ch]|] == b
  }

  /** A message is passed on exactly if its last clock was not stored when the maximum was read for
      it, or one of its deletions was not when they were written; once, whole, under its sender's
      id, on the connection's channel. If nobody listens it is lost, and the reader ends. */
  lemma BroadcastIfNew(run: seq<State>, steps: seq<Step>, i: nat, k: nat)
    requires IsRun(run, steps) && i < |steps| && steps[i] == Broadcast(k) && k < |run[i].conns|
    ensures k < |run[i + 1].conns|
    ensures exists p, newer, novel ::
              && AtWork(run, i, k, p)
              && FoundNewer(run, steps, i, k, p, newer) && FoundNovel(run, steps, i, k, p, novel) &&
              var s, t, cn := run[i], run[i + 1], run[i].conns[k];
              if !newer && !novel then t.chans == s.chans && t.lost == s.lost && t.conns[k].reader.Idle?
              else if Listening(s, cn.chan) then
                Sent(s.chans, t.chans, cn.chan, Bcast(cn.client, p)) && t.lost == s.lost && t.conns[k].reader.Idle?
              else
                t.chans == s.chans && t.lost == s.lost + [Bcast(cn.client, p)] && t.conns[k].reader.ReaderDone?
    ensures run[i + 1].log == run[i].log && run[i + 1].dels == run[i].dels && run[i + 1].clients == run[i].clients
    ensures OtherConnsKept(run[i], run[i + 1], k)
  {
    assert Enabled(run[i], steps[i]);
    var r := run[i].conns[k].reader;
    WorksOn(run, steps, i, k);
    ReaderHistoryHolds(run, steps, i, k);
    assert AtWork(run, i, k, r.p) && FoundNewer(run, steps, i, k, r.p, r.persisted)
           && FoundNovel(run, steps, i, k, r.p, r.novel);
  }

  /** A failing call has its effect or not, and nothing is passed on; what is stored by then and
      was not before is listed as lost. */
  lemma FailureIsExact(s: State, k: nat, applied: bool)
    requires Enabled(s, ReaderError(k, applied))
    ensures var t, cn := Do(s, ReaderError(k, applied)), s.conns[k]; var r := cn.reader;
            && OtherConnsKept(s, t, k) && t.conns[k] == cn.(reader := ReaderDone)
            && t.clients == s.clients && t.chans == s.chans
            && var inserts := applied && r.ReadLast? && IsNewer(r);
            && (forall key :: key in t.log <==> key in s.log || (inserts && key == RowKey(cn.client, r.p)))
            && (forall key :: key in t.log ==> t.log[key] == if key in s.log then s.log[key] else r.p)
            && (forall d :: d in t.dels <==> d in s.dels || (applied && r.WroteOp? && d in r.p.dels))
            && t.lost == if inserts || (r.WroteOp? && (applied || r.persisted)) then s.lost + [Bcast(cn.client, r.p)]
                         else s.lost
  {
  }

  // ---------- what a receiver gets ----------

  /** The updates a client is sent of some broadcasts: those of the others, in order. */
  function Forwarded(c: nat, bs: seq<Bcast>): (out: seq<OutMsg>)
    ensures |out| <= |bs|
  {
    if bs == [] then []
    else
      var b := bs[|bs| - 1];
      Forwarded(c, bs[..|bs| - 1]) + if b.sender == c then [] else [ServerUpdate(b.sender, b.p)]
  }

  lemma {:induction false} ForwardedHas(c: nat, bs: seq<Bcast>, m: OutMsg)
    ensures m in Forwarded(c, bs) <==> exists b :: b in bs && b.sender != c && m == ServerUpdate(b.sender, b.p)
  {
    if bs != [] {
      var n := |bs| - 1;
      ForwardedHas(c, bs[..n], m);
      assert bs == bs[..n] + [bs[n]];
    }
  }

  predicate LagsOn(st: Step, k: nat) { st.Lag? && st.k == k }

  /** What the connection that step `j` opened has sent on of its channel. */
  ghost predicate SentOn(run: seq<State>, j: nat, i: nat, k: nat)
    requires j + 1 < |run| && i < |run| && k < |run[i].conns|
  {
    var cn := run[i].conns[k];
    && cn.chan < |run[j + 1].chans| && cn.chan < |run[i].chans|
    && var start := |run[j + 1].chans[cn.chan]|;
    && start <= cn.pos <= |run[i].chans[cn.chan]|
    && if |cn.out| < 2 then cn.pos == start
       else cn.out[2..] == Forwarded(cn.client, run[i].chans[cn.chan][start..cn.pos])
  }

  lemma ReceiveSendsOn(run: seq<State>, steps: seq<Step>, j: nat, i: nat, k: nat)
    requires IsRun(run, steps) && j < i < |steps| && k < |run[i].conns| && steps[i] == Receive(k)
    requires SentOn(run, j, i, k) && WriterTrace(run[i].conns[k])
    ensures k < |run[i + 1].conns| && SentOn(run, j, i + 1, k)
  {
    assert Enabled(run[i], steps[i]);
    var a, b := run[i].conns[k], run[i + 1].conns[k];
    var start := |run[j + 1].chans[a.chan]|;
    var was, now := run[i].chans[a.chan][start..a.pos], run[i].chans[a.chan][start..b.pos];
    assert now[..|now| - 1] == was;
    assert b.out[2..] == a.out[2..] + b.out[|a.out|..];
  }

  /** The channels only grow, and only receiving or lagging moves a receiver. */
  ghost predicate PlaceKept(s: State, t: State, k: nat)
    requires k < |s.conns|
  {
    && k < |t.conns| && |s.chans| <= |t.chans|
    && var a, b := s.conns[k], t.conns[k];
    && a.chan < |s.chans| && b.pos == a.pos && s.chans[a.chan] <= t.chans[a.chan]
    && (b.out == a.out || (|b.out| == |a.out| + 1 <= 2))
  }

  lemma WriterKeepsPlace(s: State, st: Step, k: nat)
    requires Enabled(s, st) && k < |s.conns| && st != Receive(k) && !LagsOn(st, k)
    requires WriterTrace(s.conns[k]) && s.conns[k].chan < |s.chans| && !OfClient(st) && !OfReader(st)
    ensures PlaceKept(s, Do(s, st), k)
  {
  }

  lemma ClientKeepsPlace(s: State, st: Step, k: nat)
    requires Enabled(s, st) && k < |s.conns| && s.conns[k].chan < |s.chans| && OfClient(st)
    ensures PlaceKept(s, Do(s, st), k)
  {
  }

  lemma BroadcastKeepsPlace(s: State, st: Step, k: nat)
    requires Enabled(s, st) && k < |s.conns| && s.conns[k].chan < |s.chans| && st.Broadcast?
    ensures PlaceKept(s, Do(s, st), k)
  {
  }

  lemma ReaderKeepsPlace(s: State, st: Step, k: nat)
    requires Enabled(s, st) && k < |s.conns| && s.conns[k].chan < |s.chans| && OfReader(st) && !st.Broadcast?
    ensures PlaceKept(s, Do(s, st), k)
  {
  }

  lemma KeepsPlace(s: State, st: Step, k: nat)
    requires Enabled(s, st) && k < |s.conns| && st != Receive(k) && !LagsOn(st, k)
    requires WriterTrace(s.conns[k]) && s.conns[k].chan < |s.chans|
    ensures PlaceKept(s, Do(s, st), k)
  {
    if OfClient(st) {
      ClientKeepsPlace(s, st, k);
    } else if st.Broadcast? {
      BroadcastKeepsPlace(s, st, k);
    } else if OfReader(st) {
      ReaderKeepsPlace(s, st, k);
    } else {
      WriterKeepsPlace(s, st, k);
    }
  }

  lemma StillSentOn(run: seq<State>, j: nat, i: nat, k: nat)
    requires j < i && i + 1 < |run| && k < |run[i].conns| && PlaceKept(run[i], run[i + 1], k)
    requires run[i + 1].conns[k].client == run[i].conns[k].client && run[i + 1].conns[k].chan == run[i].conns[k].chan
    requires SentOn(run, j, i, k)
    ensures SentOn(run, j, i + 1, k)
  {
    var a, b := run[i].conns[k], run[i + 1].conns[k];
    var start := |run[j + 1].chans[a.chan]|;
    assert run[i + 1].chans[a.chan][start..a.pos] == run[i].chans[a.chan][start..a.pos];
  }

  lemma OthersSendNothingOn(run: seq<State>, steps: seq<Step>, j: nat, i: nat, k: nat)
    requires IsRun(run, steps) && j < i < |steps| && k < |run[i].conns|
    requires steps[i] != Receive(k) && !LagsOn(steps[i], k)
    requires SentOn(run, j, i, k) && WriterTrace(run[i].conns[k])
    ensures k < |run[i + 1].conns| && SentOn(run, j, i + 1, k)
  {
    assert Enabled(run[i], steps[i]);
    Moves(run[i], steps[i], k);
    KeepsPlace(run[i], steps[i], k);
    StillSentOn(run, j, i, k);
  }

  lemma TracesHold(run: seq<State>, steps: seq<Step>, i: nat, k: nat)
    requires IsRun(run, steps) && i < |run| && k < |run[i].conns|
    ensures WriterTrace(run[i].conns[k]) && InTrace(run[i].conns[k].inbox, run[i].conns[k].answer)
    ensures WellKeyed(run[i].log)
  {
    SyncTheorems.RunInv(run, steps, i);
    assert ConnOk(run[i], run[i].conns[k]);
  }

  lemma StartsAtTheEnd(run: seq<State>, steps: seq<Step>, j: nat, k: nat)
    requires IsRun(run, steps) && j < |steps| && steps[j].Connect? && k == |run[j].conns|
    ensures k < |run[j + 1].conns| && SentOn(run, j, j + 1, k)
  {
    assert Enabled(run[j], steps[j]);
  }

  lemma StepSendsOn(run: seq<State>, steps: seq<Step>, j: nat, i: nat, k: nat)
    requires IsRun(run, steps) && j < i < |steps| && k < |run[i].conns| && !LagsOn(steps[i], k)
    requires SentOn(run, j, i, k)
    ensures k < |run[i + 1].conns| && SentOn(run, j, i + 1, k)
  {
    TracesHold(run, steps, i, k);
    if steps[i] == Receive(k) {
      ReceiveSendsOn(run, steps, j, i, k);
    } else {
      OthersSendNothingOn(run, steps, j, i, k);
    }
  }

  ghost predicate NeverLags(steps: seq<Step>, j: nat, i: nat, k: nat)
    requires i <= |steps|
  {
    forall m :: j < m < i ==> !LagsOn(steps[m], k)
  }

  /** Exactly once and in order: a connection whose receiver never lagged has been sent, after the
      two messages of the handshake, just the updates that others broadcast on its channel since it
      connected, up to its place there. */
  lemma {:induction false} UpdatesComeInOrder(run: seq<State>, steps: seq<Step>, j: nat, i: nat, k: nat)
    requires IsRun(run, steps) && j < i < |run| && steps[j].Connect? && k == |run[j].conns|
    requires NeverLags(steps, j, i, k)
    ensures k < |run[i].conns| && SentOn(run, j, i, k)
  {
    if i == j + 1 {
      StartsAtTheEnd(run, steps, j, k);
    } else {
      UpdatesComeInOrder(run, steps, j, i - 1, k);
      StepSendsOn(run, steps, j, i - 1, k);
    }
  }

  /** A lagging receiver loses just the oldest broadcasts it had not taken. */
  lemma LagIsExact(s: State, k: nat, count: nat)
    requires Enabled(s, Lag(k, count))
    ensures var t, a := Do(s, Lag(k, count)), s.conns[k];
            && SharedKept(s, t) && t.clients == s.clients && OtherConnsKept(s, t, k)
            && t.conns[k] == a.(pos := a.pos + count, missed := t.conns[k].missed)
            && forall b :: b in t.conns[k].missed <==>
                 b in a.missed || exists j :: a.pos <= j < a.pos + count && s.chans[a.chan][j] == b
  {
    var cn := s.conns[k];
    var skipped := s.chans[cn.chan][cn.pos..cn.pos + count];
    forall j | cn.pos <= j < cn.pos + count ensures s.chans[cn.chan][j] in skipped {
      assert skipped[j - cn.pos] == s.chans[cn.chan][j];
    }
  }

  /** A connection starts with the client's vector, at the end of the channel; the document stays. */
  lemma ConnectStartsOver(s: State, c: nat, sv: map<nat, nat>, freshChannel: bool)
    requires Enabled(s, Connect(c, sv, freshChannel))
    ensures var t, k := Do(s, Connect(c, sv, freshChannel)), |s.conns|;
            && OtherClientsKept(s, t, c) && t.log == s.log && t.dels == s.dels && t.lost == s.lost
            && |t.conns| == k + 1 && (forall j :: 0 <= j < k ==> t.conns[j] == s.conns[j])
            && c in t.clients
            && t.clients[c] == s.clients[c].(receivedStep2 := false, sentStep2 := false, conn := Some(k))
            && var cn := t.conns[k];
            && cn.client == c && cn.inbox == [ClientStep1(sv)] && cn.out == []
            && cn.reader.Idle? && cn.writer.Starting? && cn.slot.None? && !cn.hot && !cn.forwarded
            && |t.chans| == |s.chans| + (if freshChannel then 1 else 0) && s.chans <= t.chans
            && cn.chan == |t.chans| - 1 && cn.pos == |t.chans[cn.chan]|
            && (freshChannel ==> t.chans[cn.chan] == [])
  {
  }
}
