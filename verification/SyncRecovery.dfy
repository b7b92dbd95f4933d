/** Recovery: from every reachable state of the sync protocol, whatever was lost or abandoned,
    clients that reconnect and tasks that run on lead to a quiet state. */
module SyncRecovery {
  import opened Wrappers
  import opened OpLog
  import opened SyncProtocol
  import opened SyncInvariant
  import opened SyncTheorems
  import Paths

  /** Neither an edit nor anything going wrong. */
  predicate GoesWell(st: Step) {
    !st.Edit? && !st.ReaderError? && !st.StopReader? && !st.StopWriter? && !st.Lag?
  }

  ghost predicate Next(s: State, u: State) { exists st :: GoesWell(st) && Enabled(s, st) && u == Do(s, st) }

  ghost predicate Reaches(s: State, u: State) { Paths.Reaches(Next, s, u) }

  lemma Stay(s: State)
    ensures Reaches(s, s)
  {
    Paths.Stay(Next, s);
  }

  lemma Then(s: State, m: State, u: State)
    requires Reaches(s, m) && Reaches(m, u)
    ensures Reaches(s, u)
  {
    Paths.Then(Next, s, m, u);
  }

  lemma Go(s: State, m: State, st: Step, u: State)
    requires Reaches(s, m) && Inv(m) && GoesWell(st) && Enabled(m, st) && u == Do(m, st)
    ensures Reaches(s, u) && Inv(u)
  {
    StepInv(m, st);
    Paths.OneMore(Next, s, m, u);
  }

  // ---------- letting a reader finish its message ----------

  predicate AtRest(r: Reader) { r.Idle? || r.ReaderDone? }

  ghost predicate AllAtRest(s: State) { forall k :: 0 <= k < |s.conns| ==> AtRest(s.conns[k].reader) }

  function ReaderRank(r: Reader): nat {
    match r
    case Parsed(_) => 4
    case ReadLast(_, _) => 3
    case WroteOp(_, _) => 2
    case WroteDels(_, _, _) => 1
    case _ => 0
  }

  /** Only the reader of connection `k` has moved; a message is lost only if nobody listens. */
  ghost predicate ReaderMoved(s: State, u: State, k: nat) {
    && k < |s.conns| && k < |u.conns| && u.conns == s.conns[k := s.conns[k].(reader := u.conns[k].reader)]
    && u.clients == s.clients && |u.chans| == |s.chans|
    && (Listening(s, s.conns[k].chan) ==>
          u.lost == s.lost && (s.conns[k].reader != ReaderDone ==> u.conns[k].reader != ReaderDone))
  }

  lemma ReadMaxMoved(s: State, k: nat)
    requires Enabled(s, ReadMax(k))
    ensures var u := DoReadMax(s, k); ReaderMoved(s, u, k) && ReaderRank(u.conns[k].reader) < 4
  {
  }

  lemma ReadsMax(s0: State, s: State, k: nat) returns (u: State)
    requires Reaches(s0, s) && Inv(s) && Enabled(s, ReadMax(k))
    ensures Reaches(s0, u) && Inv(u) && ReaderMoved(s, u, k) && ReaderRank(u.conns[k].reader) < 4
  {
    u := DoReadMax(s, k);
    ReadMaxMoved(s, k);
    Go(s0, s, ReadMax(k), u);
  }

  lemma WriteOpMoved(s: State, k: nat)
    requires Enabled(s, WriteOp(k))
    ensures var u := DoWriteOp(s, k); ReaderMoved(s, u, k) && ReaderRank(u.conns[k].reader) < 3
  {
  }

  lemma WritesOp(s0: State, s: State, k: nat) returns (u: State)
    requires Reaches(s0, s) && Inv(s) && Enabled(s, WriteOp(k))
    ensures Reaches(s0, u) && Inv(u) && ReaderMoved(s, u, k) && ReaderRank(u.conns[k].reader) < 3
  {
    u := DoWriteOp(s, k);
    WriteOpMoved(s, k);
    Go(s0, s, WriteOp(k), u);
  }

  lemma WriteDelsMoved(s: State, k: nat)
    requires Enabled(s, WriteDels(k))
    ensures var u := DoWriteDels(s, k); ReaderMoved(s, u, k) && ReaderRank(u.conns[k].reader) < 2
  {
  }

  lemma WritesDels(s0: State, s: State, k: nat) returns (u: State)
    requires Reaches(s0, s) && Inv(s) && Enabled(s, WriteDels(k))
    ensures Reaches(s0, u) && Inv(u) && ReaderMoved(s, u, k) && ReaderRank(u.conns[k].reader) < 2
  {
    u := DoWriteDels(s, k);
    WriteDelsMoved(s, k);
    Go(s0, s, WriteDels(k), u);
  }

  lemma BroadcastMoved(s: State, k: nat)
    requires Enabled(s, Broadcast(k))
    ensures var u := DoBroadcast(s, k); ReaderMoved(s, u, k) && ReaderRank(u.conns[k].reader) < 1
  {
  }

  lemma Broadcasts(s0: State, s: State, k: nat) returns (u: State)
    requires Reaches(s0, s) && Inv(s) && Enabled(s, Broadcast(k))
    ensures Reaches(s0, u) && Inv(u) && ReaderMoved(s, u, k) && ReaderRank(u.conns[k].reader) < 1
  {
    u := DoBroadcast(s, k);
    BroadcastMoved(s, k);
    Go(s0, s, Broadcast(k), u);
  }

  lemma ReaderMovedOn(s: State, m: State, u: State, k: nat)
    requires ReaderMoved(s, m, k) && ReaderMoved(m, u, k)
    ensures ReaderMoved(s, u, k)
  {
    if Listening(s, s.conns[k].chan) {
      var l :| 0 <= l < |s.conns| && s.conns[l].chan == s.conns[k].chan && s.conns[l].writer != WriterDone;
      assert m.conns[l].chan == m.conns[k].chan && m.conns[l].writer != WriterDone;
    }
  }

  lemma {:induction false} FinishReader(s: State, k: nat) returns (u: State)
    requires Inv(s) && k < |s.conns|
    ensures Reaches(s, u) && Inv(u) && ReaderMoved(s, u, k) && AtRest(u.conns[k].reader)
    decreases ReaderRank(s.conns[k].reader)
  {
    Stay(s);
    if AtRest(s.conns[k].reader) {
      u := s;
    } else {
      var m;
      match s.conns[k].reader {
        case Parsed(_) => m := ReadsMax(s, s, k);
        case ReadLast(_, _) => m := WritesOp(s, s, k);
        case WroteOp(_, _) => m := WritesDels(s, s, k);
        case WroteDels(_, _, _) =>
          assert s.conns[k].chan < |s.chans| by { assert ConnOk(s, s.conns[k]); }
          m := Broadcasts(s, s, k);
      }
      u := FinishReader(m, k);
      Then(s, m, u);
      ReaderMovedOn(s, m, u, k);
    }
  }

  /** All readers finish, the stale ones too. */
  lemma {:induction false} RestUpTo(s: State, n: nat) returns (u: State)
    requires Inv(s) && n <= |s.conns|
    ensures Reaches(s, u) && Inv(u) && u.clients == s.clients && |u.conns| == |s.conns|
    ensures forall k :: 0 <= k < n ==> AtRest(u.conns[k].reader)
  {
    if n == 0 {
      Stay(s);
      u := s;
    } else {
      var m := RestUpTo(s, n - 1);
      u := FinishReader(m, n - 1);
      Then(s, m, u);
    }
  }

  // ---------- one client reconnects ----------

  /** The client is connected and past its handshake, and nothing was lost since. */
  ghost predicate Settled(s: State, c: nat) {
    c in s.clients && HasCurrent(s, c) && SettledConn(s, s.conns[s.clients[c].conn.value])
  }

  predicate SettledConn(s: State, cn: Conn) {
    Drained(cn) && cn.writer.Hot? && cn.delivered == |cn.out| && cn.missed == {} && cn.since == |s.lost|
  }

  /** What a step for client `c` on its connection `k` leaves alone. */
  ghost predicate Aside(s: State, u: State, c: nat, k: nat) {
    && u.clients.Keys == s.clients.Keys && (forall d :: d in s.clients && d != c ==> u.clients[d] == s.clients[d])
    && (c in s.clients ==> u.clients[c].n == s.clients[c].n && u.clients[c].own == s.clients[c].own)
    && |s.conns| <= |u.conns| && (forall j :: 0 <= j < |s.conns| && j != k ==> u.conns[j] == s.conns[j])
    && u.lost == s.lost
  }

  lemma AsideThen(s: State, m: State, u: State, c: nat, k: nat)
    requires Aside(s, m, c, k) && Aside(m, u, c, k)
    ensures Aside(s, u, c, k)
  {
  }

  ghost predicate Connected(s: State, u: State, c: nat) {
    && Aside(s, u, c, |s.conns|) && |u.conns| == |s.conns| + 1 && c in u.clients
    && u.clients[c].conn == Some(|s.conns|)
    && var cn := u.conns[|s.conns|];
    && cn.client == c && !cn.hot && cn.reader.Idle? && !cn.forwarded && cn.slot.None? && cn.writer.Starting?
    && cn.inbox == [ClientStep1(map[])] && cn.consumed == 0 && cn.answer.None?
    && cn.out == [] && cn.delivered == 0 && cn.missed == {} && cn.since == |s.lost|
  }

  lemma ConnectMakes(s: State, c: nat, freshChannel: bool)
    requires Enabled(s, Connect(c, map[], freshChannel))
    ensures Connected(s, DoConnect(s, c, map[], freshChannel), c)
  {
  }

  lemma CanConnect(s: State, c: nat)
    requires Conns(s) && c in s.clients
    ensures Enabled(s, Connect(c, map[], !AnyListening(s)))
  {
    if AnyListening(s) {
      var l :| 0 <= l < |s.conns| && s.conns[l].writer != WriterDone;
      assert s.conns[l].chan < |s.chans| by { assert ConnOk(s, s.conns[l]); }
    }
  }

  lemma Connects(s0: State, s: State, c: nat) returns (u: State)
    requires Reaches(s0, s) && Inv(s) && c in s.clients
    ensures Reaches(s0, u) && Inv(u) && Connected(s, u, c)
  {
    CanConnect(s, c);
    u := DoConnect(s, c, map[], !AnyListening(s));
    ConnectMakes(s, c, !AnyListening(s));
    Go(s0, s, Connect(c, map[], !AnyListening(s)), u);
  }

  lemma SendsStep1(s0: State, s: State, c: nat, k: nat) returns (u: State)
    requires Reaches(s0, s) && Inv(s) && Enabled(s, SendStep1(k))
    ensures Reaches(s0, u) && Inv(u) && Aside(s, u, c, k) && u.clients == s.clients && |u.conns| == |s.conns|
    ensures |u.conns[k].out| == |s.conns[k].out| + 1 && u.conns[k].out[|s.conns[k].out|].ServerStep1?
    ensures u.conns[k] == s.conns[k].(writer := AwaitingVector, out := u.conns[k].out)
  {
    u := DoSendStep1(s, k);
    Go(s0, s, SendStep1(k), u);
  }

  lemma AnswerMakes(s: State, c: nat, k: nat, reported: set<Id>)
    requires Enabled(s, Deliver(c, reported)) && s.clients[c].conn == Some(k)
    requires s.conns[k].out[s.conns[k].delivered].ServerStep1?
    ensures var u := DoDeliver(s, c, reported);
            && Aside(s, u, c, k) && |u.conns| == |s.conns| && u.clients[c].conn == Some(k)
            && Answered(s.conns[k], u.conns[k])
  {
  }

  predicate Answered(a: Conn, b: Conn) {
    && b == a.(inbox := b.inbox, answer := b.answer, delivered := a.delivered + 1)
    && |b.inbox| == |a.inbox| + 1 && a.inbox <= b.inbox && b.inbox[|a.inbox|].ClientStep2?
  }

  lemma Answers(s0: State, s: State, c: nat, k: nat) returns (u: State)
    requires Reaches(s0, s) && Inv(s) && c in s.clients && s.clients[c].conn == Some(k) && k < |s.conns|
    requires s.conns[k].delivered < |s.conns[k].out| && s.conns[k].out[s.conns[k].delivered].ServerStep1?
    ensures Reaches(s0, u) && Inv(u) && Aside(s, u, c, k) && |u.conns| == |s.conns| && u.clients[c].conn == Some(k)
    ensures Answered(s.conns[k], u.conns[k])
  {
    var reported := s.clients[c].dels;
    assert s.clients[c].own <= reported by { assert ClientOk(s, c); }
    u := DoDeliver(s, c, reported);
    AnswerMakes(s, c, k, reported);
    Go(s0, s, Deliver(c, reported), u);
  }

  /** The connection is open, and the client has answered the server's vector. */
  lemma Opening(s: State, c: nat) returns (u: State)
    requires Inv(s) && c in s.clients
    ensures Reaches(s, u) && Inv(u) && Aside(s, u, c, |s.conns|) && |u.conns| == |s.conns| + 1
    ensures u.clients[c].conn == Some(|s.conns|)
    ensures Opened(s, u.conns[|s.conns|])
  {
    var k := |s.conns|;
    Stay(s);
    var s1 := Connects(s, s, c);
    var s2 := SendsStep1(s, s1, c, k);
    u := Answers(s, s2, c, k);
    AsideThen(s, s1, s2, c, k);
    AsideThen(s, s2, u, c, k);
  }

  predicate Opened(s: State, cn: Conn) {
    && !cn.hot && cn.reader.Idle? && !cn.forwarded && cn.slot.None? && cn.writer.AwaitingVector?
    && |cn.inbox| == 2 && cn.inbox[0].ClientStep1? && cn.inbox[1].ClientStep2? && cn.consumed == 0
    && |cn.out| == 1 && cn.delivered == 1 && cn.missed == {} && cn.since == |s.lost|
  }

  lemma TakesMsg(s0: State, s: State, c: nat, k: nat) returns (u: State)
    requires Reaches(s0, s) && Inv(s) && Enabled(s, Take(k))
    ensures Reaches(s0, u) && Inv(u) && u == SetConn(s, k, TakeMsg(s.conns[k])) && Aside(s, u, c, k)
  {
    u := SetConn(s, k, TakeMsg(s.conns[k]));
    Go(s0, s, Take(k), u);
  }

  lemma ReaderMovedAside(s: State, u: State, c: nat, k: nat)
    requires ReaderMoved(s, u, k) && s.conns[k].writer != WriterDone
    ensures Aside(s, u, c, k) && (s.conns[k].reader != ReaderDone ==> u.conns[k].reader != ReaderDone)
  {
    assert Listening(s, s.conns[k].chan);
  }

  /** The reader takes the vector and the client's step two, and stores that. */
  lemma Uploading(s: State, c: nat, k: nat) returns (u: State)
    requires Inv(s) && k < |s.conns| && Opened(s, s.conns[k])
    ensures Reaches(s, u) && Inv(u) && Aside(s, u, c, k) && |u.conns| == |s.conns| && u.clients == s.clients
    ensures Drained(u.conns[k]) && u.conns[k].slot.Some?
    ensures u.conns[k] == s.conns[k].(hot := true, consumed := 2, forwarded := true, slot := u.conns[k].slot)
  {
    Stay(s);
    var s1 := TakesMsg(s, s, c, k);
    var s2 := TakesMsg(s, s1, c, k);
    u := FinishReader(s2, k);
    Then(s, s2, u);
    AsideThen(s, s1, s2, c, k);
    ReaderMovedAside(s2, u, c, k);
    AsideThen(s, s2, u, c, k);
  }

  lemma TakesVector(s0: State, s: State, c: nat, k: nat) returns (u: State)
    requires Reaches(s0, s) && Inv(s) && Enabled(s, TakeVector(k))
    ensures Reaches(s0, u) && Inv(u) && Aside(s, u, c, k) && u.clients == s.clients && |u.conns| == |s.conns|
    ensures u.conns[k] == s.conns[k].(slot := None, writer := u.conns[k].writer) && u.conns[k].writer.Serving?
  {
    u := DoTakeVector(s, k);
    Go(s0, s, TakeVector(k), u);
  }

  lemma ReadsOps(s0: State, s: State, c: nat, k: nat) returns (u: State)
    requires Reaches(s0, s) && Inv(s) && Enabled(s, ReadOps(k))
    ensures Reaches(s0, u) && Inv(u) && Aside(s, u, c, k) && u.clients == s.clients && |u.conns| == |s.conns|
    ensures u.conns[k] == s.conns[k].(writer := u.conns[k].writer, since := |s.lost|) && u.conns[k].writer.GotOps?
  {
    u := DoReadOps(s, k);
    Go(s0, s, ReadOps(k), u);
  }

  lemma ReadsDels(s0: State, s: State, c: nat, k: nat) returns (u: State)
    requires Reaches(s0, s) && Inv(s) && Enabled(s, ReadDels(k))
    ensures Reaches(s0, u) && Inv(u) && Aside(s, u, c, k) && u.clients == s.clients && |u.conns| == |s.conns|
    ensures u.conns[k] == s.conns[k].(writer := Hot, out := u.conns[k].out)
    ensures |u.conns[k].out| == |s.conns[k].out| + 1 && u.conns[k].out[|s.conns[k].out|].ServerStep2?
  {
    u := DoReadDels(s, k);
    Go(s0, s, ReadDels(k), u);
  }

  lemma GetMakes(s: State, c: nat, k: nat)
    requires Enabled(s, Deliver(c, {})) && s.clients[c].conn == Some(k)
    requires !s.conns[k].out[s.conns[k].delivered].ServerStep1?
    ensures var u := DoDeliver(s, c, {});
            && Aside(s, u, c, k) && |u.conns| == |s.conns| && u.clients[c].conn == Some(k)
            && u.chans == s.chans && u.conns[k] == s.conns[k].(delivered := s.conns[k].delivered + 1)
  {
  }

  /** The client takes a message that it need not answer. */
  lemma Gets(s0: State, s: State, c: nat, k: nat) returns (u: State)
    requires Reaches(s0, s) && Inv(s) && c in s.clients && s.clients[c].conn == Some(k) && k < |s.conns|
    requires s.conns[k].delivered < |s.conns[k].out| && !s.conns[k].out[s.conns[k].delivered].ServerStep1?
    ensures Reaches(s0, u) && Inv(u) && Aside(s, u, c, k) && |u.conns| == |s.conns| && u.clients[c].conn == Some(k)
    ensures u.chans == s.chans && u.conns[k] == s.conns[k].(delivered := s.conns[k].delivered + 1)
  {
    u := DoDeliver(s, c, {});
    GetMakes(s, c, k);
    Go(s0, s, Deliver(c, {}), u);
  }

  /** The writer takes the vector and reads the rows for it. */
  lemma ReadsLog(s: State, c: nat, k: nat) returns (u: State)
    requires Inv(s) && k < |s.conns| && s.conns[k].slot.Some? && s.conns[k].writer.AwaitingVector?
    ensures Reaches(s, u) && Inv(u) && Aside(s, u, c, k) && u.clients == s.clients && |u.conns| == |s.conns|
    ensures u.conns[k].writer.GotOps?
    ensures u.conns[k] == s.conns[k].(slot := None, writer := u.conns[k].writer, since := |s.lost|)
  {
    Stay(s);
    var m := TakesVector(s, s, c, k);
    u := ReadsOps(s, m, c, k);
    AsideThen(s, m, u, c, k);
  }

  /** It sends its step two, and the client gets it. */
  lemma Downloading(s: State, c: nat, k: nat) returns (u: State)
    requires Inv(s) && c in s.clients && s.clients[c].conn == Some(k) && k < |s.conns|
    requires var cn := s.conns[k];
             cn.slot.Some? && cn.writer.AwaitingVector? && |cn.out| == 1 && cn.delivered == 1
    ensures Reaches(s, u) && Inv(u) && Aside(s, u, c, k) && |u.conns| == |s.conns|
    ensures u.clients[c].conn == Some(k) && |u.conns[k].out| == 2
    ensures u.conns[k] ==
              s.conns[k].(slot := None, writer := Hot, out := u.conns[k].out, delivered := 2, since := |s.lost|)
  {
    var s2 := ReadsLog(s, c, k);
    var s3 := ReadsDels(s, s2, c, k);
    u := Gets(s, s3, c, k);
    AsideThen(s, s2, s3, c, k);
    AsideThen(s, s3, u, c, k);
  }

  lemma Handshake(s: State, c: nat) returns (u: State)
    requires Inv(s) && AllAtRest(s) && c in s.clients
    ensures Reaches(s, u) && Inv(u) && Aside(s, u, c, |s.conns|) && AllAtRest(u) && Settled(u, c)
  {
    var k := |s.conns|;
    var s1 := Opening(s, c);
    var s2 := Uploading(s1, c, k);
    Then(s, s1, s2);
    AsideThen(s, s1, s2, c, k);
    u := Downloading(s2, c, k);
    Then(s, s2, u);
    AsideThen(s, s2, u, c, k);
  }

  ghost predicate AllSettledBut(s: State, todo: set<nat>) {
    forall c :: c in s.clients && c !in todo ==> Settled(s, c)
  }

  /** The others stay where they are while one client reconnects. */
  lemma OthersSettled(s: State, u: State, c: nat, todo: set<nat>)
    requires Aside(s, u, c, |s.conns|) && AllSettledBut(s, todo) && Settled(u, c)
    ensures AllSettledBut(u, todo - {c})
  {
    forall d | d in u.clients && d !in todo - {c} ensures Settled(u, d) {
      if d != c { assert Settled(s, d); }
    }
  }

  ghost predicate SameOwn(s: State, u: State) {
    && u.clients.Keys == s.clients.Keys
    && forall c :: c in s.clients ==> u.clients[c].n == s.clients[c].n && u.clients[c].own == s.clients[c].own
  }

  lemma AsideSameOwn(s: State, m: State, u: State, c: nat, k: nat)
    requires Aside(s, m, c, k) && SameOwn(m, u)
    ensures SameOwn(s, u)
  {
  }

  lemma {:induction false} HandshakeAll(s: State, todo: set<nat>) returns (u: State)
    requires Inv(s) && AllAtRest(s) && todo <= s.clients.Keys && AllSettledBut(s, todo)
    ensures Reaches(s, u) && Inv(u) && AllAtRest(u) && SameOwn(s, u) && AllSettledBut(u, {})
    decreases |todo|
  {
    if todo == {} {
      Stay(s);
      u := s;
    } else {
      var c :| c in todo;
      var m := Handshake(s, c);
      OthersSettled(s, m, c, todo);
      u := HandshakeAll(m, todo - {c});
      Then(s, m, u);
      AsideSameOwn(s, m, u, c, |s.conns|);
    }
  }

  // ---------- one client catches up with the channel ----------

  ghost predicate CaughtUp(s: State, c: nat) {
    c in s.clients && HasCurrent(s, c) && QuietConn(s, s.conns[s.clients[c].conn.value])
  }

  lemma ReceiveMakes(s: State, c: nat, k: nat)
    requires Enabled(s, Receive(k))
    ensures var u := DoReceive(s, k);
            && Aside(s, u, c, k) && u.clients == s.clients && |u.conns| == |s.conns| && u.chans == s.chans
            && u.conns[k] == s.conns[k].(pos := s.conns[k].pos + 1, out := u.conns[k].out)
            && |s.conns[k].out| <= |u.conns[k].out|
  {
  }

  lemma Receives(s0: State, s: State, c: nat, k: nat) returns (u: State)
    requires Reaches(s0, s) && Inv(s) && Enabled(s, Receive(k))
    ensures Reaches(s0, u) && Inv(u) && Aside(s, u, c, k) && u.clients == s.clients && |u.conns| == |s.conns|
    ensures u.chans == s.chans && u.conns[k] == s.conns[k].(pos := s.conns[k].pos + 1, out := u.conns[k].out)
    ensures |s.conns[k].out| <= |u.conns[k].out|
  {
    u := DoReceive(s, k);
    ReceiveMakes(s, c, k);
    Go(s0, s, Receive(k), u);
  }

  lemma {:induction false} ReceiveAll(s: State, c: nat, k: nat) returns (u: State)
    requires Inv(s) && k < |s.conns| && s.conns[k].writer.Hot?
    requires s.conns[k].chan < |s.chans| && s.conns[k].pos <= |s.chans[s.conns[k].chan]|
    ensures Reaches(s, u) && Inv(u) && Aside(s, u, c, k) && u.clients == s.clients && |u.conns| == |s.conns|
    ensures u.chans == s.chans && |s.conns[k].out| <= |u.conns[k].out|
    ensures u.conns[k] == s.conns[k].(pos := |s.chans[s.conns[k].chan]|, out := u.conns[k].out)
    decreases |s.chans[s.conns[k].chan]| - s.conns[k].pos
  {
    Stay(s);
    if s.conns[k].pos == |s.chans[s.conns[k].chan]| {
      u := s;
    } else {
      var m := Receives(s, s, c, k);
      u := ReceiveAll(m, c, k);
      Then(s, m, u);
      AsideThen(s, m, u, c, k);
    }
  }

  lemma {:induction false} DeliverAll(s: State, c: nat, k: nat) returns (u: State)
    requires Inv(s) && c in s.clients && s.clients[c].conn == Some(k) && k < |s.conns|
    requires 2 <= s.conns[k].delivered <= |s.conns[k].out| && OutTrace(s.conns[k].out)
    ensures Reaches(s, u) && Inv(u) && Aside(s, u, c, k) && |u.conns| == |s.conns| && u.clients[c].conn == Some(k)
    ensures u.chans == s.chans && u.conns[k] == s.conns[k].(delivered := |s.conns[k].out|)
    decreases |s.conns[k].out| - s.conns[k].delivered
  {
    Stay(s);
    if s.conns[k].delivered == |s.conns[k].out| {
      u := s;
    } else {
      var m := Gets(s, s, c, k);
      u := DeliverAll(m, c, k);
      Then(s, m, u);
      AsideThen(s, m, u, c, k);
    }
  }

  lemma CatchUp(s: State, c: nat) returns (u: State)
    requires Inv(s) && AllAtRest(s) && Settled(s, c)
    ensures Reaches(s, u) && Inv(u) && AllAtRest(u) && u.chans == s.chans && |u.conns| == |s.conns|
    ensures Aside(s, u, c, s.clients[c].conn.value) && Settled(u, c) && CaughtUp(u, c)
  {
    var k := s.clients[c].conn.value;
    assert ConnOk(s, s.conns[k]);
    var m := ReceiveAll(s, c, k);
    assert OutTrace(m.conns[k].out) by { assert ConnOk(m, m.conns[k]); }
    u := DeliverAll(m, c, k);
    Then(s, m, u);
    AsideThen(s, m, u, c, k);
  }

  ghost predicate AllCaughtUpBut(s: State, todo: set<nat>) {
    forall c :: c in s.clients && c !in todo ==> CaughtUp(s, c)
  }

  lemma OthersCaughtUp(s: State, u: State, c: nat, todo: set<nat>)
    requires Clients(s) && AllSettledBut(s, {}) && AllCaughtUpBut(s, todo) && c in s.clients
    requires Aside(s, u, c, s.clients[c].conn.value) && u.chans == s.chans && Settled(u, c) && CaughtUp(u, c)
    ensures AllSettledBut(u, {}) && AllCaughtUpBut(u, todo - {c})
  {
    assert ClientOk(s, c) && Settled(s, c);
    forall d | d in u.clients ensures Settled(u, d) && (d !in todo - {c} ==> CaughtUp(u, d)) {
      if d != c {
        assert ClientOk(s, d) && Settled(s, d);
        assert d !in todo ==> CaughtUp(s, d);
      }
    }
  }

  lemma {:induction false} CatchUpAll(s: State, todo: set<nat>) returns (u: State)
    requires Inv(s) && AllAtRest(s) && todo <= s.clients.Keys && AllSettledBut(s, {}) && AllCaughtUpBut(s, todo)
    ensures Reaches(s, u) && Inv(u) && AllAtRest(u) && SameOwn(s, u) && AllCaughtUpBut(u, {})
    decreases |todo|
  {
    if todo == {} {
      Stay(s);
      u := s;
    } else {
      var c :| c in todo;
      assert Settled(s, c);
      var m := CatchUp(s, c);
      OthersCaughtUp(s, m, c, todo);
      u := CatchUpAll(m, todo - {c});
      Then(s, m, u);
      AsideSameOwn(s, m, u, c, s.clients[c].conn.value);
    }
  }

  // ---------- the whole ----------

  /** In `u` all clients hold the same document and deletions: every element created in `s`. */
  ghost predicate AllAgree(s: State, u: State) {
    && (forall c, d :: c in u.clients && d in u.clients ==>
          Doc(u, c) == Doc(u, d) && u.clients[c].dels == u.clients[d].dels == u.dels)
    && (forall c, e :: c in u.clients ==> (e in Doc(u, c) <==> Created(s, e)))
  }

  lemma CaughtUpIsQuiet(u: State)
    requires AllAtRest(u) && AllCaughtUpBut(u, {})
    ensures Quiet(u)
  {
    forall c | c in u.clients ensures HasCurrent(u, c) && QuietConn(u, u.conns[u.clients[c].conn.value]) {
      assert CaughtUp(u, c);
    }
  }

  lemma QuietAllAgree(s: State, u: State)
    requires Inv(u) && Quiet(u) && SameOwn(s, u)
    ensures AllAgree(s, u)
  {
    forall c, d | c in u.clients && d in u.clients
      ensures Doc(u, c) == Doc(u, d) && u.clients[c].dels == u.clients[d].dels == u.dels
    {
      QuietAgree(u, c, d);
    }
    forall c, e | c in u.clients ensures e in Doc(u, c) <==> Created(s, e) {
      QuietHolds(u, c, e);
      assert Created(u, e) <==> Created(s, e);
    }
  }

  /** From every reachable state, however many updates were lost, readers left stale or clients
      disconnected, steps without an edit or a failure lead to a quiet state. There all clients
      hold the same document, and it is all that had been created when recovery began. */
  lemma RecoveryIsPossible(run: seq<State>, steps: seq<Step>, i: nat)
    requires IsRun(run, steps) && i < |run|
    ensures exists u :: Reaches(run[i], u) && Quiet(u) && SameOwn(run[i], u) && AllAgree(run[i], u)
  {
    RunInv(run, steps, i);
    var s := run[i];
    var a := RestUpTo(s, |s.conns|);
    var b := HandshakeAll(a, a.clients.Keys);
    Then(s, a, b);
    var u := CatchUpAll(b, b.clients.Keys);
    Then(s, b, u);
    CaughtUpIsQuiet(u);
    assert SameOwn(s, u);
    QuietAllAgree(s, u);
  }
}
