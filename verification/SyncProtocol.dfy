/** The sync protocol of one topic on one proxy instance, as a transition system.

    Every client keeps one growing document and at most one current connection; an
    abandoned connection's server tasks may live on and keep draining what the client
    had sent. The queues are kept as whole histories with a read position, so the
    websocket in each direction and the broadcast channel never forget a message:
    an unread message is one at or after the position. */
module SyncProtocol {
  import opened Wrappers
  import opened OpLog

  // ---------- messages ----------

  datatype InMsg =
    | ClientStep1(sv: map<nat, nat>)
    | ClientStep2(p: Payload)
    | ClientUpdate(p: Payload)

  datatype OutMsg =
    | ServerStep1(next: nat)
    | ServerStep2(ids: set<Id>, dels: set<Id>)
    | ServerUpdate(from: nat, p: Payload)

  /** What a reader broadcasts: the sender's client id and its update. */
  datatype Bcast = Bcast(sender: nat, p: Payload)

  // ---------- state ----------

  /** A client's document: its own clocks are `0 .. n`, `known` holds the remote elements
      it has received, `own` the deletions it made and `dels` all deletions it knows. */
  datatype Client = Client(n: nat, known: set<Id>, own: set<Id>, dels: set<Id>,
                           receivedStep2: bool, sentStep2: bool, conn: Option<nat>)

  /** The reader task between two awaits of `persist_and_broadcast_update`. */
  datatype Reader =
    | Idle
    | Parsed(p: Payload)
    | ReadLast(p: Payload, last: Option<nat>)
    | WroteOp(p: Payload, persisted: bool)
    | WroteDels(p: Payload, persisted: bool, novel: bool)
    | ReaderDone

  datatype Writer =
    | Starting
    | AwaitingVector
    | Serving(sv: map<nat, nat>)
    | GotOps(ids: set<Id>, dels: set<Id>)
    | Hot
    | WriterDone

  /** One websocket connection. `answer` remembers where in `inbox` the client's sync
      step two stands; `slot` is the oneshot from reader to writer, `forwarded` says that
      its sender has been taken; `missed` collects what a lagging receiver lost; `since` is
      how many updates had been lost when the writer last read the log. */
  datatype Conn = Conn(client: nat, chan: nat, pos: nat,
                       hot: bool, reader: Reader, forwarded: bool, slot: Option<map<nat, nat>>,
                       writer: Writer,
                       inbox: seq<InMsg>, consumed: nat, answer: Option<nat>,
                       out: seq<OutMsg>, delivered: nat,
                       missed: set<Bcast>, since: nat)

  /** `chans` holds one broadcast log per topic-scoped state ever created; `lost` lists
      the updates that were persisted but whose broadcast failed or was never attempted. */
  datatype State = State(clients: map<nat, Client>, conns: seq<Conn>,
                         log: Log, dels: set<Id>,
                         chans: seq<seq<Bcast>>, lost: seq<Bcast>)

  predicate Init(s: State) {
    && s.conns == [] && s.log == map[] && s.dels == {} && s.chans == [] && s.lost == []
    && forall c :: c in s.clients ==> s.clients[c] == Client(0, {}, {}, {}, false, false, None)
  }

  /** A connection holds its channel open for as long as its writer keeps its receiver. */
  predicate Listening(s: State, ch: nat) {
    exists k :: 0 <= k < |s.conns| && s.conns[k].chan == ch && s.conns[k].writer != WriterDone
  }

  predicate AnyListening(s: State) {
    exists k :: 0 <= k < |s.conns| && s.conns[k].writer != WriterDone
  }

  /** What a state vector may claim: only elements the document holds. */
  predicate SoundVector(c: nat, cl: Client, sv: map<nat, nat>) {
    forall d, x :: d in sv && 0 <= x < sv[d] ==> Id(d, x) in cl.known || (d == c && x < cl.n)
  }

  // ---------- steps ----------

  datatype Step =
    // client side
    | Connect(c: nat, sv: map<nat, nat>, freshChannel: bool)
    | Edit(c: nat, count: nat, deleted: set<Id>)
    | Deliver(c: nat, reported: set<Id>)
    // reader task of connection k
    | Take(k: nat)
    | ReadMax(k: nat)
    | WriteOp(k: nat)
    | WriteDels(k: nat)
    | Broadcast(k: nat)
    | ReaderError(k: nat, applied: bool)
    | StopReader(k: nat)
    // writer task of connection k
    | SendStep1(k: nat)
    | TakeVector(k: nat)
    | ReadOps(k: nat)
    | ReadDels(k: nat)
    | Receive(k: nat)
    | Lag(k: nat, count: nat)
    | StopWriter(k: nat)

  predicate OnConn(s: State, k: nat) { k < |s.conns| }

  predicate HasCurrent(s: State, c: nat) {
    c in s.clients && s.clients[c].conn.Some? && s.clients[c].conn.value < |s.conns|
  }

  predicate HasClocks(p: Payload) { p.lo < p.hi }

  predicate Enabled(s: State, st: Step) {
    match st
    case Connect(c, sv, freshChannel) =>
      && c in s.clients && SoundVector(c, s.clients[c], sv)
      // the broker hands out the live channel while some receiver keeps it live
      && (freshChannel ==> !AnyListening(s)) && (!freshChannel ==> |s.chans| > 0)
    case Edit(c, count, deleted) => HasCurrent(s, c)
    case Deliver(c, reported) =>
      && HasCurrent(s, c)
      && var cl := s.clients[c]; var cn := s.conns[cl.conn.value];
      && cn.delivered < |cn.out|
      // a full document diff carries every deletion made here and no unknown one
      && (cn.out[cn.delivered].ServerStep1? ==> cl.own <= reported <= cl.dels)
    case Take(k) =>
      OnConn(s, k) && s.conns[k].reader.Idle? && s.conns[k].consumed < |s.conns[k].inbox|
    case ReadMax(k) => OnConn(s, k) && s.conns[k].reader.Parsed?
    case WriteOp(k) => OnConn(s, k) && s.conns[k].reader.ReadLast?
    case WriteDels(k) => OnConn(s, k) && s.conns[k].reader.WroteOp?
    case Broadcast(k) => OnConn(s, k) && s.conns[k].reader.WroteDels? && s.conns[k].chan < |s.chans|
    case ReaderError(k, applied) =>
      OnConn(s, k) && var r := s.conns[k].reader; r.Parsed? || r.ReadLast? || r.WroteOp?
    case StopReader(k) => OnConn(s, k) && s.conns[k].reader.Idle?
    case SendStep1(k) => OnConn(s, k) && s.conns[k].writer.Starting?
    case TakeVector(k) => OnConn(s, k) && s.conns[k].writer.AwaitingVector? && s.conns[k].slot.Some?
    case ReadOps(k) => OnConn(s, k) && s.conns[k].writer.Serving?
    case ReadDels(k) => OnConn(s, k) && s.conns[k].writer.GotOps?
    case Receive(k) =>
      && OnConn(s, k) && s.conns[k].writer.Hot?
      && s.conns[k].chan < |s.chans| && s.conns[k].pos < |s.chans[s.conns[k].chan]|
    case Lag(k, count) =>
      && OnConn(s, k) && s.conns[k].writer.Hot?
      && s.conns[k].chan < |s.chans| && s.conns[k].pos + count <= |s.chans[s.conns[k].chan]|
    case StopWriter(k) => OnConn(s, k)
  }

  function SetConn(s: State, k: nat, cn: Conn): State
    requires k < |s.conns|
  {
    s.(conns := s.conns[k := cn])
  }

  // ---------- what a client does to its document ----------

  function Min(a: nat, b: nat): nat { if a < b then a else b }

  /** The client's answer to the server's vector: everything of its own at or above it. */
  function Answer(cl: Client, next: nat, reported: set<Id>): Payload {
    Payload(Min(cl.n, next), cl.n, reported)
  }

  function Edited(cl: Client, count: nat, deleted: set<Id>): Client {
    cl.(n := cl.n + count, own := cl.own + deleted, dels := cl.dels + deleted)
  }

  function GotStep2(cl: Client, ids: set<Id>, dels: set<Id>): Client {
    cl.(known := cl.known + ids, dels := cl.dels + dels, receivedStep2 := true)
  }

  /** An update that comes before the server's sync step two is ignored. */
  function GotUpdate(cl: Client, ids: set<Id>, dels: set<Id>): Client {
    if cl.receivedStep2 then cl.(known := cl.known + ids, dels := cl.dels + dels) else cl
  }

  /** The handshake flags start over with each connection; the document is kept. */
  function HandshakeReset(cl: Client): Client {
    cl.(receivedStep2 := false, sentStep2 := false)
  }

  // ---------- the effect of each step ----------

  /** Open a connection: register with the broker, start both tasks, and let the client
      send its sync step one. The handshake flags start over. */
  function DoConnect(s: State, c: nat, sv: map<nat, nat>, freshChannel: bool): State
    requires Enabled(s, Connect(c, sv, freshChannel))
  {
    var chans := if freshChannel then s.chans + [[]] else s.chans;
    var ch := |chans| - 1;
    var cn := Conn(c, ch, |chans[ch]|, false, Idle, false, None, Starting,
                   [ClientStep1(sv)], 0, None, [], 0, {}, |s.lost|);
    var cl := HandshakeReset(s.clients[c]).(conn := Some(|s.conns|));
    s.(clients := s.clients[c := cl], conns := s.conns + [cn], chans := chans)
  }

  /** A local edit: some new clocks, some deletions, and one update message. */
  function DoEdit(s: State, c: nat, count: nat, deleted: set<Id>): State
    requires Enabled(s, Edit(c, count, deleted))
  {
    var cl := s.clients[c];
    var k := cl.conn.value;
    var cn := s.conns[k];
    var p := Payload(cl.n, cl.n + count, deleted);
    var s1 := SetConn(s, k, cn.(inbox := cn.inbox + [ClientUpdate(p)]));
    s1.(clients := s.clients[c := Edited(cl, count, deleted)])
  }

  function DoDeliver(s: State, c: nat, reported: set<Id>): State
    requires Enabled(s, Deliver(c, reported))
  {
    var cl := s.clients[c];
    var k := cl.conn.value;
    var cn := s.conns[k];
    var cn1 := cn.(delivered := cn.delivered + 1);
    match cn.out[cn.delivered]
    case ServerStep1(next) =>
      var cn2 := cn1.(answer := Some(|cn.inbox|),
                      inbox := cn.inbox + [ClientStep2(Answer(cl, next, reported))]);
      SetConn(s, k, cn2).(clients := s.clients[c := cl.(sentStep2 := true)])
    case ServerStep2(ids, dels) =>
      SetConn(s, k, cn1).(clients := s.clients[c := GotStep2(cl, ids, dels)])
    case ServerUpdate(from, p) =>
      SetConn(s, k, cn1).(clients := s.clients[c := GotUpdate(cl, Ids(from, p), p.dels)])
  }

  /** The reader's two phases: a vector is forwarded once; before the client's sync step
      two updates are skipped, after it further sync step twos are. */
  function TakeMsg(cn: Conn): Conn
    requires cn.consumed < |cn.inbox|
  {
    var cn1 := cn.(consumed := cn.consumed + 1);
    match cn.inbox[cn.consumed]
    case ClientStep1(sv) => if cn.forwarded then cn1 else cn1.(forwarded := true, slot := Some(sv))
    case ClientStep2(p) => if cn.hot then cn1 else cn1.(hot := true, reader := Parsed(p))
    case ClientUpdate(p) => if cn.hot then cn1.(reader := Parsed(p)) else cn1
  }

  /** `read_last_received_offset`, skipped when the update has no clocks of this client. */
  ghost function DoReadMax(s: State, k: nat): State
    requires Enabled(s, ReadMax(k))
  {
    var cn := s.conns[k];
    var p := cn.reader.p;
    SetConn(s, k, cn.(reader := if HasClocks(p) then ReadLast(p, Last(s.log, cn.client)) else WroteOp(p, false)))
  }

  predicate IsNewer(r: Reader)
    requires r.ReadLast?
  {
    r.last.None? || r.last.value + 1 < r.p.hi
  }

  function RowKey(c: nat, p: Payload): OpKey {
    OpKey(c, if p.hi == 0 then 0 else p.hi - 1)
  }

  function DoWriteOp(s: State, k: nat): State
    requires Enabled(s, WriteOp(k))
  {
    var cn := s.conns[k];
    var p := cn.reader.p;
    if IsNewer(cn.reader) then
      SetConn(s, k, cn.(reader := WroteOp(p, true))).(log := Insert(s.log, RowKey(cn.client, p), p))
    else
      SetConn(s, k, cn.(reader := WroteOp(p, false)))
  }

  function DoWriteDels(s: State, k: nat): State
    requires Enabled(s, WriteDels(k))
  {
    var cn := s.conns[k];
    var r := cn.reader;
    SetConn(s, k, cn.(reader := WroteDels(r.p, r.persisted, !(r.p.dels <= s.dels)))).(dels := s.dels + r.p.dels)
  }

  /** Broadcast what was novel. A send on a channel nobody listens to fails and ends the
      reader. */
  function DoBroadcast(s: State, k: nat): State
    requires Enabled(s, Broadcast(k))
  {
    var cn := s.conns[k];
    var r := cn.reader;
    var b := Bcast(cn.client, r.p);
    if !r.persisted && !r.novel then SetConn(s, k, cn.(reader := Idle))
    else if Listening(s, cn.chan) then
      SetConn(s, k, cn.(reader := Idle)).(chans := s.chans[cn.chan := s.chans[cn.chan] + [b]])
    else
      SetConn(s, k, cn.(reader := ReaderDone)).(lost := s.lost + [b])
  }

  /** A repository call fails, with its effect applied or not: the reader ends. What it
      had persisted by then is never broadcast. */
  function DoReaderError(s: State, k: nat, applied: bool): State
    requires Enabled(s, ReaderError(k, applied))
  {
    var cn := s.conns[k];
    var b := Bcast(cn.client, cn.reader.p);
    var s1 := SetConn(s, k, cn.(reader := ReaderDone));
    match cn.reader
    case ReadLast(p, last) =>
      if applied && IsNewer(cn.reader)
      then s1.(log := Insert(s.log, RowKey(cn.client, p), p), lost := s.lost + [b]) else s1
    case WroteOp(p, persisted) =>
      if applied then s1.(dels := s.dels + p.dels, lost := s.lost + [b])
      else if persisted then s1.(lost := s.lost + [b]) else s1
    case _ => s1
  }

  ghost function DoSendStep1(s: State, k: nat): State
    requires Enabled(s, SendStep1(k))
  {
    var cn := s.conns[k];
    SetConn(s, k, cn.(writer := AwaitingVector, out := cn.out + [ServerStep1(Top(s.log, cn.client))]))
  }

  function DoTakeVector(s: State, k: nat): State
    requires Enabled(s, TakeVector(k))
  {
    var cn := s.conns[k];
    SetConn(s, k, cn.(writer := Serving(cn.slot.value), slot := None))
  }

  function DoReadOps(s: State, k: nat): State
    requires Enabled(s, ReadOps(k))
  {
    var cn := s.conns[k];
    var sv := cn.writer.sv;
    SetConn(s, k, cn.(writer := GotOps(IdsAfter(s.log, sv), DelsAfter(s.log, sv)), since := |s.lost|))
  }

  /** Read the topic's deletions and send the merged sync step two. */
  function DoReadDels(s: State, k: nat): State
    requires Enabled(s, ReadDels(k))
  {
    var cn := s.conns[k];
    var w := cn.writer;
    SetConn(s, k, cn.(writer := Hot, out := cn.out + [ServerStep2(w.ids, w.dels + s.dels)]))
  }

  /** Pass one broadcast on, unless this client sent it. */
  function DoReceive(s: State, k: nat): State
    requires Enabled(s, Receive(k))
  {
    var cn := s.conns[k];
    var b := s.chans[cn.chan][cn.pos];
    var cn1 := cn.(pos := cn.pos + 1);
    SetConn(s, k, if b.sender == cn.client then cn1 else cn1.(out := cn.out + [ServerUpdate(b.sender, b.p)]))
  }

  function DoLag(s: State, k: nat, count: nat): State
    requires Enabled(s, Lag(k, count))
  {
    var cn := s.conns[k];
    var skipped := s.chans[cn.chan][cn.pos..cn.pos + count];
    SetConn(s, k, cn.(pos := cn.pos + count, missed := cn.missed + (set b | b in skipped)))
  }

  ghost function Do(s: State, st: Step): State
    requires Enabled(s, st)
  {
    match st
    case Connect(c, sv, freshChannel) => DoConnect(s, c, sv, freshChannel)
    case Edit(c, count, deleted) => DoEdit(s, c, count, deleted)
    case Deliver(c, reported) => DoDeliver(s, c, reported)
    case Take(k) => SetConn(s, k, TakeMsg(s.conns[k]))
    case ReadMax(k) => DoReadMax(s, k)
    case WriteOp(k) => DoWriteOp(s, k)
    case WriteDels(k) => DoWriteDels(s, k)
    case Broadcast(k) => DoBroadcast(s, k)
    case ReaderError(k, applied) => DoReaderError(s, k, applied)
    case StopReader(k) => SetConn(s, k, s.conns[k].(reader := ReaderDone))
    case SendStep1(k) => DoSendStep1(s, k)
    case TakeVector(k) => DoTakeVector(s, k)
    case ReadOps(k) => DoReadOps(s, k)
    case ReadDels(k) => DoReadDels(s, k)
    case Receive(k) => DoReceive(s, k)
    case Lag(k, count) => DoLag(s, k, count)
    case StopWriter(k) => SetConn(s, k, s.conns[k].(writer := WriterDone))
  }

  /** A run: an initial state and one enabled step between any two neighbours. */
  ghost predicate IsRun(run: seq<State>, steps: seq<Step>) {
    && |run| == |steps| + 1 && Init(run[0])
    && forall i :: 0 <= i < |steps| ==> Enabled(run[i], steps[i]) && run[i + 1] == Do(run[i], steps[i])
  }
}
