/** The client: its document, its two handshake flags, and its answers to the server. */
module DocumentClient {
  import opened Wrappers
  import opened OpLog
  import opened SyncProtocol

  function Later(items: set<Id>, d: nat, x: nat): set<Id> {
    set i | i in items && i.client == d && i.clock >= x
  }

  /** The first clock of client `d` that a set of elements lacks, from `x` on. */
  function Prefix(items: set<Id>, d: nat, x: nat): (n: nat)
    ensures x <= n && Id(d, n) !in items
    ensures forall y :: x <= y < n ==> Id(d, y) in items
    decreases Later(items, d, x)
  {
    if Id(d, x) in items then
      assert Id(d, x) in Later(items, d, x) && Later(items, d, x + 1) <= Later(items, d, x);
      Prefix(items, d, x + 1)
    else x
  }

  function VectorGet(sv: map<nat, nat>, d: nat): nat { if d in sv then sv[d] else 0 }

  /** `set_min`: lower an entry, or insert it. */
  function SetMin(sv: map<nat, nat>, d: nat, clock: nat): map<nat, nat> {
    sv[d := if d in sv then Min(sv[d], clock) else clock]
  }

  /** `encode_diff`: the integrated elements at or above a vector. What waits for a missing
      element is not part of a diff. */
  function EncodeDiff(items: set<Id>, sv: map<nat, nat>): set<Id> {
    set i | i in items && VectorGet(sv, i.client) <= i.clock < Prefix(items, i.client, 0)
  }

  datatype SyncMessage =
    | SyncStep1(sv: map<nat, nat>)
    | SyncStep2(ids: set<Id>, dels: set<Id>)
    | Update(ids: set<Id>, dels: set<Id>)

  class DocumentState {
    const client: nat
    var n: nat
    var remote: set<Id>
    var own: set<Id>
    var dels: set<Id>
    var receivedServerSyncStepTwo: bool
    var sentClientSyncStepTwo: bool
    var countHandshake: nat
    var countUpdates: nat
    var countApplied: nat
    var countLocal: nat

    function OwnItems(): set<Id>
      reads this
    {
      set x | 0 <= x < n :: Id(client, x)
    }

    function Items(): set<Id>
      reads this
    {
      remote + OwnItems()
    }

    /** The document holds nobody's idea of its own future, and its own deletions. */
    ghost predicate Valid()
      reads this
    {
      && own <= dels
      && forall i :: i in remote && i.client == client ==> i.clock < n
    }

    /** The client record of the protocol; connections are the protocol's business. */
    function View(conn: Option<nat>): Client
      reads this
    {
      Client(n, remote, own, dels, receivedServerSyncStepTwo, sentClientSyncStepTwo, conn)
    }

    constructor (client: nat)
      ensures Valid() && this.client == client
      ensures View(None) == Client(0, {}, {}, {}, false, false, None)
    {
      this.client := client;
      n, remote, own, dels := 0, {}, {}, {};
      receivedServerSyncStepTwo, sentClientSyncStepTwo := false, false;
      countHandshake, countUpdates, countApplied, countLocal := 0, 0, 0, 0;
    }

    method ResetHandshakeState()
      requires Valid()
      modifies this`receivedServerSyncStepTwo, this`sentClientSyncStepTwo
      ensures Valid()
      ensures forall conn :: View(conn) == HandshakeReset(old(View(conn)))
    {
      receivedServerSyncStepTwo := false;
      sentClientSyncStepTwo := false;
    }

    /** The state vector: for every client with elements, the end of its gap-free prefix. */
    method StateVector() returns (sv: map<nat, nat>)
      ensures forall d :: d in sv <==> exists i :: i in Items() && i.client == d
      ensures forall d :: d in sv ==> sv[d] == Prefix(Items(), d, 0)
    {
      sv := map[];
      var todo := Items();
      while todo != {}
        invariant todo <= Items()
        invariant forall d :: d in sv <==> exists i :: i in Items() - todo && i.client == d
        invariant forall d :: d in sv ==> sv[d] == Prefix(Items(), d, 0)
        decreases |todo|
      {
        var i :| i in todo;
        ghost var before := sv;
        sv := sv[i.client := Prefix(Items(), i.client, 0)];
        forall d ensures d in sv <==> exists j :: j in Items() - (todo - {i}) && j.client == d {
          if d in before { var j :| j in Items() - todo && j.client == d; assert j in Items() - (todo - {i}); }
          if d == i.client { assert i in Items() - (todo - {i}); }
        }
        todo := todo - {i};
      }
      assert Items() - {} == Items();
    }

    /** Sync step one claims nothing the document lacks, and as much as has no gap. */
    method MakeClientSyncStepOne() returns (m: SyncMessage)
      ensures m.SyncStep1?
      ensures forall conn :: SoundVector(client, View(conn), m.sv)
      ensures forall d :: Id(d, VectorGet(m.sv, d)) !in Items()
    {
      var sv := StateVector();
      forall d, x | d in sv && 0 <= x < sv[d] ensures Id(d, x) in remote || (d == client && x < n) {
        assert Id(d, x) in Items();
      }
      forall d ensures Id(d, VectorGet(sv, d)) !in Items() {
        if d !in sv && Id(d, 0) in Items() { assert false; }
      }
      m := SyncStep1(sv);
    }

    /** The answer to the server's vector, built the roundabout way: take the own vector,
        lower one entry to the server's, and encode the difference. */
    method AnswerServerStep1(remoteSv: map<nat, nat>) returns (m: SyncMessage)
      requires Valid()
      modifies this`sentClientSyncStepTwo, this`countHandshake
      ensures Valid()
      ensures forall conn :: View(conn) == old(View(conn)).(sentStep2 := true)
      ensures m.SyncStep2? && m.dels == dels
      ensures m.ids == Ids(client, Answer(View(None), VectorGet(remoteSv, client), dels))
      // just what the server lacks: the own elements from the server's offset on
      ensures forall i :: i in m.ids <==>
                i.client == client && (if client in remoteSv then remoteSv[client] else 0) <= i.clock < n
    {
      countHandshake := countHandshake + 1;
      var sv := StateVector();
      var next := VectorGet(remoteSv, client);
      m := SyncStep2(EncodeDiff(Items(), SetMin(sv, client, next)), dels);
      sentClientSyncStepTwo := true;
      forall i
        ensures i in m.ids <==> i in Ids(client, Answer(View(None), next, dels))
        ensures i in m.ids <==> i.client == client && next <= i.clock < n
      {
        DiffIsAnswer(sv, next, i);
      }
    }

    /** The vector hides what others created, and of the own elements those that the server has. */
    lemma DiffIsAnswer(sv: map<nat, nat>, next: nat, i: Id)
      requires Valid() && (forall d :: d in sv ==> sv[d] == Prefix(Items(), d, 0))
      requires i in Items() ==> i.client in sv
      ensures i in EncodeDiff(Items(), SetMin(sv, client, next)) <==> i in Ids(client, Answer(View(None), next, dels))
      ensures i in EncodeDiff(Items(), SetMin(sv, client, next)) <==> i.client == client && next <= i.clock < n
    {
      OwnPrefix();
      assert i.client == client ==> (i in Items() <==> i.clock < n);
    }

    lemma OwnPrefix()
      requires Valid()
      ensures Prefix(Items(), client, 0) == n
    {
      var p := Prefix(Items(), client, 0);
      assert Id(client, p) in OwnItems() <==> p < n;
      assert Id(client, n) !in Items();
    }

    /** What the server sends: its vector is answered, its sync step two is applied, and an
        update is applied once that has been received. */
    method ReceiveSyncMessage(m: SyncMessage) returns (answer: Option<SyncMessage>)
      requires Valid()
      // the protocol's invariant: nobody is sent an element its creator has not created
      requires !m.SyncStep1? ==> forall i :: i in m.ids && i.client == client ==> i.clock < n
      modifies this
      ensures Valid()
      ensures answer.Some? <==> m.SyncStep1?
      ensures m.SyncStep1? ==>
                && (forall conn :: View(conn) == old(View(conn)).(sentStep2 := true))
                && answer.value == SyncStep2(Ids(client, Answer(View(None), VectorGet(m.sv, client), dels)), dels)
                && forall i :: i in answer.value.ids <==>
                     i.client == client && (if client in m.sv then m.sv[client] else 0) <= i.clock < n
      ensures m.SyncStep2? ==> forall conn :: View(conn) == GotStep2(old(View(conn)), m.ids, m.dels)
      ensures m.Update? ==> forall conn :: View(conn) == GotUpdate(old(View(conn)), m.ids, m.dels)
    {
      match m {
        case SyncStep1(remoteSv) =>
          var a := AnswerServerStep1(remoteSv);
          answer := Some(a);
        case SyncStep2(ids, ds) =>
          countHandshake := countHandshake + 1;
          remote, dels := remote + ids, dels + ds;
          receivedServerSyncStepTwo := true;
          answer := None;
        case Update(ids, ds) =>
          answer := None;
          countUpdates := countUpdates + 1;
          if !receivedServerSyncStepTwo { return; }
          countApplied := countApplied + 1;
          remote, dels := remote + ids, dels + ds;
      }
    }

    /** A local edit: new elements at the end of the own clocks, deletions, one update. */
    method ReceiveOperationEvent(count: nat, deleted: set<Id>) returns (m: SyncMessage)
      requires Valid()
      modifies this
      ensures Valid()
      ensures forall conn :: View(conn) == Edited(old(View(conn)), count, deleted)
      ensures m == Update(Ids(client, Payload(old(n), old(n) + count, deleted)), deleted)
    {
      m := Update(set x | n <= x < n + count :: Id(client, x), deleted);
      countLocal := countLocal + 1;
      n := n + count;
      own, dels := own + deleted, dels + deleted;
    }
  }
}
