/** The operation log of one topic: what the rows of the `operations` table mean.
    A row is keyed by its client and by the inclusive upper clock of its payload. */
module OpLog {
  import opened Wrappers

  /** One element of a document: the client that created it, and that client's clock. */
  datatype Id = Id(client: nat, clock: nat)

  /** What an update message says on behalf of its sender: the sender's clocks
      `[lo, hi)` and a delete set over anybody's elements. */
  datatype Payload = Payload(lo: nat, hi: nat, dels: set<Id>)

  datatype OpKey = OpKey(client: nat, offset: nat)

  type Log = map<OpKey, Payload>

  function Ids(c: nat, p: Payload): set<Id> {
    set x | p.lo <= x < p.hi :: Id(c, x)
  }

  /** `INSERT ... ON CONFLICT DO NOTHING`: the first write of a key wins. */
  function Insert(log: Log, key: OpKey, p: Payload): (log': Log)
    ensures forall k :: k in log ==> k in log' && log'[k] == log[k]
    ensures key in log' && (key !in log ==> log'[key] == p)
    ensures forall k :: k in log' ==> k in log || k == key
  {
    if key in log then log else log[key := p]
  }

  function Offsets(log: Log, c: nat): set<nat> {
    set k | k in log && k.client == c :: k.offset
  }

  /** The greatest element of a set: SQL's MAX, which is null on no rows. */
  ghost function MaxOf(s: set<nat>): (m: Option<nat>)
    ensures m.None? <==> s == {}
    ensures m.Some? ==> m.value in s && forall x :: x in s ==> x <= m.value
  {
    if s == {} then None
    else
      var x :| x in s;
      var rest := MaxOf(s - {x});
      assert s == s - {x} + {x};
      if rest.Some? && x < rest.value then rest else Some(x)
  }

  /** `SELECT MAX(operation_offset)` for one client of the topic. */
  ghost function Last(log: Log, c: nat): (m: Option<nat>)
    ensures m.Some? ==> OpKey(c, m.value) in log
    ensures forall k :: k in log && k.client == c ==> m.Some? && k.offset <= m.value
  {
    var m := MaxOf(Offsets(log, c));
    assert forall k :: k in log && k.client == c ==> k.offset in Offsets(log, c);
    m
  }

  /** The exclusive end of the stored clocks: the offset the server expects next. */
  ghost function Top(log: Log, c: nat): nat {
    var m := Last(log, c);
    if m.Some? then m.value + 1 else 0
  }

  ghost predicate Stored(log: Log, c: nat, x: nat) {
    exists k :: k in log && k.client == c && log[k].lo <= x < log[k].hi
  }

  /** A row is keyed by the inclusive upper clock of a payload that has clocks. */
  ghost predicate WellKeyed(log: Log) {
    forall k :: k in log ==> log[k].lo < log[k].hi == k.offset + 1
  }

  /** Every clock up to the stored maximum is in some row. */
  ghost predicate NoHoles(log: Log) {
    forall c, x :: 0 <= x < Top(log, c) ==> Stored(log, c, x)
  }

  lemma TopGrows(log: Log, log': Log, c: nat)
    requires forall k :: k in log ==> k in log'
    ensures Top(log, c) <= Top(log', c)
  {
  }

  lemma TopAbove(log: Log, k: OpKey)
    requires k in log
    ensures k.offset < Top(log, k.client)
  {
  }

  lemma TopAfterInsert(log: Log, log': Log, c: nat, offset: nat, p: Payload)
    requires log' == Insert(log, OpKey(c, offset), p)
    ensures Top(log', c) == if Top(log, c) <= offset then offset + 1 else Top(log, c)
  {
    TopAbove(log', OpKey(c, offset));
    TopGrows(log, log', c);
    var last := OpKey(c, Last(log', c).value);
    assert last in log';
    if last in log { TopAbove(log, last); }
  }

  /** Inserting a payload that starts no later than the expected offset opens no hole,
      whether the row is new, lies below the maximum, or conflicts with a stored key. */
  lemma InsertKeepsNoHoles(log: Log, c: nat, p: Payload)
    requires WellKeyed(log) && NoHoles(log)
    requires p.lo < p.hi && p.lo <= Top(log, c)
    ensures var log' := Insert(log, OpKey(c, p.hi - 1), p);
            WellKeyed(log') && NoHoles(log') && p.hi <= Top(log', c)
  {
    var key := OpKey(c, p.hi - 1);
    var log' := Insert(log, key, p);
    TopAbove(log', key);
    forall d, x | 0 <= x < Top(log', d)
      ensures Stored(log', d, x)
    {
      if x < Top(log, d) {
        assert Stored(log, d, x);
        var k :| k in log && k.client == d && log[k].lo <= x < log[k].hi;
        assert k in log' && log'[k] == log[k];
      } else {
        var m := Last(log', d).value;
        assert OpKey(d, m) in log';
        assert OpKey(d, m) == key;
        assert log'[key] == p;
      }
    }
  }

  /** The rows an up-to-date writer reads for a state vector: clients the vector does
      not name, and offsets at or above the vector's exclusive bound. */
  predicate Chosen(sv: map<nat, nat>, k: OpKey) {
    k.client in sv ==> k.offset >= sv[k.client]
  }

  function IdsAfter(log: Log, sv: map<nat, nat>): (ids: set<Id>)
    ensures forall k :: k in log && Chosen(sv, k) ==> Ids(k.client, log[k]) <= ids
    ensures forall i :: i in ids ==>
              exists k :: k in log && Chosen(sv, k) && i in Ids(k.client, log[k])
  {
    set k, x | k in log && Chosen(sv, k) && log[k].lo <= x < log[k].hi :: Id(k.client, x)
  }

  function DelsAfter(log: Log, sv: map<nat, nat>): (dels: set<Id>)
    ensures forall i :: i in dels <==> exists k :: k in log && Chosen(sv, k) && i in log[k].dels
  {
    set k, i | k in log && Chosen(sv, k) && i in log[k].dels :: i
  }

  /** Sync step two is complete and gap-free: for any state vector, the chosen rows carry
      every stored clock at or above the vector, so a document that holds the vector's
      prefix holds every clock below the stored maximum once they are applied. */
  lemma StepTwoComplete(log: Log, sv: map<nat, nat>, c: nat, x: nat)
    requires WellKeyed(log) && NoHoles(log)
    requires x < Top(log, c) && (c in sv ==> sv[c] <= x)
    ensures Id(c, x) in IdsAfter(log, sv)
  {
    assert Stored(log, c, x);
    var k :| k in log && k.client == c && log[k].lo <= x < log[k].hi;
    assert Chosen(sv, k);
    assert Id(c, x) in Ids(c, log[k]);
  }

  /** A row that is not chosen holds nothing at or above the vector, and a chosen row is
      needed: its highest clock is at or above it. */
  lemma StepTwoPrecise(log: Log, sv: map<nat, nat>, k: OpKey)
    requires WellKeyed(log) && k in log
    ensures Chosen(sv, k) <==>
            exists i :: i in Ids(k.client, log[k]) && (k.client in sv ==> sv[k.client] <= i.clock)
  {
    if Chosen(sv, k) {
      assert Id(k.client, k.offset) in Ids(k.client, log[k]);
    }
  }
}
