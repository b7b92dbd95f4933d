/** The invariant of the broker's topic cache, and that every step keeps it. */
module BrokerInvariant {
  import opened Wrappers
  import opened Broker

  predicate HasTopicsLock(pc: Pc) { pc.Missed? || pc.HoldsBoth? || pc.Publishing? }
  predicate HasFlightLock(pc: Pc) { pc.HoldsBoth? || pc.Removing? }

  /** Between winning the cell's permit and filling the cell. */
  predicate PastAcquire(pc: Pc) {
    pc.Subscribing? || pc.Created? || pc.Publishing? || pc.Published? || pc.Removing? || pc.Removed?
  }

  predicate HasPermit(pc: Pc, c: nat) { PastAcquire(pc) && pc.cell == c }

  /** A strong pointer to a state that has been in the topics map. */
  predicate PublicPc(pc: Pc, st: nat) {
    HoldsState(pc, st) && !pc.Created? && !pc.Publishing?
  }

  predicate Public(b: State, st: nat) {
    || (exists i :: 0 <= i < |b.tasks| && PublicPc(b.tasks[i].pc, st))
    || (exists c :: 0 <= c < |b.cells| && b.cells[c].value == Some(st) && CellReferenced(b, c))
  }

  ghost predicate NoPublic(b: State, t: nat) {
    forall st :: 0 <= st < |b.states| && b.states[st] == t ==> !Public(b, st)
  }

  predicate IsState(b: State, st: nat, t: nat) { st < |b.states| && b.states[st] == t }
  predicate IsCell(b: State, c: nat, t: nat) { c < |b.cells| && b.cells[c].topic == t }

  ghost predicate TaskOk(b: State, i: nat)
    requires i < |b.tasks|
  {
    var t, pc := b.tasks[i].topic, b.tasks[i].pc;
    && (HasTopicsLock(pc) <==> b.topicsLock == Some(i))
    && (HasFlightLock(pc) <==> b.flightLock == Some(i))
    && (CellOf(pc).Some? ==> IsCell(b, CellOf(pc).value, t))
    && (PastAcquire(pc) ==> b.cells[pc.cell].holder == Some(i))
    && (StateOf(pc).Some? ==> IsState(b, StateOf(pc).value, t))
    && (pc.SenderOnly? ==> IsState(b, pc.st, t))
    // the one who looked in vain, and the one who builds, find nobody else's state live
    && (pc.Missed? ==> NoPublic(b, t))
    && (pc.Created? || pc.Publishing? ==> NoPublic(b, t) && !(t in b.topics && b.topics[t] == pc.st))
    && (pc.Published? || pc.Removing? || pc.Removed? ==> t in b.topics && b.topics[t] == pc.st)
  }

  ghost predicate CellOk(b: State, c: nat)
    requires c < |b.cells|
  {
    var cell := b.cells[c];
    && (cell.value.Some? ==> cell.holder.None? && IsState(b, cell.value.value, cell.topic))
    && (cell.holder.Some? ==> cell.holder.value < |b.tasks| && HasPermit(b.tasks[cell.holder.value].pc, c))
    // it stays in flight until the one with the permit removes it
    && (InFlight(b, c) <==>
          cell.value.None? && !(cell.holder.Some? && b.tasks[cell.holder.value].pc.Removed?))
  }

  predicate InFlight(b: State, c: nat)
    requires c < |b.cells|
  {
    b.cells[c].topic in b.inFlight && b.inFlight[b.cells[c].topic] == c
  }

  /** While a cell is in flight, no state of its topic is live but one just published. */
  ghost predicate FlightOk(b: State, t: nat)
    requires t in b.inFlight
  {
    var c := b.inFlight[t];
    && IsCell(b, c, t)
    && (NoPublic(b, t) ||
        (b.cells[c].holder.Some? && b.cells[c].holder.value < |b.tasks| &&
         var pc := b.tasks[b.cells[c].holder.value].pc; pc.Published? || pc.Removing?))
  }

  ghost predicate PublicOk(b: State) {
    forall st: nat :: Public(b, st) ==> st < |b.states| && b.states[st] in b.topics && b.topics[b.states[st]] == st
  }

  ghost predicate LocksOk(b: State) {
    && (b.topicsLock.Some? ==> b.topicsLock.value < |b.tasks|)
    && (b.flightLock.Some? ==> b.flightLock.value < |b.tasks|)
  }

  ghost predicate Inv(b: State) {
    && (forall i :: 0 <= i < |b.tasks| ==> TaskOk(b, i))
    && (forall c :: 0 <= c < |b.cells| ==> CellOk(b, c))
    && (forall t :: t in b.inFlight ==> FlightOk(b, t))
    && (forall t :: t in b.topics ==> IsState(b, b.topics[t], t))
    && PublicOk(b) && LocksOk(b)
  }

  // ---------- which states are public after a step ----------

  ghost predicate OnlyTask(b: State, b': State, i: nat) {
    && i < |b.tasks| && |b'.tasks| == |b.tasks|
    && b'.tasks[i].topic == b.tasks[i].topic
    && (forall j :: 0 <= j < |b.tasks| && j != i ==> b'.tasks[j] == b.tasks[j])
    && b.states <= b'.states
    && |b.cells| <= |b'.cells|
    && (forall c :: 0 <= c < |b.cells| ==> b'.cells[c].topic == b.cells[c].topic)
  }

  /** Nothing comes to refer to a filled cell, and a cell is filled only with what its filler holds. */
  ghost predicate NoNewReference(b: State, b': State, i: nat)
    requires OnlyTask(b, b', i)
  {
    var pc' := b'.tasks[i].pc;
    && (forall c :: 0 <= c < |b.cells| ==>
          b'.cells[c].value == b.cells[c].value ||
          (b'.cells[c].value.Some? && PublicPc(pc', b'.cells[c].value.value)))
    && (forall c :: |b.cells| <= c < |b'.cells| ==> b'.cells[c].value.None?)
    && (forall t :: t in b'.inFlight ==>
          (t in b.inFlight && b'.inFlight[t] == b.inFlight[t]) || b'.inFlight[t] >= |b.cells|)
    && (forall c :: 0 <= c < |b.cells| && b.cells[c].value.Some? && HoldsCell(pc', c) ==> HoldsCell(b.tasks[i].pc, c))
  }

  /** A step of one task makes nothing public but what that task now holds. */
  lemma PublicAfter(b: State, b': State, i: nat, st: nat)
    requires OnlyTask(b, b', i) && NoNewReference(b, b', i) && Public(b', st)
    ensures Public(b, st) || PublicPc(b'.tasks[i].pc, st)
  {
    if j :| 0 <= j < |b'.tasks| && PublicPc(b'.tasks[j].pc, st) {
      if j != i { assert PublicPc(b.tasks[j].pc, st); }
    } else {
      var c :| 0 <= c < |b'.cells| && b'.cells[c].value == Some(st) && CellReferenced(b', c);
      if b.cells[c].value == b'.cells[c].value {
        if t :| t in b'.inFlight && b'.inFlight[t] == c {
          assert t in b.inFlight && b.inFlight[t] == c;
        } else {
          var j :| 0 <= j < |b'.tasks| && HoldsCell(b'.tasks[j].pc, c);
          assert HoldsCell(b.tasks[j].pc, c);
        }
        assert CellReferenced(b, c);
      }
    }
  }

  ghost predicate NothingPublished(b: State, b': State) {
    && (forall st: nat :: Public(b', st) ==> Public(b, st))
    && (forall t: nat :: NoPublic(b, t) ==> NoPublic(b', t))
  }

  lemma StaysQuiet(b: State, b': State, i: nat)
    requires OnlyTask(b, b', i) && NoNewReference(b, b', i) && PublicOk(b)
    requires var pc' := b'.tasks[i].pc;
             StateOf(pc').Some? && PublicPc(pc', StateOf(pc').value) ==> Public(b, StateOf(pc').value)
    ensures NothingPublished(b, b')
  {
    forall st: nat | Public(b', st) ensures Public(b, st) { PublicAfter(b, b', i, st); }
    forall t: nat | NoPublic(b, t) ensures NoPublic(b', t) {
      forall st: nat | st < |b'.states| && b'.states[st] == t ensures !Public(b', st) {
        assert Public(b', st) ==> Public(b, st);
      }
    }
  }

  // ---------- what the other tasks, cells and topics keep ----------

  predicate LockBy(l: Option<nat>, l': Option<nat>, i: nat) {
    l' == l || ((l.None? || l == Some(i)) && (l'.None? || l' == Some(i)))
  }

  ghost predicate OwnLocks(b: State, b': State, i: nat)
    requires OnlyTask(b, b', i)
  {
    && LockBy(b.topicsLock, b'.topicsLock, i) && LockBy(b.flightLock, b'.flightLock, i)
    && (forall c :: 0 <= c < |b.cells| ==> LockBy(b.cells[c].holder, b'.cells[c].holder, i))
  }

  lemma OtherTasks(b: State, b': State, i: nat)
    requires OnlyTask(b, b', i) && OwnLocks(b, b', i) && b'.topics == b.topics
    requires forall j :: 0 <= j < |b.tasks| ==> TaskOk(b, j)
    requires TaskOk(b', i) && NothingPublished(b, b')
    ensures forall j :: 0 <= j < |b'.tasks| ==> TaskOk(b', j)
  {
    forall j | 0 <= j < |b'.tasks| && j != i ensures TaskOk(b', j) { assert TaskOk(b, j); }
  }

  /** The task's part in `CellOk` and `FlightOk` is the same before and after. */
  predicate SameRole(pc: Pc, pc': Pc) {
    && (PastAcquire(pc) <==> PastAcquire(pc')) && (PastAcquire(pc) ==> pc.cell == pc'.cell)
    && (pc.Removed? <==> pc'.Removed?)
    && (pc.Published? || pc.Removing? ==> pc'.Published? || pc'.Removing?)
  }

  lemma CellsKept(b: State, b': State, i: nat)
    requires OnlyTask(b, b', i) && b'.cells == b.cells && b'.inFlight == b.inFlight
    requires SameRole(b.tasks[i].pc, b'.tasks[i].pc)
    requires forall c :: 0 <= c < |b.cells| ==> CellOk(b, c)
    ensures forall c :: 0 <= c < |b'.cells| ==> CellOk(b', c)
  {
    forall c | 0 <= c < |b'.cells| ensures CellOk(b', c) {
      assert CellOk(b, c);
      assert InFlight(b', c) <==> InFlight(b, c);
    }
  }

  lemma FlightsKept(b: State, b': State, i: nat)
    requires OnlyTask(b, b', i) && b'.cells == b.cells && b'.inFlight == b.inFlight
    requires SameRole(b.tasks[i].pc, b'.tasks[i].pc) && NothingPublished(b, b')
    requires forall t :: t in b.inFlight ==> FlightOk(b, t)
    ensures forall t :: t in b'.inFlight ==> FlightOk(b', t)
  {
    forall t | t in b'.inFlight ensures FlightOk(b', t) { assert FlightOk(b, t); }
  }

  lemma TablesKept(b: State, b': State, i: nat)
    requires OnlyTask(b, b', i) && OwnLocks(b, b', i) && b'.topics == b.topics
    requires LocksOk(b) && PublicOk(b) && NothingPublished(b, b')
    requires forall t :: t in b.topics ==> IsState(b, b.topics[t], t)
    ensures LocksOk(b') && PublicOk(b')
    ensures forall t :: t in b'.topics ==> IsState(b', b'.topics[t], t)
  {
  }

  /** A step that changes neither the cells nor the maps. */
  lemma OwnStep(b: State, b': State, i: nat)
    requires Inv(b) && OnlyTask(b, b', i) && OwnLocks(b, b', i)
    requires b'.topics == b.topics && b'.cells == b.cells && b'.inFlight == b.inFlight
    requires SameRole(b.tasks[i].pc, b'.tasks[i].pc) && TaskOk(b', i) && NothingPublished(b, b')
    ensures Inv(b')
  {
    OtherTasks(b, b', i);
    CellsKept(b, b', i);
    FlightsKept(b, b', i);
    TablesKept(b, b', i);
  }

  // ---------- steps that only move one task ----------

  /** Under the topics lock, a live weak pointer is one to a public state. */
  lemma LiveIsPublic(b: State, t: nat)
    requires Inv(b) && t in b.topics
    ensures Live(b, b.topics[t]) <==> Public(b, b.topics[t])
  {
    var st := b.topics[t];
    LiveMeans(b, st);
    if i :| 0 <= i < |b.tasks| && HoldsState(b.tasks[i].pc, st) {
      assert TaskOk(b, i);
      assert PublicPc(b.tasks[i].pc, st);
    }
  }

  lemma MissIsQuiet(b: State, t: nat)
    requires Inv(b) && !(t in b.topics && Live(b, b.topics[t]))
    ensures NoPublic(b, t)
  {
    if t in b.topics { LiveIsPublic(b, t); }
  }

  lemma LockTopicsInv(b: State, i: nat)
    requires Inv(b) && Enabled(b, LockTopics(i))
    ensures Inv(Do(b, LockTopics(i)))
  {
    var b', t := Do(b, LockTopics(i)), b.tasks[i].topic;
    assert TaskOk(b, i);
    if t in b.topics && Live(b, b.topics[t]) {
      LiveIsPublic(b, t);
    } else {
      MissIsQuiet(b, t);
    }
    StaysQuiet(b, b', i);
    OwnStep(b, b', i);
  }

  lemma UnlockBothInv(b: State, i: nat)
    requires Inv(b) && Enabled(b, UnlockBoth(i))
    ensures Inv(Do(b, UnlockBoth(i)))
  {
    var b' := Do(b, UnlockBoth(i));
    assert TaskOk(b, i);
    StaysQuiet(b, b', i);
    OwnStep(b, b', i);
  }

  lemma ReadCellInv(b: State, i: nat)
    requires Inv(b) && Enabled(b, ReadCell(i))
    ensures Inv(Do(b, ReadCell(i)))
  {
    var b', c := Do(b, ReadCell(i)), b.tasks[i].pc.cell;
    assert TaskOk(b, i) && CellOk(b, c);
    assert HoldsCell(b.tasks[i].pc, c);
    StaysQuiet(b, b', i);
    OwnStep(b, b', i);
  }

  lemma SubscribeOkInv(b: State, i: nat)
    requires Inv(b) && Enabled(b, SubscribeOk(i))
    ensures Inv(Do(b, SubscribeOk(i)))
  {
    var b', t := Do(b, SubscribeOk(i)), b.tasks[i].topic;
    assert TaskOk(b, i) && CellOk(b, b.tasks[i].pc.cell);
    assert FlightOk(b, t);
    StaysQuiet(b, b', i);
    assert NoPublic(b', t);
    OwnStep(b, b', i);
  }

  lemma LockPublishInv(b: State, i: nat)
    requires Inv(b) && Enabled(b, LockPublish(i))
    ensures Inv(Do(b, LockPublish(i)))
  {
    var b' := Do(b, LockPublish(i));
    assert TaskOk(b, i);
    StaysQuiet(b, b', i);
    OwnStep(b, b', i);
  }

  lemma LockRemoveInv(b: State, i: nat)
    requires Inv(b) && Enabled(b, LockRemove(i))
    ensures Inv(Do(b, LockRemove(i)))
  {
    var b' := Do(b, LockRemove(i));
    assert TaskOk(b, i);
    assert PublicPc(b.tasks[i].pc, b.tasks[i].pc.st);
    StaysQuiet(b, b', i);
    OwnStep(b, b', i);
  }

  /** Subscribing to the channel, and receiving. */
  lemma ReceiverInv(b: State, s: Step)
    requires Inv(b) && Enabled(b, s) && (s.Subscribe? || s.Receive?)
    ensures Inv(Do(b, s))
  {
    var b' := Do(b, s);
    assert TaskOk(b, s.i);
    assert PublicPc(b.tasks[s.i].pc, b.tasks[s.i].pc.st);
    StaysQuiet(b, b', s.i);
    OwnStep(b, b', s.i);
  }

  /** Dropping the receiver, then the sender. */
  lemma DropInv(b: State, s: Step)
    requires Inv(b) && Enabled(b, s) && (s.DropReceiver? || s.DropSender?)
    ensures Inv(Do(b, s))
  {
    var b' := Do(b, s);
    assert TaskOk(b, s.i);
    StaysQuiet(b, b', s.i);
    OwnStep(b, b', s.i);
  }

  // ---------- steps on the cells and the maps ----------

  lemma NewCellTables(b: State, i: nat)
    requires Inv(b) && Enabled(b, LockFlight(i)) && b.tasks[i].topic !in b.inFlight
    ensures var b' := Do(b, LockFlight(i));
            && (forall c :: 0 <= c < |b'.cells| ==> CellOk(b', c))
            && (NothingPublished(b, b') ==> forall u :: u in b'.inFlight ==> FlightOk(b', u))
  {
    var b', t := Do(b, LockFlight(i)), b.tasks[i].topic;
    assert TaskOk(b, i);
    forall c | 0 <= c < |b'.cells| ensures CellOk(b', c) {
      if c < |b.cells| { assert CellOk(b, c) && (InFlight(b', c) <==> InFlight(b, c)); }
    }
    if NothingPublished(b, b') {
      forall u | u in b'.inFlight ensures FlightOk(b', u) { if u != t { assert FlightOk(b, u); } }
    }
  }

  lemma NewCellInv(b: State, i: nat)
    requires Inv(b) && Enabled(b, LockFlight(i)) && b.tasks[i].topic !in b.inFlight
    ensures Inv(Do(b, LockFlight(i)))
  {
    var b' := Do(b, LockFlight(i));
    assert TaskOk(b, i);
    NewCellTables(b, i);
    StaysQuiet(b, b', i);
    OtherTasks(b, b', i);
    TablesKept(b, b', i);
  }

  lemma LockFlightInv(b: State, i: nat)
    requires Inv(b) && Enabled(b, LockFlight(i))
    ensures Inv(Do(b, LockFlight(i)))
  {
    var b', t := Do(b, LockFlight(i)), b.tasks[i].topic;
    if t in b.inFlight {
      assert TaskOk(b, i) && FlightOk(b, t) && CellOk(b, b.inFlight[t]);
      StaysQuiet(b, b', i);
      OwnStep(b, b', i);
    } else {
      NewCellInv(b, i);
    }
  }

  /** A step that changes one cell, and leaves the maps alone. */
  lemma CellStep(b: State, b': State, i: nat, c: nat)
    requires Inv(b) && OnlyTask(b, b', i) && OwnLocks(b, b', i)
    requires b'.topics == b.topics && b'.inFlight == b.inFlight
    requires c < |b.cells| && b'.cells == b.cells[c := b'.cells[c]]
    requires HoldsCell(b.tasks[i].pc, c) && (CellOf(b'.tasks[i].pc) in {None, Some(c)})
    requires TaskOk(b', i) && NothingPublished(b, b') && CellOk(b', c)
    requires InFlight(b, c) ==> NoPublic(b', b.cells[c].topic)
    ensures Inv(b')
  {
    OtherTasks(b, b', i);
    TablesKept(b, b', i);
    forall d | 0 <= d < |b'.cells| && d != c ensures CellOk(b', d) {
      assert CellOk(b, d) && (InFlight(b', d) <==> InFlight(b, d));
    }
    forall u | u in b'.inFlight ensures FlightOk(b', u) {
      assert FlightOk(b, u) && CellOk(b, b.inFlight[u]);
    }
  }

  lemma AcquireInv(b: State, i: nat)
    requires Inv(b) && Enabled(b, Acquire(i))
    ensures Inv(Do(b, Acquire(i)))
  {
    var b', c := Do(b, Acquire(i)), b.tasks[i].pc.cell;
    assert TaskOk(b, i) && CellOk(b, c);
    assert FlightOk(b, b.tasks[i].topic);
    StaysQuiet(b, b', i);
    assert InFlight(b', c);
    CellStep(b, b', i, c);
  }

  /** A failed subscription, or a cancellation, gives the permit back and no more. */
  lemma FreePermitInv(b: State, i: nat)
    requires Inv(b) && i < |b.tasks| && b.tasks[i].pc.Subscribing? && b.tasks[i].pc.cell < |b.cells|
    ensures Inv(FreePermit(At(b, i, Gone), b.tasks[i].pc.cell))
  {
    var c := b.tasks[i].pc.cell;
    var b' := FreePermit(At(b, i, Gone), c);
    assert TaskOk(b, i) && CellOk(b, c);
    assert FlightOk(b, b.tasks[i].topic);
    StaysQuiet(b, b', i);
    assert InFlight(b', c);
    CellStep(b, b', i, c);
  }

  lemma CancelInv(b: State, i: nat)
    requires Inv(b) && Enabled(b, Cancel(i))
    ensures Inv(Do(b, Cancel(i)))
  {
    if b.tasks[i].pc.Waiting? {
      var b' := Do(b, Cancel(i));
      assert TaskOk(b, i);
      StaysQuiet(b, b', i);
      OwnStep(b, b', i);
    } else {
      FreePermitInv(b, i);
    }
  }

  lemma FillCellInv(b: State, i: nat)
    requires Inv(b) && Enabled(b, FillCell(i))
    ensures Inv(Do(b, FillCell(i)))
  {
    var b', c := Do(b, FillCell(i)), b.tasks[i].pc.cell;
    assert TaskOk(b, i) && CellOk(b, c);
    assert PublicPc(b.tasks[i].pc, b.tasks[i].pc.st);
    StaysQuiet(b, b', i);
    assert InFlight(b', c) <==> InFlight(b, c);
    CellStep(b, b', i, c);
  }

  lemma RemoveCells(b: State, i: nat)
    requires Inv(b) && Enabled(b, Remove(i))
    ensures var b' := Do(b, Remove(i));
            && (forall d :: 0 <= d < |b'.cells| ==> CellOk(b', d))
            && (NothingPublished(b, b') ==> forall u :: u in b'.inFlight ==> FlightOk(b', u))
  {
    var b', c := Do(b, Remove(i)), b.tasks[i].pc.cell;
    assert TaskOk(b, i) && CellOk(b, c);
    forall d | 0 <= d < |b'.cells| ensures CellOk(b', d) {
      assert CellOk(b, d);
      assert InFlight(b', d) <==> InFlight(b, d) && d != c;
    }
    if NothingPublished(b, b') {
      forall u | u in b'.inFlight ensures FlightOk(b', u) {
        assert FlightOk(b, u) && CellOk(b, b.inFlight[u]);
      }
    }
  }

  lemma RemoveInv(b: State, i: nat)
    requires Inv(b) && Enabled(b, Remove(i))
    ensures Inv(Do(b, Remove(i)))
  {
    var b' := Do(b, Remove(i));
    assert TaskOk(b, i);
    assert PublicPc(b.tasks[i].pc, b.tasks[i].pc.st);
    RemoveCells(b, i);
    StaysQuiet(b, b', i);
    OtherTasks(b, b', i);
    TablesKept(b, b', i);
  }

  // ---------- publishing ----------

  /** While one task is building a state of a topic, no other task of the topic is past the permit. */
  lemma OneBuilder(b: State, i: nat, j: nat)
    requires Inv(b) && i < |b.tasks| && j < |b.tasks| && b.tasks[i].topic == b.tasks[j].topic
    requires PastAcquire(b.tasks[i].pc) && !b.tasks[i].pc.Removed?
    requires PastAcquire(b.tasks[j].pc) && !b.tasks[j].pc.Removed?
    ensures i == j
  {
    assert TaskOk(b, i) && TaskOk(b, j);
    assert CellOk(b, b.tasks[i].pc.cell) && CellOk(b, b.tasks[j].pc.cell);
  }

  lemma PublishOthers(b: State, i: nat, j: nat)
    requires Inv(b) && Enabled(b, Publish(i)) && j < |b.tasks| && j != i
    requires b.tasks[j].topic == b.tasks[i].topic
    ensures !b.tasks[j].pc.Missed? && (PastAcquire(b.tasks[j].pc) ==> b.tasks[j].pc.Removed?)
    ensures !b.tasks[j].pc.Removed?
  {
    assert TaskOk(b, i) && TaskOk(b, j);
    var pc := b.tasks[j].pc;
    assert StateOf(pc).Some? && !pc.Created? && !pc.Publishing? ==> PublicPc(pc, StateOf(pc).value);
    if PastAcquire(pc) && !pc.Removed? { OneBuilder(b, i, j); }
  }

  /** After publishing, the one public state of the topic is the new one. */
  lemma PublishPublic(b: State, i: nat)
    requires Inv(b) && Enabled(b, Publish(i))
    ensures var b', t, own := Do(b, Publish(i)), b.tasks[i].topic, b.tasks[i].pc.st;
            && (forall st: nat :: Public(b', st) ==>
                  st == own || (st < |b.states| && b.states[st] != t && Public(b, st)))
            && (forall u: nat :: u != t && NoPublic(b, u) ==> NoPublic(b', u))
  {
    var b', t, own := Do(b, Publish(i)), b.tasks[i].topic, b.tasks[i].pc.st;
    assert TaskOk(b, i);
    forall st: nat | Public(b', st) ensures st == own || (st < |b.states| && b.states[st] != t && Public(b, st)) {
      PublicAfter(b, b', i, st);
    }
  }

  lemma PublishTasks(b: State, i: nat)
    requires Inv(b) && Enabled(b, Publish(i))
    ensures var b' := Do(b, Publish(i)); forall j :: 0 <= j < |b'.tasks| ==> TaskOk(b', j)
  {
    var b', t := Do(b, Publish(i)), b.tasks[i].topic;
    assert TaskOk(b, i);
    PublishPublic(b, i);
    forall j | 0 <= j < |b'.tasks| ensures TaskOk(b', j) {
      assert TaskOk(b, j);
      if j != i && b.tasks[j].topic == t { PublishOthers(b, i, j); }
    }
  }

  lemma PublishInv(b: State, i: nat)
    requires Inv(b) && Enabled(b, Publish(i))
    ensures Inv(Do(b, Publish(i)))
  {
    var b' := Do(b, Publish(i));
    assert TaskOk(b, i) && CellOk(b, b.tasks[i].pc.cell);
    PublishPublic(b, i);
    CellsKept(b, b', i);
    PublishTasks(b, i);
    forall u | u in b'.inFlight ensures FlightOk(b', u) { assert FlightOk(b, u); }
  }

  // ---------- new callers, and messages ----------

  predicate SameButQueue(x: Task, y: Task) {
    x == y || (x.topic == y.topic && x.pc.Registered? && y.pc.Registered? && x.pc.st == y.pc.st)
  }

  /** Tasks that start, and queues that grow, matter to nobody. */
  lemma QueuesInv(b: State, b': State)
    requires Inv(b) && b' == b.(tasks := b'.tasks) && |b.tasks| <= |b'.tasks|
    requires forall j :: 0 <= j < |b.tasks| ==> SameButQueue(b.tasks[j], b'.tasks[j])
    requires forall j :: |b.tasks| <= j < |b'.tasks| ==> b'.tasks[j].pc.Want?
    ensures Inv(b')
  {
    forall st: nat | Public(b', st) ensures Public(b, st) {
      if j :| 0 <= j < |b'.tasks| && PublicPc(b'.tasks[j].pc, st) {
        assert PublicPc(b.tasks[j].pc, st);
      } else {
        var c :| 0 <= c < |b'.cells| && b'.cells[c].value == Some(st) && CellReferenced(b', c);
        if j :| 0 <= j < |b'.tasks| && HoldsCell(b'.tasks[j].pc, c) { assert HoldsCell(b.tasks[j].pc, c); }
        assert CellReferenced(b, c);
      }
    }
    forall j | 0 <= j < |b'.tasks| ensures TaskOk(b', j) { if j < |b.tasks| { assert TaskOk(b, j); } }
    forall c | 0 <= c < |b'.cells| ensures CellOk(b', c) {
      assert CellOk(b, c) && (InFlight(b', c) <==> InFlight(b, c));
    }
    forall t | t in b'.inFlight ensures FlightOk(b', t) { assert FlightOk(b, t); }
  }

  lemma StepInv(b: State, s: Step)
    requires Inv(b) && Enabled(b, s)
    ensures Inv(Do(b, s))
  {
    match s
    case Call(_) => QueuesInv(b, Do(b, s));
    case LockTopics(i) => LockTopicsInv(b, i);
    case LockFlight(i) => LockFlightInv(b, i);
    case UnlockBoth(i) => UnlockBothInv(b, i);
    case ReadCell(i) => ReadCellInv(b, i);
    case Acquire(i) => AcquireInv(b, i);
    case SubscribeOk(i) => SubscribeOkInv(b, i);
    case SubscribeErr(i) => FreePermitInv(b, i);
    case Cancel(i) => CancelInv(b, i);
    case LockPublish(i) => LockPublishInv(b, i);
    case Publish(i) => PublishInv(b, i);
    case LockRemove(i) => LockRemoveInv(b, i);
    case Remove(i) => RemoveInv(b, i);
    case FillCell(i) => FillCellInv(b, i);
    case Send(_, _) => QueuesInv(b, Do(b, s));
    case Subscribe(_) => ReceiverInv(b, s);
    case Receive(_) => ReceiverInv(b, s);
    case DropReceiver(_) => DropInv(b, s);
    case DropSender(_) => DropInv(b, s);
  }
}
