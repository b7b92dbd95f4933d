/** The reader's two loops over whatever a client sends, in any order and number. */
module ReadLoop {
  import opened Wrappers
  import opened OpLog
  import opened SyncProtocol

  /** The position of the first sync step two. */
  function FirstStep2(inbox: seq<InMsg>): (i: nat)
    ensures i <= |inbox|
    ensures i < |inbox| ==> inbox[i].ClientStep2?
    ensures forall j :: 0 <= j < i ==> !inbox[j].ClientStep2?
  {
    if inbox == [] || inbox[0].ClientStep2? then 0 else 1 + FirstStep2(inbox[1..])
  }

  /** The payloads of a sequence's updates, in order. */
  function Updates(inbox: seq<InMsg>): seq<Payload> {
    if inbox == [] then []
    else (if inbox[0].ClientUpdate? then [inbox[0].p] else []) + Updates(inbox[1..])
  }

  lemma {:induction false} UpdatesPush(inbox: seq<InMsg>, m: InMsg)
    ensures Updates(inbox + [m]) == Updates(inbox) + if m.ClientUpdate? then [m.p] else []
  {
    if inbox == [] {
      assert [] + [m] == [m];
    } else {
      UpdatesPush(inbox[1..], m);
      assert (inbox + [m])[1..] == inbox[1..] + [m];
    }
  }

  /** What a reader persists: the first sync step two, and every update after it. */
  function Processed(inbox: seq<InMsg>): seq<Payload> {
    var a := FirstStep2(inbox);
    if a == |inbox| then [] else [inbox[a].p] + Updates(inbox[a + 1..])
  }

  /** What it forwards: the first state vector. */
  function FirstVector(inbox: seq<InMsg>): Option<map<nat, nat>> {
    if inbox == [] then None
    else if inbox[0].ClientStep1? then Some(inbox[0].sv)
    else FirstVector(inbox[1..])
  }

  lemma {:induction false} FirstVectorPush(inbox: seq<InMsg>, m: InMsg)
    ensures FirstVector(inbox + [m]) ==
              if FirstVector(inbox).Some? then FirstVector(inbox)
              else if m.ClientStep1? then Some(m.sv) else None
  {
    if inbox == [] {
      assert [] + [m] == [m];
    } else {
      FirstVectorPush(inbox[1..], m);
      assert (inbox + [m])[1..] == inbox[1..] + [m];
    }
  }

  lemma {:induction false} FirstStep2At(inbox: seq<InMsg>, i: nat)
    requires i < |inbox| && inbox[i].ClientStep2? && forall j :: 0 <= j < i ==> !inbox[j].ClientStep2?
    ensures FirstStep2(inbox) == i
  {
    if i > 0 { FirstStep2At(inbox[1..], i - 1); }
  }

  /** The sender is taken out of its option by the first vector; later ones find none. */
  method ForwardClientSyncStepOne(senderTaken: bool, slot: Option<map<nat, nat>>, sv: map<nat, nat>)
    returns (taken: bool, slot': Option<map<nat, nat>>)
    ensures taken && slot' == if senderTaken then slot else Some(sv)
  {
    taken, slot' := true, slot;
    if !senderTaken { slot' := Some(sv); }
  }

  /** The handshake loop, then the hot path. */
  method Read(inbox: seq<InMsg>) returns (forwarded: Option<map<nat, nat>>, processed: seq<Payload>)
    ensures forwarded == FirstVector(inbox)
    ensures processed == Processed(inbox)
  {
    forwarded, processed := None, [];
    var taken := false;
    var i := 0;
    var hot := false;
    while i < |inbox| && !hot
      invariant 0 <= i <= |inbox| && forwarded == FirstVector(inbox[..i]) && (taken <==> forwarded.Some?)
      invariant !hot ==> processed == [] && forall j :: 0 <= j < i ==> !inbox[j].ClientStep2?
      invariant hot ==> i > 0 && FirstStep2(inbox) == i - 1 && inbox[i - 1].ClientStep2?
      invariant hot ==> processed == [inbox[i - 1].p]
      decreases |inbox| - i
    {
      FirstVectorPush(inbox[..i], inbox[i]);
      assert inbox[..i + 1] == inbox[..i] + [inbox[i]];
      match inbox[i] {
        case ClientStep1(sv) =>
          taken, forwarded := ForwardClientSyncStepOne(taken, forwarded, sv);
        case ClientStep2(p) =>
          FirstStep2At(inbox, i);
          processed, hot := [p], true;
        case ClientUpdate(_) =>
      }
      i := i + 1;
    }
    ghost var start := i;
    while i < |inbox|
      invariant start <= i <= |inbox| && forwarded == FirstVector(inbox[..i]) && (taken <==> forwarded.Some?)
      invariant hot ==> start > 0 && processed == [inbox[start - 1].p] + Updates(inbox[start..i])
      invariant !hot ==> start == |inbox| && processed == []
    {
      FirstVectorPush(inbox[..i], inbox[i]);
      assert inbox[..i + 1] == inbox[..i] + [inbox[i]];
      UpdatesPush(inbox[start..i], inbox[i]);
      assert inbox[start..i + 1] == inbox[start..i] + [inbox[i]];
      match inbox[i] {
        case ClientStep1(sv) =>
          taken, forwarded := ForwardClientSyncStepOne(taken, forwarded, sv);
        case ClientStep2(_) =>
        case ClientUpdate(p) =>
          processed := processed + [p];
      }
      i := i + 1;
    }
    assert inbox[..i] == inbox;
    if hot { assert inbox[start..i] == inbox[start..]; }
  }

  // ---------- the protocol's step is the loop's body ----------

  /** What the protocol's reader would work on if it drained its queue undisturbed. */
  function Drain(cn: Conn): seq<Payload>
    requires cn.consumed <= |cn.inbox|
    decreases |cn.inbox| - cn.consumed
  {
    if cn.consumed == |cn.inbox| then []
    else
      var next := TakeMsg(cn.(reader := Idle));
      (if next.reader.Parsed? then [next.reader.p] else []) + Drain(next)
  }

  lemma {:induction false} DrainHot(cn: Conn)
    requires cn.consumed <= |cn.inbox| && cn.hot
    ensures Drain(cn) == Updates(cn.inbox[cn.consumed..])
    decreases |cn.inbox| - cn.consumed
  {
    if cn.consumed < |cn.inbox| {
      DrainHot(TakeMsg(cn.(reader := Idle)));
    }
  }

  lemma ProcessedSkips(inbox: seq<InMsg>)
    requires inbox != [] && !inbox[0].ClientStep2?
    ensures Processed(inbox) == Processed(inbox[1..])
  {
    var rest, a := inbox[1..], FirstStep2(inbox[1..]);
    assert FirstStep2(inbox) == a + 1;
    if a < |rest| { assert rest[a + 1..] == inbox[a + 2..]; }
  }

  lemma ProcessedStarts(inbox: seq<InMsg>)
    requires inbox != [] && inbox[0].ClientStep2?
    ensures Processed(inbox) == [inbox[0].p] + Updates(inbox[1..])
  {
    assert FirstStep2(inbox) == 0;
  }

  /** One round before the sync step two. */
  lemma DrainOne(cn: Conn)
    requires cn.consumed < |cn.inbox| && !cn.hot
    ensures var next, m := TakeMsg(cn.(reader := Idle)), cn.inbox[cn.consumed];
            && next.inbox == cn.inbox && next.consumed == cn.consumed + 1 && next.hot == m.ClientStep2?
            && Drain(cn) == (if m.ClientStep2? then [m.p] else []) + Drain(next)
  {
  }

  lemma DrainNothing(cn: Conn)
    requires cn.consumed == |cn.inbox|
    ensures Drain(cn) == Processed(cn.inbox[cn.consumed..])
  {
  }

  /** From any point before the sync step two, one protocol step per message processes what
      the two loops process. */
  lemma {:induction false} DrainIsProcessed(cn: Conn)
    requires cn.consumed <= |cn.inbox| && !cn.hot
    ensures Drain(cn) == Processed(cn.inbox[cn.consumed..])
    decreases |cn.inbox| - cn.consumed
  {
    if cn.consumed == |cn.inbox| {
      DrainNothing(cn);
    } else {
      var next, rest := TakeMsg(cn.(reader := Idle)), cn.inbox[cn.consumed..];
      DrainOne(cn);
      assert rest[1..] == next.inbox[next.consumed..];
      if rest[0].ClientStep2? {
        DrainHot(next);
        ProcessedStarts(rest);
      } else {
        DrainIsProcessed(next);
        ProcessedSkips(rest);
      }
    }
  }

  /** What the protocol's reader would forward if it drained its queue undisturbed. */
  function DrainSlot(cn: Conn): Option<map<nat, nat>>
    requires cn.consumed <= |cn.inbox|
    decreases |cn.inbox| - cn.consumed
  {
    if cn.consumed == |cn.inbox| then cn.slot else DrainSlot(TakeMsg(cn.(reader := Idle)))
  }

  /** One protocol step per message forwards what the two loops forward: the first vector, once. */
  lemma {:induction false} DrainForwardsFirst(cn: Conn)
    requires cn.consumed <= |cn.inbox|
    ensures DrainSlot(cn) ==
              if cn.forwarded || FirstVector(cn.inbox[cn.consumed..]).None? then cn.slot
              else FirstVector(cn.inbox[cn.consumed..])
    decreases |cn.inbox| - cn.consumed
  {
    if cn.consumed < |cn.inbox| {
      var next, rest := TakeMsg(cn.(reader := Idle)), cn.inbox[cn.consumed..];
      assert next.inbox == cn.inbox && next.consumed == cn.consumed + 1;
      assert rest[1..] == cn.inbox[cn.consumed + 1..] && rest[0] == cn.inbox[cn.consumed];
      DrainForwardsFirst(next);
    }
  }
}
