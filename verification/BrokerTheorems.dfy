/** What holds of the broker's topic cache over whole runs. */
module BrokerTheorems {
  import opened Wrappers
  import opened Broker
  import opened BrokerInvariant

  lemma {:induction false} RunInv(run: seq<State>, steps: seq<Step>, k: nat)
    requires IsRun(run, steps) && k < |run|
    ensures Inv(run[k])
  {
    if k > 0 {
      RunInv(run, steps, k - 1);
      StepInv(run[k - 1], steps[k - 1]);
    }
  }

  // ---------- one live state per topic ----------

  /** Task `i` has built the state and not yet published it. */
  predicate Builds(b: State, i: nat, st: nat) {
    i < |b.tasks| && HoldsState(b.tasks[i].pc, st) && (b.tasks[i].pc.Created? || b.tasks[i].pc.Publishing?)
  }

  /** A live state is public, or none of its topic is and one task is building it. */
  lemma LiveHow(b: State, st: nat)
    requires Inv(b) && Live(b, st)
    ensures st < |b.states|
    ensures Public(b, st) ||
            (NoPublic(b, b.states[st]) && exists i: nat :: Builds(b, i, st) && b.tasks[i].topic == b.states[st])
  {
    LiveMeans(b, st);
    if i :| 0 <= i < |b.tasks| && HoldsState(b.tasks[i].pc, st) {
      assert TaskOk(b, i);
      assert PublicPc(b.tasks[i].pc, st) || Builds(b, i, st);
    } else {
      assert Public(b, st);
    }
  }

  lemma OneLive(b: State, x: nat, y: nat)
    requires Inv(b) && Live(b, x) && Live(b, y)
    ensures x < |b.states| && y < |b.states|
    ensures b.states[x] == b.states[y] ==> x == y
  {
    LiveHow(b, x);
    LiveHow(b, y);
    if b.states[x] == b.states[y] && !Public(b, x) && !Public(b, y) {
      var i: nat :| Builds(b, i, x) && b.tasks[i].topic == b.states[x];
      var j: nat :| Builds(b, j, y) && b.tasks[j].topic == b.states[y];
      OneBuilder(b, i, j);
    }
  }

  /** In every reachable state, however calls race, fail or are cancelled and receivers drop,
      a topic has at most one live state; so all callers that have one have the same. */
  lemma AtMostOneLive(run: seq<State>, steps: seq<Step>, k: nat, x: nat, y: nat)
    requires IsRun(run, steps) && k < |run|
    requires x < |run[k].states| && y < |run[k].states| && run[k].states[x] == run[k].states[y]
    requires Live(run[k], x) && Live(run[k], y)
    ensures x == y
  {
    RunInv(run, steps, k);
    OneLive(run[k], x, y);
  }

  lemma CallersAgreeNow(b: State, i: nat, j: nat)
    requires Inv(b) && i < |b.tasks| && j < |b.tasks| && b.tasks[i].topic == b.tasks[j].topic
    requires StateOf(b.tasks[i].pc).Some? && StateOf(b.tasks[j].pc).Some?
    ensures StateOf(b.tasks[i].pc) == StateOf(b.tasks[j].pc)
  {
    assert TaskOk(b, i) && TaskOk(b, j);
    var x, y := StateOf(b.tasks[i].pc).value, StateOf(b.tasks[j].pc).value;
    assert HoldsState(b.tasks[i].pc, x) && HoldsState(b.tasks[j].pc, y);
    LiveMeans(b, x);
    LiveMeans(b, y);
    OneLive(b, x, y);
  }

  /** Two tasks of one topic that hold a strong pointer at the same time hold the same. */
  lemma CallersAgree(run: seq<State>, steps: seq<Step>, k: nat, i: nat, j: nat)
    requires IsRun(run, steps) && k < |run|
    requires i < |run[k].tasks| && j < |run[k].tasks| && run[k].tasks[i].topic == run[k].tasks[j].topic
    requires StateOf(run[k].tasks[i].pc).Some? && StateOf(run[k].tasks[j].pc).Some?
    ensures StateOf(run[k].tasks[i].pc) == StateOf(run[k].tasks[j].pc)
  {
    RunInv(run, steps, k);
    CallersAgreeNow(run[k], i, j);
  }

  lemma FilledForGood(b: State, s: Step, c: nat)
    requires Inv(b) && Enabled(b, s) && c < |b.cells| && b.cells[c].value.Some?
    ensures c < |Do(b, s).cells| && Do(b, s).cells[c].value == b.cells[c].value
  {
    if !s.Call? {
      assert TaskOk(b, s.i);
      assert CellOk(b, c);
    }
  }

  /** Whoever subscribes while a receiver of the topic is registered gets that receiver's channel;
      so a channel that differs from the receivers' is handed out only when there are none. */
  lemma SubscribersShareTheChannel(run: seq<State>, steps: seq<Step>, k: nat, i: nat, j: nat)
    requires IsRun(run, steps) && k < |steps| && steps[k] == Subscribe(i) && j < |run[k].tasks|
    requires i < |run[k].tasks| && run[k].tasks[i].topic == run[k].tasks[j].topic && run[k].tasks[j].pc.Registered?
    ensures i < |run[k + 1].tasks| && run[k + 1].tasks[i].pc.Registered?
    ensures run[k + 1].tasks[i].pc.st == run[k].tasks[j].pc.st
  {
    assert Enabled(run[k], steps[k]) && run[k + 1] == Do(run[k], steps[k]);
    CallersAgree(run, steps, k, i, j);
  }

  /** A filled cell keeps its state, so those who waited on one cell all get the same, at
      whatever time they come to read it. */
  lemma {:induction false} WaitersAgree(run: seq<State>, steps: seq<Step>, p: nat, q: nat, c: nat, st: nat)
    requires IsRun(run, steps) && p <= q < |run|
    requires c < |run[p].cells| && run[p].cells[c].value == Some(st)
    ensures c < |run[q].cells| && run[q].cells[c].value == Some(st)
    decreases q
  {
    if p < q {
      WaitersAgree(run, steps, p, q - 1, c, st);
      RunInv(run, steps, q - 1);
      FilledForGood(run[q - 1], steps[q - 1], c);
    }
  }

  // ---------- topics ----------

  lemma TopicKept(b: State, s: Step, i: nat)
    requires Enabled(b, s) && i < |b.tasks|
    ensures i < |Do(b, s).tasks| && Do(b, s).tasks[i].topic == b.tasks[i].topic
  {
  }

  lemma {:induction false} TopicStays(run: seq<State>, steps: seq<Step>, k: nat, q: nat, t: nat)
    requires IsRun(run, steps) && k < q < |run| && steps[k] == Call(t)
    ensures var i := |run[k].tasks|; i < |run[q].tasks| && run[q].tasks[i].topic == t
    decreases q
  {
    assert Enabled(run[q - 1], steps[q - 1]) && run[q] == Do(run[q - 1], steps[q - 1]);
    if q > k + 1 {
      TopicStays(run, steps, k, q - 1, t);
      TopicKept(run[q - 1], steps[q - 1], |run[k].tasks|);
    }
  }

  /** A call is for the topic it names, ever after: the state that it returns, that its receiver
      keeps alive and that its sender sends to was built for that topic. */
  lemma CallKeepsItsTopic(run: seq<State>, steps: seq<Step>, k: nat, q: nat, t: nat)
    requires IsRun(run, steps) && k < q < |run| && steps[k] == Call(t)
    ensures var i := |run[k].tasks|;
            && i < |run[q].tasks| && run[q].tasks[i].topic == t
            && var pc := run[q].tasks[i].pc;
            && (StateOf(pc).Some? ==> IsState(run[q], StateOf(pc).value, t))
            && (pc.SenderOnly? ==> IsState(run[q], pc.st, t))
  {
    TopicStays(run, steps, k, q, t);
    RunInv(run, steps, q);
    assert TaskOk(run[q], |run[k].tasks|);
  }

  /** So calls for different topics never hold one state, and no message of the one topic is
      put into a queue of the other. */
  lemma TopicsStayApart(run: seq<State>, steps: seq<Step>, k: nat, l: nat, q: nat, t: nat, u: nat)
    requires IsRun(run, steps) && k < q < |run| && l < q && steps[k] == Call(t) && steps[l] == Call(u) && t != u
    ensures var i, j := |run[k].tasks|, |run[l].tasks|;
            && i < |run[q].tasks| && j < |run[q].tasks|
            && (StateOf(run[q].tasks[i].pc).Some? ==> StateOf(run[q].tasks[i].pc) != StateOf(run[q].tasks[j].pc))
            && (q < |steps| && steps[q].Send? && steps[q].i == i && run[q].tasks[j].pc.Registered? ==>
                  run[q + 1].tasks[j] == run[q].tasks[j])
  {
    CallKeepsItsTopic(run, steps, k, q, t);
    CallKeepsItsTopic(run, steps, l, q, u);
    var i, j := |run[k].tasks|, |run[l].tasks|;
    if q < |steps| && steps[q].Send? && steps[q].i == i && run[q].tasks[j].pc.Registered? {
      RunInv(run, steps, q);
      assert Enabled(run[q], steps[q]) && run[q + 1] == Do(run[q], steps[q]);
      SendNow(run[q], steps[q], j);
    }
  }

  lemma ReferencedBefore(b: State, i: nat, c: nat)
    requires Enabled(b, DropReceiver(i)) && CellReferenced(Do(b, DropReceiver(i)), c)
    ensures CellReferenced(b, c)
  {
    var b' := Do(b, DropReceiver(i));
    if j :| 0 <= j < |b'.tasks| && HoldsCell(b'.tasks[j].pc, c) { assert HoldsCell(b.tasks[j].pc, c); }
  }

  /** A sender does not keep the state alive: dropping the last receiver ends it, if no call holds
      it either, and what the sender then sends is rejected. */
  lemma LastReceiverEndsTheState(run: seq<State>, steps: seq<Step>, k: nat, i: nat, m: nat)
    requires IsRun(run, steps) && k < |steps| && steps[k] == DropReceiver(i)
    requires i < |run[k].tasks| && run[k].tasks[i].pc.Registered?
    requires var b, st := run[k], run[k].tasks[i].pc.st;
             && (forall j :: 0 <= j < |b.tasks| && j != i ==> !HoldsState(b.tasks[j].pc, st))
             && (forall c :: 0 <= c < |b.cells| && b.cells[c].value == Some(st) ==> !CellReferenced(b, c))
    ensures var b', st := run[k + 1], run[k].tasks[i].pc.st;
            && !Live(b', st) && i < |b'.tasks| && b'.tasks[i].pc == SenderOnly(st)
            && Enabled(b', Send(i, m)) && Do(b', Send(i, m)) == b'
  {
    var b, st := run[k], run[k].tasks[i].pc.st;
    assert Enabled(b, steps[k]) && run[k + 1] == Do(b, steps[k]);
    var b' := run[k + 1];
    forall c | 0 <= c < |b'.cells| && b'.cells[c].value == Some(st) ensures !CellReferenced(b', c) {
      if CellReferenced(b', c) { ReferencedBefore(b, i, c); }
    }
    LiveMeans(b', st);
    if Receiving(b', st) { ReceiverIsLive(b', st); }
  }

  // ---------- broadcast ----------

  lemma ReceiverIsLive(b: State, st: nat)
    requires Receiving(b, st)
    ensures Live(b, st)
  {
    var i :| 0 <= i < |b.tasks| && b.tasks[i].pc.Registered? && b.tasks[i].pc.st == st;
    assert HoldsState(b.tasks[i].pc, st);
    LiveMeans(b, st);
  }

  predicate Accepts(b: State, s: Step) {
    && s.Send? && s.i < |b.tasks| && (b.tasks[s.i].pc.Registered? || b.tasks[s.i].pc.SenderOnly?)
    && Receiving(b, b.tasks[s.i].pc.st)
  }

  /** A send reaches a receiver of the topic exactly when it is accepted. */
  lemma SendNow(b: State, s: Step, j: nat)
    requires Inv(b) && Enabled(b, s) && s.Send? && j < |b.tasks| && b.tasks[j].pc.Registered?
    ensures var b' := Do(b, s);
            && |b'.tasks| == |b.tasks| && b'.tasks[j].topic == b.tasks[j].topic
            && b'.tasks[j].pc == if Accepts(b, s) && b.tasks[s.i].topic == b.tasks[j].topic
                                 then Registered(b.tasks[j].pc.st, b.tasks[j].pc.queue + [s.m]) else b.tasks[j].pc
  {
    assert TaskOk(b, s.i) && TaskOk(b, j);
    if Accepts(b, s) {
      ReceiverIsLive(b, b.tasks[s.i].pc.st);
      assert Receiving(b, b.tasks[j].pc.st);
      ReceiverIsLive(b, b.tasks[j].pc.st);
      OneLive(b, b.tasks[s.i].pc.st, b.tasks[j].pc.st);
    }
  }

  /** Task `j` is a receiver registered on the topic of task `i`. */
  predicate OnTopicOf(b: State, j: nat, i: nat) {
    j < |b.tasks| && i < |b.tasks| && b.tasks[j].pc.Registered? && b.tasks[j].topic == b.tasks[i].topic
  }

  ghost predicate QueuedAt(b: State, b': State, j: nat, m: nat)
    requires j < |b.tasks| && |b'.tasks| == |b.tasks| && b.tasks[j].pc.Registered?
  {
    b'.tasks[j].pc == Registered(b.tasks[j].pc.st, b.tasks[j].pc.queue + [m])
  }

  /** A send is accepted exactly when its channel has a receiver; it then reaches every receiver
      registered on the topic, even from a sender that outlived its own receiver. Otherwise it
      changes nothing. */
  lemma SendReachesAll(run: seq<State>, steps: seq<Step>, k: nat)
    requires IsRun(run, steps) && k < |steps| && steps[k].Send?
    ensures var b, b', s := run[k], run[k + 1], steps[k];
            && |b'.tasks| == |b.tasks|
            && (Accepts(b, s) <==> Receiving(b, b.tasks[s.i].pc.st))
            && (!Accepts(b, s) ==> b' == b)
            && (Accepts(b, s) ==> forall j :: 0 <= j < |b.tasks| && OnTopicOf(b, j, s.i) ==> QueuedAt(b, b', j, s.m))
  {
    RunInv(run, steps, k);
    var b, s := run[k], steps[k];
    assert Enabled(b, s) && run[k + 1] == Do(b, s);
    forall j | 0 <= j < |b.tasks| && Accepts(b, s) && OnTopicOf(b, j, s.i)
      ensures QueuedAt(b, Do(b, s), j, s.m)
    {
      SendNow(b, s, j);
    }
  }

  /** The messages accepted on topic `t` in steps `r` to `k`, in order. */
  ghost function Sent(run: seq<State>, steps: seq<Step>, t: nat, r: nat, k: nat): seq<nat>
    requires r <= k <= |steps| && |run| == |steps| + 1
  {
    if k == r then []
    else
      Sent(run, steps, t, r, k - 1) +
      if Accepts(run[k - 1], steps[k - 1]) && run[k - 1].tasks[steps[k - 1].i].topic == t then [steps[k - 1].m] else []
  }

  /** The messages task `i` took from its queue in steps `r` to `k`, in order. */
  ghost function Taken(run: seq<State>, steps: seq<Step>, i: nat, r: nat, k: nat): seq<nat>
    requires r <= k <= |steps| && |run| == |steps| + 1
  {
    if k == r then []
    else
      Taken(run, steps, i, r, k - 1) +
      if steps[k - 1] == Receive(i) && i < |run[k - 1].tasks| && run[k - 1].tasks[i].pc.Registered? &&
         run[k - 1].tasks[i].pc.queue != []
      then run[k - 1].tasks[i].pc.queue[..1] else []
  }

  /** One step of `EveryMessageInOrder`. */
  lemma ReceiverStep(b: State, s: Step, i: nat)
    requires Inv(b) && Enabled(b, s) && i < |b.tasks|
    requires b.tasks[i].pc.Registered? || b.tasks[i].pc.SenderOnly? || b.tasks[i].pc.Gone?
    ensures var pc, b' := b.tasks[i].pc, Do(b, s);
            && i < |b'.tasks| && b'.tasks[i].topic == b.tasks[i].topic
            && (b'.tasks[i].pc.Registered? || b'.tasks[i].pc.SenderOnly? || b'.tasks[i].pc.Gone?)
            && (b'.tasks[i].pc.Registered? ==>
                  && pc.Registered?
                  && b'.tasks[i].pc.queue ==
                       if s == Receive(i) then pc.queue[1..]
                       else if Accepts(b, s) && b.tasks[s.i].topic == b.tasks[i].topic then pc.queue + [s.m]
                       else pc.queue)
  {
    if s.Send? && b.tasks[i].pc.Registered? { SendNow(b, s, i); }
  }

  lemma ExtendsBoth(taken: seq<nat>, queue: seq<nat>, sent: seq<nat>, more: seq<nat>)
    requires taken + queue == sent
    ensures taken + (queue + more) == sent + more
    ensures queue != [] ==> (taken + queue[..1]) + queue[1..] == sent
  {
    assert queue != [] ==> queue == queue[..1] + queue[1..];
  }

  /** From the step in which a receiver subscribed, what it has taken and what waits in its queue
      are exactly the messages accepted on the topic since, from any sender, in one order. */
  lemma {:induction false} EveryMessageInOrder(run: seq<State>, steps: seq<Step>, i: nat, r: nat, k: nat)
    requires IsRun(run, steps) && r < k <= |steps| && steps[r] == Subscribe(i)
    ensures i < |run[r].tasks| && i < |run[k].tasks| && run[k].tasks[i].topic == run[r].tasks[i].topic
    ensures var pc := run[k].tasks[i].pc;
            && (pc.Registered? || pc.SenderOnly? || pc.Gone?)
            && (pc.Registered? ==>
                  Taken(run, steps, i, r + 1, k) + pc.queue == Sent(run, steps, run[r].tasks[i].topic, r + 1, k))
    decreases k
  {
    assert Enabled(run[r], steps[r]) && run[r + 1] == Do(run[r], steps[r]);
    if k > r + 1 {
      EveryMessageInOrder(run, steps, i, r, k - 1);
      RunInv(run, steps, k - 1);
      var b, s := run[k - 1], steps[k - 1];
      assert Enabled(b, s) && run[k] == Do(b, s);
      ReceiverStep(b, s, i);
      if b.tasks[i].pc.Registered? {
        ExtendsBoth(Taken(run, steps, i, r + 1, k - 1), b.tasks[i].pc.queue,
                    Sent(run, steps, run[r].tasks[i].topic, r + 1, k - 1), if s.Send? then [s.m] else []);
      }
    }
  }

  // ---------- no deadlock ----------

  /** The steps of a call that goes well. */
  predicate Advances(s: Step) {
    || s.LockTopics? || s.LockFlight? || s.UnlockBoth? || s.ReadCell? || s.Acquire? || s.SubscribeOk?
    || s.LockPublish? || s.Publish? || s.LockRemove? || s.Remove? || s.FillCell?
  }

  ghost predicate Path(b: State, steps: seq<Step>, b': State)
    decreases |steps|
  {
    if steps == [] then b' == b
    else Advances(steps[0]) && Enabled(b, steps[0]) && Path(Do(b, steps[0]), steps[1..], b')
  }

  lemma {:induction false} PathInv(b: State, steps: seq<Step>, b': State)
    requires Inv(b) && Path(b, steps, b')
    ensures Inv(b')
    decreases |steps|
  {
    if steps != [] {
      StepInv(b, steps[0]);
      PathInv(Do(b, steps[0]), steps[1..], b');
    }
  }

  lemma {:induction false} PathThen(b: State, s: seq<Step>, m: State, u: seq<Step>, b': State)
    requires Path(b, s, m) && Path(m, u, b')
    ensures Path(b, s + u, b')
    decreases |s|
  {
    if s == [] {
      assert s + u == u;
    } else {
      PathThen(Do(b, s[0]), s[1..], m, u, b');
      var all := s + u;
      assert all != [] && all[0] == s[0] && all[1..] == s[1..] + u;
    }
  }

  lemma OneStep(b: State, s: Step)
    requires Advances(s) && Enabled(b, s)
    ensures Path(b, [s], Do(b, s))
  {
    assert Path(Do(b, s), [s][1..], Do(b, s));
  }

  predicate Free(b: State) { b.topicsLock.None? && b.flightLock.None? }

  /** Where a call may be between its start and its return. */
  predicate Active(pc: Pc) { pc.Want? || pc.Missed? || pc.HoldsBoth? || pc.Waiting? || PastAcquire(pc) }

  predicate GoesOn(x: Task, y: Task) {
    y.topic == x.topic && (y.pc == x.pc || (Active(x.pc) && (Active(y.pc) || y.pc.Got?)))
  }

  /** `u` has the tasks of `b`, on the same topics, and each call in `b` still goes on or has returned. */
  ghost predicate Onward(b: State, u: State) {
    && |u.tasks| == |b.tasks|
    && (forall i :: 0 <= i < |b.tasks| ==> GoesOn(b.tasks[i], u.tasks[i]))
  }

  /** `n` more steps of calls in progress leave both mutexes free. */
  ghost predicate FreeIn(b: State, n: nat) {
    exists steps, u :: Path(b, steps, u) && |steps| <= n && Free(u) && Onward(b, u)
  }

  lemma FreeAfter(b: State, s: Step, n: nat)
    requires Advances(s) && Enabled(b, s) && Onward(b, Do(b, s)) && FreeIn(Do(b, s), n)
    ensures FreeIn(b, n + 1)
  {
    var steps, u :| Path(Do(b, s), steps, u) && |steps| <= n && Free(u) && Onward(Do(b, s), u);
    assert ([s] + steps)[1..] == steps;
    assert Path(b, [s] + steps, u);
    assert Onward(b, u);
  }

  lemma FreeNow(b: State, n: nat)
    requires Free(b)
    ensures FreeIn(b, n)
  {
    assert Path(b, [], b) && Onward(b, b);
  }

  lemma FreeFlight(b: State)
    requires Inv(b) && b.topicsLock.None?
    ensures FreeIn(b, 1)
  {
    if b.flightLock.None? {
      FreeNow(b, 1);
    } else {
      var j := b.flightLock.value;
      assert TaskOk(b, j);
      FreeNow(Do(b, Remove(j)), 0);
      FreeAfter(b, Remove(j), 0);
    }
  }

  lemma FreeFromBoth(b: State, i: nat)
    requires Inv(b) && i < |b.tasks| && b.tasks[i].pc.HoldsBoth?
    ensures FreeIn(b, 1)
  {
    assert TaskOk(b, i);
    FreeNow(Do(b, UnlockBoth(i)), 0);
    FreeAfter(b, UnlockBoth(i), 0);
  }

  lemma FreeFromMissed(b: State, i: nat)
    requires Inv(b) && i < |b.tasks| && b.tasks[i].pc.Missed? && b.flightLock.None?
    ensures FreeIn(b, 2)
  {
    StepInv(b, LockFlight(i));
    FreeFromBoth(Do(b, LockFlight(i)), i);
    FreeAfter(b, LockFlight(i), 1);
  }

  /** No deadlock: whoever holds the mutexes, three steps of the holders free both. */
  lemma LocksCanBeFreed(b: State)
    requires Inv(b)
    ensures FreeIn(b, 3)
  {
    if b.topicsLock.None? {
      FreeFlight(b);
    } else {
      var i := b.topicsLock.value;
      assert TaskOk(b, i);
      if b.tasks[i].pc.Publishing? {
        StepInv(b, Publish(i));
        FreeFlight(Do(b, Publish(i)));
        FreeAfter(b, Publish(i), 1);
      } else if b.tasks[i].pc.HoldsBoth? {
        FreeFromBoth(b, i);
      } else if b.flightLock.None? {
        FreeFromMissed(b, i);
      } else {
        var j := b.flightLock.value;
        assert TaskOk(b, j);
        StepInv(b, Remove(j));
        FreeFromMissed(Do(b, Remove(j)), i);
        FreeAfter(b, Remove(j), 2);
      }
    }
  }

  // ---------- every call can still succeed ----------

  function Rank(pc: Pc): nat {
    match pc
    case Want => 11
    case Missed => 10
    case HoldsBoth(_) => 9
    case Waiting(_) => 8
    case Subscribing(_) => 7
    case Created(_, _) => 6
    case Publishing(_, _) => 5
    case Published(_, _) => 4
    case Removing(_, _) => 3
    case Removed(_, _) => 2
    case _ => 0
  }

  /** Only `j` may hold a mutex. */
  predicate FreeBut(b: State, j: nat) { b.topicsLock in {None, Some(j)} && b.flightLock in {None, Some(j)} }

  /** Within `n` steps task `j` returns a state, which no mutex is held after; `i` has not moved. */
  ghost predicate ReturnsIn(b: State, j: nat, n: nat, i: nat) {
    exists steps, u :: Path(b, steps, u) && |steps| <= n && HasReturned(b, u, j, i)
  }

  ghost predicate HasReturned(b: State, u: State, j: nat, i: nat) {
    && Free(u) && j < |b.tasks| && |u.tasks| == |b.tasks|
    && u.tasks[j].topic == b.tasks[j].topic && u.tasks[j].pc.Got?
    && (i != j && i < |b.tasks| ==> u.tasks[i] == b.tasks[i])
    && (PastAcquire(b.tasks[j].pc) ==>
          b.tasks[j].pc.cell < |u.cells| && u.cells[b.tasks[j].pc.cell].value == Some(u.tasks[j].pc.st))
  }

  lemma ReturnsAfter(b: State, s: Step, j: nat, n: nat, i: nat)
    requires Advances(s) && Enabled(b, s) && s.i == j && ReturnsIn(Do(b, s), j, n, i)
    requires var b' := Do(b, s);
             && j < |b.tasks| && |b'.tasks| == |b.tasks| && b'.tasks == b.tasks[j := b'.tasks[j]]
             && b'.tasks[j].topic == b.tasks[j].topic
             && (PastAcquire(b.tasks[j].pc) ==>
                   PastAcquire(b'.tasks[j].pc) && b'.tasks[j].pc.cell == b.tasks[j].pc.cell)
    ensures ReturnsIn(b, j, n + 1, i)
  {
    var steps, u :| Path(Do(b, s), steps, u) && |steps| <= n && HasReturned(Do(b, s), u, j, i);
    assert ([s] + steps)[1..] == steps;
    assert Path(b, [s] + steps, u);
    assert HasReturned(b, u, j, i);
  }

  lemma ReturnsNow(b: State, s: Step, j: nat, i: nat)
    requires Advances(s) && Enabled(b, s) && HasReturned(b, Do(b, s), j, i)
    ensures ReturnsIn(b, j, 1, i)
  {
    OneStep(b, s);
  }

  function BuilderNext(pc: Pc, j: nat): Step {
    if pc.Subscribing? then SubscribeOk(j)
    else if pc.Created? then LockPublish(j)
    else if pc.Publishing? then Publish(j)
    else if pc.Published? then LockRemove(j)
    else Remove(j)
  }

  lemma BuilderMoves(b: State, j: nat)
    requires j < |b.tasks| && TaskOk(b, j) && PastAcquire(b.tasks[j].pc) && FreeBut(b, j) && !b.tasks[j].pc.Removed?
    ensures Enabled(b, BuilderNext(b.tasks[j].pc, j))
    ensures var b' := Do(b, BuilderNext(b.tasks[j].pc, j));
            && |b'.tasks| == |b.tasks| && b'.tasks == b.tasks[j := b'.tasks[j]] && FreeBut(b', j)
            && b'.tasks[j].topic == b.tasks[j].topic
            && PastAcquire(b'.tasks[j].pc) && b'.tasks[j].pc.cell == b.tasks[j].pc.cell
            && Rank(b'.tasks[j].pc) == Rank(b.tasks[j].pc) - 1
  {
  }

  lemma BuilderFills(b: State, j: nat, i: nat)
    requires Inv(b) && j < |b.tasks| && b.tasks[j].pc.Removed? && FreeBut(b, j)
    ensures ReturnsIn(b, j, 1, i)
  {
    assert TaskOk(b, j);
    ReturnsNow(b, FillCell(j), j, i);
  }

  /** Whoever has the permit of a cell can go on to fill it, alone. */
  lemma {:induction false} BuilderFinishes(b: State, j: nat, i: nat)
    requires Inv(b) && j < |b.tasks| && PastAcquire(b.tasks[j].pc) && FreeBut(b, j)
    ensures ReturnsIn(b, j, Rank(b.tasks[j].pc) - 1, i)
    decreases Rank(b.tasks[j].pc)
  {
    var pc := b.tasks[j].pc;
    if pc.Removed? {
      BuilderFills(b, j, i);
    } else {
      BuilderMoves(b, j);
      var s := BuilderNext(pc, j);
      StepInv(b, s);
      BuilderFinishes(Do(b, s), j, i);
      ReturnsAfter(b, s, j, Rank(pc) - 2, i);
    }
  }

  lemma ReadsWhatWasFilled(b: State, u: State, j: nat, i: nat)
    requires HasReturned(b, u, j, i) && i < |b.tasks| && i != j
    requires b.tasks[i].pc.Waiting? && HasPermit(b.tasks[j].pc, b.tasks[i].pc.cell)
    ensures Enabled(u, ReadCell(i)) && HasReturned(b, Do(u, ReadCell(i)), i, i)
  {
  }

  /** Another task fills the cell that `i` waits on, and `i` reads it. */
  lemma ReadAfterBuilder(b: State, j: nat, i: nat)
    requires Inv(b) && Free(b) && i < |b.tasks| && j < |b.tasks| && i != j
    requires b.tasks[i].pc.Waiting? && HasPermit(b.tasks[j].pc, b.tasks[i].pc.cell)
    ensures ReturnsIn(b, i, 7, i)
  {
    BuilderFinishes(b, j, i);
    var steps, u :| Path(b, steps, u) && |steps| <= 6 && HasReturned(b, u, j, i);
    ReadsWhatWasFilled(b, u, j, i);
    OneStep(u, ReadCell(i));
    PathThen(b, steps, u, [ReadCell(i)], Do(u, ReadCell(i)));
  }

  lemma WaiterFinishes(b: State, i: nat)
    requires Inv(b) && i < |b.tasks| && b.tasks[i].pc.Waiting? && FreeBut(b, i)
    ensures ReturnsIn(b, i, 7, i)
  {
    assert TaskOk(b, i);
    var c := b.tasks[i].pc.cell;
    assert CellOk(b, c);
    if b.cells[c].value.Some? {
      ReturnsNow(b, ReadCell(i), i, i);
    } else if b.cells[c].holder.None? {
      StepInv(b, Acquire(i));
      BuilderFinishes(Do(b, Acquire(i)), i, i);
      ReturnsAfter(b, Acquire(i), i, 6, i);
    } else {
      ReadAfterBuilder(b, b.cells[c].holder.value, i);
    }
  }

  lemma {:induction false} CallFinishes(b: State, i: nat)
    requires Inv(b) && i < |b.tasks| && Active(b.tasks[i].pc) && FreeBut(b, i)
    ensures ReturnsIn(b, i, 10, i)
    decreases Rank(b.tasks[i].pc)
  {
    assert TaskOk(b, i);
    var pc := b.tasks[i].pc;
    if PastAcquire(pc) {
      BuilderFinishes(b, i, i);
    } else if pc.Waiting? {
      WaiterFinishes(b, i);
    } else {
      LookupFinishes(b, i);
    }
  }

  function LookupNext(pc: Pc, i: nat): Step {
    if pc.Want? then LockTopics(i) else if pc.Missed? then LockFlight(i) else UnlockBoth(i)
  }

  lemma LookupMoves(b: State, i: nat)
    requires i < |b.tasks| && TaskOk(b, i) && FreeBut(b, i)
    requires b.tasks[i].pc.Want? || b.tasks[i].pc.Missed? || b.tasks[i].pc.HoldsBoth?
    ensures Enabled(b, LookupNext(b.tasks[i].pc, i))
    ensures var b' := Do(b, LookupNext(b.tasks[i].pc, i)); var pc' := b'.tasks[i].pc;
            && |b'.tasks| == |b.tasks| && b'.tasks == b.tasks[i := b'.tasks[i]] && FreeBut(b', i)
            && b'.tasks[i].topic == b.tasks[i].topic
            && (b.tasks[i].pc.Want? ==> (pc'.Got? && Free(b')) || pc'.Missed?)
            && (b.tasks[i].pc.Missed? ==> pc'.HoldsBoth?) && (b.tasks[i].pc.HoldsBoth? ==> pc'.Waiting?)
  {
  }

  lemma LookupFinishes(b: State, i: nat)
    requires Inv(b) && i < |b.tasks| && FreeBut(b, i)
    requires b.tasks[i].pc.Want? || b.tasks[i].pc.Missed? || b.tasks[i].pc.HoldsBoth?
    ensures ReturnsIn(b, i, Rank(b.tasks[i].pc) - 1, i)
    decreases Rank(b.tasks[i].pc)
  {
    var pc := b.tasks[i].pc;
    var s := LookupNext(pc, i);
    LookupMoves(b, i);
    StepInv(b, s);
    if pc.HoldsBoth? {
      WaiterFinishes(Do(b, s), i);
      ReturnsAfter(b, s, i, 7, i);
    } else if Do(b, s).tasks[i].pc.Got? {
      ReturnsNow(b, s, i, i);
    } else {
      LookupFinishes(Do(b, s), i);
      ReturnsAfter(b, s, i, Rank(pc) - 2, i);
    }
  }

  /** In every reachable state, whatever failed or was cancelled before, every call in progress can
      still return a state, within 13 steps of calls in progress: nothing deadlocks, and no cell is
      left that nobody can initialise. */
  lemma EveryCallCanSucceed(run: seq<State>, steps: seq<Step>, k: nat, i: nat)
    requires IsRun(run, steps) && k < |run| && i < |run[k].tasks| && Active(run[k].tasks[i].pc)
    ensures exists path, u :: Path(run[k], path, u) && |path| <= 13 && i < |u.tasks| && u.tasks[i].pc.Got? &&
                              u.tasks[i].topic == run[k].tasks[i].topic
  {
    RunInv(run, steps, k);
    LocksCanBeFreed(run[k]);
    var first, m :| Path(run[k], first, m) && |first| <= 3 && Free(m) && Onward(run[k], m);
    PathInv(run[k], first, m);
    if !m.tasks[i].pc.Got? {
      CallFinishes(m, i);
      var rest, u :| Path(m, rest, u) && |rest| <= 10 && HasReturned(m, u, i, i);
      PathThen(run[k], first, m, rest, u);
    }
  }

  /** What a failed or cancelled subscription leaves behind: the cell, still in flight, with its
      permit free, and no live state. A later caller is given that same cell. */
  lemma FailureLeavesTheCell(run: seq<State>, steps: seq<Step>, k: nat)
    requires IsRun(run, steps) && k < |steps|
    requires steps[k].SubscribeErr? ||
             (steps[k].Cancel? && steps[k].i < |run[k].tasks| && run[k].tasks[steps[k].i].pc.Subscribing?)
    ensures var i := steps[k].i;
            && i < |run[k].tasks| && run[k].tasks[i].pc.Subscribing?
            && var t, c, u := run[k].tasks[i].topic, run[k].tasks[i].pc.cell, run[k + 1];
            && CellIs(u, c, false, false) && t in u.inFlight && u.inFlight[t] == c && NoPublic(u, t)
  {
    var b, i := run[k], steps[k].i;
    assert Enabled(b, steps[k]) && run[k + 1] == Do(b, steps[k]);
    RunInv(run, steps, k);
    RunInv(run, steps, k + 1);
    assert TaskOk(b, i);
    var c := b.tasks[i].pc.cell;
    assert CellOk(b, c) && CellOk(run[k + 1], c);
    assert FlightOk(run[k + 1], b.tasks[i].topic);
  }
}
