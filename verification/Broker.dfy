/** The broker's topic cache as a transition system: two mutexes, a map of weak pointers, a
    map of once-cells, and any number of tasks inside `get_or_insert_state`, one step per
    lock region or await. */
module Broker {
  import opened Wrappers

  /** Where a task is. `cell` is its reference to a once-cell, `st` its strong pointer. */
  datatype Pc =
    | Want                                       // about to lock the topics map
    | Missed                                     // holds topics: no live state there
    | HoldsBoth(cell: nat)                       // holds topics and in-flight, has its cell
    | Waiting(cell: nat)                         // in get_or_try_init, no lock
    | Subscribing(cell: nat)                     // has the cell's permit, awaits the subscription
    | Created(cell: nat, st: nat)                // has built the state
    | Publishing(cell: nat, st: nat)             // holds topics again
    | Published(cell: nat, st: nat)              // the weak pointer is in the map
    | Removing(cell: nat, st: nat)               // holds in-flight
    | Removed(cell: nat, st: nat)                // about to fill the cell
    | Got(st: nat)                               // get_or_insert_state has returned
    | Registered(st: nat, queue: seq<nat>)       // a WrappedReceiver with its state guard
    | SenderOnly(st: nat)                        // the receiver is dropped, a WrappedSender is left
    | Gone

  datatype Task = Task(topic: nat, pc: Pc)
  datatype Cell = Cell(topic: nat, value: Option<nat>, holder: Option<nat>)

  /** `topics` maps to weak pointers; `states` lists the topic of every state ever built. */
  datatype State = State(topics: map<nat, nat>, inFlight: map<nat, nat>,
                         topicsLock: Option<nat>, flightLock: Option<nat>,
                         cells: seq<Cell>, states: seq<nat>, tasks: seq<Task>)

  predicate Init(b: State) {
    b == State(map[], map[], None, None, [], [], [])
  }

  // ---------- strong pointers ----------

  function StateOf(pc: Pc): Option<nat> {
    match pc
    case Created(_, st) => Some(st)
    case Publishing(_, st) => Some(st)
    case Published(_, st) => Some(st)
    case Removing(_, st) => Some(st)
    case Removed(_, st) => Some(st)
    case Got(st) => Some(st)
    case Registered(st, _) => Some(st)
    case _ => None
  }

  function CellOf(pc: Pc): Option<nat> {
    match pc
    case HoldsBoth(c) => Some(c)
    case Waiting(c) => Some(c)
    case Subscribing(c) => Some(c)
    case Created(c, _) => Some(c)
    case Publishing(c, _) => Some(c)
    case Published(c, _) => Some(c)
    case Removing(c, _) => Some(c)
    case Removed(c, _) => Some(c)
    case _ => None
  }

  predicate HoldsState(pc: Pc, st: nat) { StateOf(pc) == Some(st) }
  predicate HoldsCell(pc: Pc, c: nat) { CellOf(pc) == Some(c) }

  predicate CellReferenced(b: State, c: nat) {
    || (exists t :: t in b.inFlight && b.inFlight[t] == c)
    || (exists i :: 0 <= i < |b.tasks| && HoldsCell(b.tasks[i].pc, c))
  }

  function TaskHolders(b: State, st: nat): set<nat> {
    set i | 0 <= i < |b.tasks| && HoldsState(b.tasks[i].pc, st)
  }

  /** A filled cell owns a strong pointer for as long as anything refers to the cell. */
  function CellHolders(b: State, st: nat): set<nat> {
    set c | 0 <= c < |b.cells| && b.cells[c].value == Some(st) && CellReferenced(b, c)
  }

  function StrongCount(b: State, st: nat): nat { |TaskHolders(b, st)| + |CellHolders(b, st)| }

  /** `Weak::upgrade` succeeds exactly on a positive strong count. */
  predicate Live(b: State, st: nat) { StrongCount(b, st) > 0 }

  lemma LiveMeans(b: State, st: nat)
    ensures Live(b, st) <==>
              || (exists i :: 0 <= i < |b.tasks| && HoldsState(b.tasks[i].pc, st))
              || (exists c :: 0 <= c < |b.cells| && b.cells[c].value == Some(st) && CellReferenced(b, c))
  {
    if i :| 0 <= i < |b.tasks| && HoldsState(b.tasks[i].pc, st) { assert i in TaskHolders(b, st); }
    if c :| 0 <= c < |b.cells| && b.cells[c].value == Some(st) && CellReferenced(b, c) {
      assert c in CellHolders(b, st);
    }
    if Live(b, st) {
      if TaskHolders(b, st) != {} { var i :| i in TaskHolders(b, st); }
      else { assert CellHolders(b, st) != {}; var c :| c in CellHolders(b, st); }
    }
  }

  predicate Receiving(b: State, st: nat) {
    exists i :: 0 <= i < |b.tasks| && b.tasks[i].pc.Registered? && b.tasks[i].pc.st == st
  }

  // ---------- steps ----------

  datatype Step =
    | Call(topic: nat)
    | LockTopics(i: nat)
    | LockFlight(i: nat)
    | UnlockBoth(i: nat)
    | ReadCell(i: nat)
    | Acquire(i: nat)
    | SubscribeOk(i: nat)
    | SubscribeErr(i: nat)
    | Cancel(i: nat)
    | LockPublish(i: nat)
    | Publish(i: nat)
    | LockRemove(i: nat)
    | Remove(i: nat)
    | FillCell(i: nat)
    | Subscribe(i: nat)
    | Send(i: nat, m: nat)
    | Receive(i: nat)
    | DropReceiver(i: nat)
    | DropSender(i: nat)

  predicate CellIs(b: State, c: nat, initialised: bool, taken: bool) {
    c < |b.cells| && (b.cells[c].value.Some? <==> initialised) && (b.cells[c].holder.Some? <==> taken)
  }

  predicate Enabled(b: State, s: Step) {
    if s.Call? then true
    else if s.i >= |b.tasks| then false
    else
      var pc := b.tasks[s.i].pc;
      match s
      case LockTopics(_) => pc.Want? && b.topicsLock.None?
      case LockFlight(_) => pc.Missed? && b.flightLock.None?
      case UnlockBoth(_) => pc.HoldsBoth?
      case ReadCell(_) => pc.Waiting? && pc.cell < |b.cells| && b.cells[pc.cell].value.Some?
      case Acquire(_) => pc.Waiting? && CellIs(b, pc.cell, false, false)
      case SubscribeOk(_) => pc.Subscribing?
      case SubscribeErr(_) => pc.Subscribing? && pc.cell < |b.cells|
      case Cancel(_) => pc.Waiting? || (pc.Subscribing? && pc.cell < |b.cells|)
      case LockPublish(_) => pc.Created? && b.topicsLock.None?
      case Publish(_) => pc.Publishing?
      case LockRemove(_) => pc.Published? && b.flightLock.None?
      case Remove(_) => pc.Removing?
      case FillCell(_) => pc.Removed? && pc.cell < |b.cells|
      case Subscribe(_) => pc.Got?
      case Send(_, _) => pc.Registered? || pc.SenderOnly?
      case Receive(_) => pc.Registered? && pc.queue != []
      case DropReceiver(_) => pc.Registered?
      case DropSender(_) => pc.SenderOnly?
  }

  function At(b: State, i: nat, pc: Pc): State
    requires i < |b.tasks|
  {
    b.(tasks := b.tasks[i := b.tasks[i].(pc := pc)])
  }

  /** Lookup under the topics lock: a live state is returned and the lock released. */
  function DoLockTopics(b: State, i: nat): State
    requires i < |b.tasks|
  {
    var t := b.tasks[i].topic;
    if t in b.topics && Live(b, b.topics[t]) then At(b, i, Got(b.topics[t]))
    else At(b, i, Missed).(topicsLock := Some(i))
  }

  /** Still under the topics lock, take the in-flight cell or make one. */
  function DoLockFlight(b: State, i: nat): State
    requires i < |b.tasks|
  {
    var t := b.tasks[i].topic;
    if t in b.inFlight then At(b, i, HoldsBoth(b.inFlight[t])).(flightLock := Some(i))
    else
      At(b, i, HoldsBoth(|b.cells|)).(flightLock := Some(i), inFlight := b.inFlight[t := |b.cells|],
                                      cells := b.cells + [Cell(t, None, None)])
  }

  function FreePermit(b: State, c: nat): State
    requires c < |b.cells|
  {
    b.(cells := b.cells[c := b.cells[c].(holder := None)])
  }

  function Enqueue(t: Task, st: nat, m: nat): Task {
    if t.pc.Registered? && t.pc.st == st then t.(pc := Registered(st, t.pc.queue + [m])) else t
  }

  /** A send on a channel without receivers is rejected. */
  function DoSend(b: State, st: nat, m: nat): State {
    if Receiving(b, st) then b.(tasks := seq(|b.tasks|, j requires 0 <= j < |b.tasks| => Enqueue(b.tasks[j], st, m)))
    else b
  }

  function Do(b: State, s: Step): State
    requires Enabled(b, s)
  {
    match s
    case Call(topic) => b.(tasks := b.tasks + [Task(topic, Want)])
    case LockTopics(i) => DoLockTopics(b, i)
    case LockFlight(i) => DoLockFlight(b, i)
    case UnlockBoth(i) => At(b, i, Waiting(b.tasks[i].pc.cell)).(topicsLock := None, flightLock := None)
    case ReadCell(i) => At(b, i, Got(b.cells[b.tasks[i].pc.cell].value.value))
    case Acquire(i) =>
      var c := b.tasks[i].pc.cell;
      At(b, i, Subscribing(c)).(cells := b.cells[c := b.cells[c].(holder := Some(i))])
    case SubscribeOk(i) =>
      At(b, i, Created(b.tasks[i].pc.cell, |b.states|)).(states := b.states + [b.tasks[i].topic])
    case SubscribeErr(i) => FreePermit(At(b, i, Gone), b.tasks[i].pc.cell)
    case Cancel(i) =>
      if b.tasks[i].pc.Waiting? then At(b, i, Gone) else FreePermit(At(b, i, Gone), b.tasks[i].pc.cell)
    case LockPublish(i) => At(b, i, Publishing(b.tasks[i].pc.cell, b.tasks[i].pc.st)).(topicsLock := Some(i))
    case Publish(i) =>
      At(b, i, Published(b.tasks[i].pc.cell, b.tasks[i].pc.st)).(
        topicsLock := None, topics := b.topics[b.tasks[i].topic := b.tasks[i].pc.st])
    case LockRemove(i) => At(b, i, Removing(b.tasks[i].pc.cell, b.tasks[i].pc.st)).(flightLock := Some(i))
    case Remove(i) =>
      At(b, i, Removed(b.tasks[i].pc.cell, b.tasks[i].pc.st)).(
        flightLock := None, inFlight := b.inFlight - {b.tasks[i].topic})
    case FillCell(i) =>
      var pc := b.tasks[i].pc;
      At(b, i, Got(pc.st)).(cells := b.cells[pc.cell := b.cells[pc.cell].(value := Some(pc.st), holder := None)])
    case Subscribe(i) => At(b, i, Registered(b.tasks[i].pc.st, []))
    case Send(i, m) => DoSend(b, b.tasks[i].pc.st, m)
    case Receive(i) => At(b, i, Registered(b.tasks[i].pc.st, b.tasks[i].pc.queue[1..]))
    case DropReceiver(i) => At(b, i, SenderOnly(b.tasks[i].pc.st))
    case DropSender(i) => At(b, i, Gone)
  }

  ghost predicate IsRun(run: seq<State>, steps: seq<Step>) {
    && |run| == |steps| + 1 && Init(run[0])
    && forall i :: 0 <= i < |steps| ==> Enabled(run[i], steps[i]) && run[i + 1] == Do(run[i], steps[i])
  }
}
