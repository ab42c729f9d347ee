/** Conservation: every PDU handed to sendBytes is in exactly one place, and the depth gauge counts it while it waits. */
module SessionLedger {
  import opened Session
  import opened SessionOrder

  // ----- conservation -----
  // Counted one PDU at a time: `Is(p, q)` is 1 exactly when q is the PDU being followed.

  function Is(p: Pdu, q: Pdu): nat {
    if p == q then 1 else 0
  }

  function Raised(out: Out): nat {
    if out.Blocked? then 1 else 0
  }

  function TaskHolds(p: Pdu, t: Task): nat {
    if t.pc.TaskSends? then Is(p, t.pc.out.p) else 0
  }

  function TaskRaises(t: Task): nat {
    if t.pc.TaskSends? then Raised(t.pc.out) else 0
  }

  /** How many deferred sends hold `p` inside sendBytes. */
  function HeldByTasks(p: Pdu, ts: seq<Task>): nat {
    if ts == [] then 0 else HeldByTasks(p, ts[..|ts| - 1]) + TaskHolds(p, ts[|ts| - 1])
  }

  /** How many deferred sends still count in the depth gauge. */
  function RaisedByTasks(ts: seq<Task>): nat {
    if ts == [] then 0 else RaisedByTasks(ts[..|ts| - 1]) + TaskRaises(ts[|ts| - 1])
  }

  function HeldByMain(p: Pdu, m: Main): nat {
    if m.Sending? then Is(p, m.out.p) else if m.SweepHolds? then Is(p, m.p) else 0
  }

  function RaisedByMain(m: Main): nat {
    if m.Sending? then Raised(m.out) else if m.SweepHolds? && !m.counted then 1 else 0
  }

  function HeldByWriter(p: Pdu, w: Writer): nat {
    if w.Took? || w.Writing? || w.Failed? then Is(p, w.p) else 0
  }

  function HeldByCloser(p: Pdu, c: Closer): nat {
    if c.CloserSends? then Is(p, c.out.p) else 0
  }

  function RaisedByCloser(c: Closer): nat {
    if c.CloserSends? then Raised(c.out) else 0
  }

  /** Copies of `p` inside some actor: handed over, not queued, neither written nor counted dropped. */
  function InTransit(p: Pdu, s: State): nat {
    HeldByMain(p, s.main) + HeldByCloser(p, s.closer) + HeldByWriter(p, s.writer) + HeldByTasks(p, s.tasks)
  }

  /** PDUs inside some actor that the depth gauge still counts. */
  function RaisedInTransit(s: State): nat {
    RaisedByMain(s.main) + RaisedByCloser(s.closer) + (if s.writer.Took? then 1 else 0) + RaisedByTasks(s.tasks)
  }

  predicate Balanced(p: Pdu, s: State) {
    && s.gauge.handed[p] == multiset(s.wire)[p] + s.gauge.dropped[p] + multiset(s.queue)[p] + InTransit(p, s)
    && s.gauge.depth == |s.queue| + RaisedInTransit(s)
  }

  lemma {:induction false} HeldUpdate(p: Pdu, ts: seq<Task>, t: nat, task: Task)
    requires t < |ts|
    ensures HeldByTasks(p, ts[t := task]) + TaskHolds(p, ts[t]) == HeldByTasks(p, ts) + TaskHolds(p, task)
    ensures RaisedByTasks(ts[t := task]) + TaskRaises(ts[t]) == RaisedByTasks(ts) + TaskRaises(task)
  {
    var n := |ts| - 1;
    if t == n {
      assert ts[t := task][..n] == ts[..n];
    } else {
      HeldUpdate(p, ts[..n], t, task);
      assert ts[t := task][..n] == ts[..n][t := task];
    }
  }

  lemma {:induction false} HeldAppend(p: Pdu, ts: seq<Task>, task: Task)
    requires !task.pc.TaskSends?
    ensures HeldByTasks(p, ts + [task]) == HeldByTasks(p, ts) && RaisedByTasks(ts + [task]) == RaisedByTasks(ts)
  {
    assert (ts + [task])[..|ts|] == ts;
  }

  lemma {:induction false} HeadTail(p: Pdu, q: seq<Pdu>)
    requires q != []
    ensures multiset(q)[p] == Is(p, q[0]) + multiset(q[1..])[p]
  {
    assert q == [q[0]] + q[1..];
  }

  lemma {:induction false} BalanceStep(p: Pdu, s: State, a: Action)
    requires PhaseInv(s) && Balanced(p, s) && StepTo(s, a).Some?
    ensures Balanced(p, StepTo(s, a).value)
  {
    match a
    case Quit =>
    case TimerFires(t) => BalanceTimer(p, s, t);
    case Read(r) => BalanceRead(p, s, r);
    case Send(w, x) => BalanceSend(p, s, w, x);
    case Write(w) => BalanceWrite(p, s, w);
    case Close(c) => BalanceClose(p, s, c);
    case Defer(t, d) => BalanceDefer(p, s, t, d);
    case Tear(d) => BalanceTear(p, s, d);
  }

  lemma {:induction false} BalanceRead(p: Pdu, s: State, r: ReaderAct)
    requires Balanced(p, s) && ReaderNext(s, r).Some?
    ensures Balanced(p, ReaderNext(s, r).value)
  {
    var s' := ReaderNext(s, r).value;
    ReadEffect(s, r);
    if s'.tasks != s.tasks {
      HeldAppend(p, s.tasks, s'.tasks[|s.tasks|]);
    }
  }

  lemma {:induction false} BalanceSend(p: Pdu, s: State, w: Who, x: SendAct)
    requires PhaseInv(s) && Balanced(p, s) && SendNext(s, w, x).Some?
    ensures Balanced(p, SendNext(s, w, x).value)
  {
    match x
    case Enqueue => BalanceEnqueue(p, s, w);
    case GiveUp => BalanceGiveUp(p, s, w);
    case CountDrop => BalanceCountDrop(p, s, w);
  }

  /** Queue and wire untouched: what leaves one actor enters another or the drop counter. */
  lemma {:induction false} BalanceMoved(p: Pdu, s: State, s': State)
    requires Balanced(p, s) && s'.queue == s.queue && s'.wire == s.wire && s'.gauge.handed == s.gauge.handed
    requires s'.gauge.dropped[p] + InTransit(p, s') == s.gauge.dropped[p] + InTransit(p, s)
    requires s'.gauge.depth - RaisedInTransit(s') == s.gauge.depth - RaisedInTransit(s)
    ensures Balanced(p, s')
  {
  }

  lemma {:induction false} DropCounted(p: Pdu, g: Gauge, q: Pdu)
    ensures CountDropped(g, q).dropped[p] == g.dropped[p] + Is(p, q)
    ensures CountDropped(g, q).handed == g.handed && CountDropped(g, q).depth == g.depth
  {
  }

  lemma {:induction false} BalanceGiveUp(p: Pdu, s: State, w: Who)
    requires Balanced(p, s) && SendNext(s, w, GiveUp).Some?
    ensures Balanced(p, SendNext(s, w, GiveUp).value)
  {
    var s' := SendNext(s, w, GiveUp).value;
    if w.TaskActor? {
      HeldUpdate(p, s.tasks, w.t, s'.tasks[w.t]);
    }
    BalanceMoved(p, s, s');
  }

  lemma {:induction false} BalanceCountDrop(p: Pdu, s: State, w: Who)
    requires Balanced(p, s) && SendNext(s, w, CountDrop).Some?
    ensures Balanced(p, SendNext(s, w, CountDrop).value)
  {
    var s', q := SendNext(s, w, CountDrop).value, OutOf(s, w).value.p;
    DropCounted(p, s.gauge, q);
    match w
    case Reader => assert InTransit(p, s') + Is(p, q) == InTransit(p, s) && RaisedInTransit(s') == RaisedInTransit(s);
    case CloserActor => assert InTransit(p, s') + Is(p, q) == InTransit(p, s) && RaisedInTransit(s') == RaisedInTransit(s);
    case TaskActor(t) =>
      HeldUpdate(p, s.tasks, t, s'.tasks[t]);
      assert InTransit(p, s') + Is(p, q) == InTransit(p, s) && RaisedInTransit(s') == RaisedInTransit(s);
    BalanceMoved(p, s, s');
  }

  lemma {:induction false} BalanceEnqueue(p: Pdu, s: State, w: Who)
    requires PhaseInv(s) && Balanced(p, s) && SendNext(s, w, Enqueue).Some?
    ensures Balanced(p, SendNext(s, w, Enqueue).value)
  {
    PhaseSend(s, w, Enqueue);
    QueueTail(p, s.queue, OutOf(s, w).value.p);
    if w.TaskActor? {
      HeldUpdate(p, s.tasks, w.t, SendNext(s, w, Enqueue).value.tasks[w.t]);
    }
  }

  lemma {:induction false} QueueTail(p: Pdu, q: seq<Pdu>, last: Pdu)
    ensures multiset(q + [last])[p] == multiset(q)[p] + Is(p, last)
  {
  }

  lemma {:induction false} BalanceTimer(p: Pdu, s: State, t: nat)
    requires Balanced(p, s) && TimerNext(s, t).Some?
    ensures Balanced(p, TimerNext(s, t).value)
  {
    HeldUpdate(p, s.tasks, t, s.tasks[t].(wait := Timer(true)));
  }

  lemma {:induction false} BalanceClose(p: Pdu, s: State, c: CloserAct)
    requires Balanced(p, s) && CloserNext(s, c).Some?
    ensures Balanced(p, CloserNext(s, c).value)
  {
  }

  lemma {:induction false} BalanceWrite(p: Pdu, s: State, w: WriterAct)
    requires Balanced(p, s) && WriterNext(s, w).Some?
    ensures Balanced(p, WriterNext(s, w).value)
  {
    match w
    case Take => BalanceTake(p, s);
    case WriteOk => BalanceWriteOk(p, s);
    case CountFailed => BalanceCountFailed(p, s);
    case _ => BalanceMoved(p, s, WriterNext(s, w).value);
  }

  lemma {:induction false} BalanceCountFailed(p: Pdu, s: State)
    requires Balanced(p, s) && WriterNext(s, CountFailed).Some?
    ensures Balanced(p, WriterNext(s, CountFailed).value)
  {
    DropCounted(p, s.gauge, s.writer.p);
    BalanceMoved(p, s, WriterNext(s, CountFailed).value);
  }

  lemma {:induction false} BalanceTake(p: Pdu, s: State)
    requires Balanced(p, s) && WriterNext(s, Take).Some?
    ensures Balanced(p, WriterNext(s, Take).value)
  {
    HeadTail(p, s.queue);
  }

  lemma {:induction false} BalanceWriteOk(p: Pdu, s: State)
    requires Balanced(p, s) && WriterNext(s, WriteOk).Some?
    ensures Balanced(p, WriterNext(s, WriteOk).value)
  {
    QueueTail(p, s.wire, s.writer.p);
  }

  lemma {:induction false} BalanceDefer(p: Pdu, s: State, t: nat, d: TaskAct)
    requires Balanced(p, s) && TaskNext(s, t, d).Some?
    ensures Balanced(p, TaskNext(s, t, d).value)
  {
    HeldUpdate(p, s.tasks, t, TaskNext(s, t, d).value.tasks[t]);
  }

  lemma {:induction false} BalanceTear(p: Pdu, s: State, d: TearAct)
    requires Balanced(p, s) && TearNext(s, d).Some?
    ensures Balanced(p, TearNext(s, d).value)
  {
    match d
    case SweepTake => BalanceSweepTake(p, s);
    case SweepDecrement => BalanceSweepDecrement(p, s);
    case SweepDrop => BalanceSweepDrop(p, s);
    case _ => BalanceIdle(p, s, TearNext(s, d).value);
  }

  /** The read goroutine holds nothing before and after. */
  lemma {:induction false} BalanceIdle(p: Pdu, s: State, s': State)
    requires Balanced(p, s) && s' == s.(main := s'.main, fate := s'.fate)
    requires !s.main.Sending? && !s.main.SweepHolds? && !s'.main.Sending? && !s'.main.SweepHolds?
    ensures Balanced(p, s')
  {
    BalanceMoved(p, s, s');
  }

  lemma {:induction false} BalanceSweepDecrement(p: Pdu, s: State)
    requires Balanced(p, s) && TearNext(s, SweepDecrement).Some?
    ensures Balanced(p, TearNext(s, SweepDecrement).value)
  {
    BalanceMoved(p, s, TearNext(s, SweepDecrement).value);
  }

  lemma {:induction false} BalanceSweepDrop(p: Pdu, s: State)
    requires Balanced(p, s) && TearNext(s, SweepDrop).Some?
    ensures Balanced(p, TearNext(s, SweepDrop).value)
  {
    DropCounted(p, s.gauge, s.main.p);
    BalanceMoved(p, s, TearNext(s, SweepDrop).value);
  }

  lemma {:induction false} BalanceSweepTake(p: Pdu, s: State)
    requires Balanced(p, s) && TearNext(s, SweepTake).Some?
    ensures Balanced(p, TearNext(s, SweepTake).value)
  {
    HeadTail(p, s.queue);
  }
}
