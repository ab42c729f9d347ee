/** The teardown terminates: every step of any actor lowers a measure, and some actor can always step until it is over. */
module SessionTeardown {
  import opened Session
  import opened SessionOrder

  function MainWork(m: Main): nat {
    match m
    case Ended => 12
    case DoneClosed => 11
    case CloserJoined => 10
    case DeferredStopped => 9
    case DeferredJoined => 8
    case QueueClosed => 7
    case SweepHolds(_, counted) => if counted then 5 else 6
    case Sweeping => 4
    case Swept => 1
    case _ => 0
  }

  /** Work left inside sendBytes, the writer's four steps on a queued PDU included. */
  function OutWork(out: Out): nat {
    if out.Blocked? then 5 else 1
  }

  function CloserWork(c: Closer): nat {
    match c
    case CloserWaits => 7
    case CloserWoken => 6
    case CloserSends(out) => OutWork(out)
    case CloserDone => 0
  }

  function WriterWork(w: Writer): nat {
    match w
    case Took(_) => 4
    case Writing(_) => 3
    case Failed(_) => 2
    case WIdle => 2
    case Returning => 1
    case WClosed => 0
  }

  function TaskWork(t: Task): nat {
    (if t.wait == Timer(false) then 1 else 0)
    + match t.pc
      case Waiting => 7
      case TaskSends(out) => OutWork(out) + 1
      case Signalling => 1
      case Done => 0
      case Cancelled => 0
  }

  function TasksWork(ts: seq<Task>): nat {
    if ts == [] then 0 else TasksWork(ts[..|ts| - 1]) + TaskWork(ts[|ts| - 1])
  }

  /** An upper bound on the steps all actors together can still take once the read loop has returned. */
  function Work(s: State): nat {
    MainWork(s.main) + CloserWork(s.closer) + WriterWork(s.writer) + 4 * |s.queue| + TasksWork(s.tasks)
    + if s.quit then 0 else 1
  }

  lemma {:induction false} TasksWorkUpdate(ts: seq<Task>, t: nat, task: Task)
    requires t < |ts|
    ensures TasksWork(ts[t := task]) + TaskWork(ts[t]) == TasksWork(ts) + TaskWork(task)
  {
    var n := |ts| - 1;
    if t == n {
      assert ts[t := task][..n] == ts[..n];
    } else {
      TasksWorkUpdate(ts[..n], t, task);
      assert ts[t := task][..n] == ts[..n][t := task];
    }
  }

  lemma {:induction false} WorkDrops(s: State, a: Action)
    requires PhaseInv(s) && Phase(s.main) >= 1 && StepTo(s, a).Some?
    ensures Phase(StepTo(s, a).value.main) >= 1 && Work(StepTo(s, a).value) < Work(s)
  {
    match a
    case Quit =>
    case TimerFires(t) => TasksWorkUpdate(s.tasks, t, s.tasks[t].(wait := Timer(true)));
    case Read(r) => assert false;
    case Send(w, x) => SendWorkDrops(s, w, x);
    case Write(w) => WriteWorkDrops(s, w);
    case Close(c) => CloseWorkDrops(s, c);
    case Defer(t, d) => DeferWorkDrops(s, t, d);
    case Tear(d) => TearWorkDrops(s, d);
  }

  lemma {:induction false} WriteWorkDrops(s: State, w: WriterAct)
    requires WriterNext(s, w).Some?
    ensures WriterNext(s, w).value.main == s.main && Work(WriterNext(s, w).value) < Work(s)
  {
  }

  lemma {:induction false} CloseWorkDrops(s: State, c: CloserAct)
    requires CloserNext(s, c).Some?
    ensures CloserNext(s, c).value.main == s.main && Work(CloserNext(s, c).value) < Work(s)
  {
  }

  lemma {:induction false} DeferWorkDrops(s: State, t: nat, d: TaskAct)
    requires TaskNext(s, t, d).Some?
    ensures TaskNext(s, t, d).value.main == s.main && Work(TaskNext(s, t, d).value) < Work(s)
  {
    TasksWorkUpdate(s.tasks, t, TaskNext(s, t, d).value.tasks[t]);
  }

  lemma {:induction false} TearWorkDrops(s: State, d: TearAct)
    requires TearNext(s, d).Some?
    ensures Phase(TearNext(s, d).value.main) >= 1 && Work(TearNext(s, d).value) < Work(s)
  {
  }

  lemma {:induction false} SendWorkDrops(s: State, w: Who, x: SendAct)
    requires PhaseInv(s) && Phase(s.main) >= 1 && SendNext(s, w, x).Some?
    ensures Phase(SendNext(s, w, x).value.main) >= 1 && Work(SendNext(s, w, x).value) < Work(s)
  {
    PhaseSend(s, w, x);
    if w.TaskActor? {
      TasksWorkUpdate(s.tasks, w.t, SendNext(s, w, x).value.tasks[w.t]);
    }
  }

  /** An actor, not the environment, takes the step. */
  predicate ByActor(a: Action) {
    !a.Quit? && !a.TimerFires?
  }

  /** A step of an actor that fails no write and starts no deferred send. */
  predicate Calm(a: Action) {
    ByActor(a) && a != Write(WriteFails) && !(a.Defer? && a.task.Ready?)
  }

  lemma {:induction false} WriterCanStep(s: State) returns (a: Action)
    requires !s.fate.panicked && !s.writer.WClosed? && (s.queue != [] || IsQueueClosed(s) || !s.writer.WIdle?)
    ensures Calm(a) && StepTo(s, a).Some?
  {
    a := Write(match s.writer
               case WIdle => if s.queue != [] then Take else WriterReturns
               case Took(_) => Decrement
               case Writing(_) => WriteOk
               case Failed(_) => CountFailed
               case Returning => WriterCloses
               case WClosed => assert false; Take);
  }

  lemma {:induction false} SenderCanStep(s: State, w: Who) returns (a: Action)
    requires PhaseInv(s) && OutOf(s, w).Some?
    ensures Calm(a) && StepTo(s, a).Some?
  {
    if OutOf(s, w).value.Dropping? {
      a := Send(w, CountDrop);
    } else if s.writer.WClosed? {
      a := Send(w, GiveUp);
    } else if |s.queue| < QUEUE_CAPACITY {
      a := Send(w, Enqueue);
    } else {
      a := WriterCanStep(s);
    }
  }

  lemma {:induction false} TeardownCanStep(s: State) returns (a: Action)
    requires PhaseInv(s) && Phase(s.main) >= 1 && !s.main.Finished?
    ensures Calm(a) && StepTo(s, a).Some?
  {
    match s.main
    case Ended => a := Tear(CloseDone);
    case DoneClosed =>
      match s.closer {
        case CloserWaits => a := Close(WakeOnDone);
        case CloserWoken => a := Close(if s.bind.bound then SendUnbind else SkipUnbind);
        case CloserSends(_) => a := SenderCanStep(s, CloserActor);
        case CloserDone => a := Tear(JoinCloser);
      }
    case CloserJoined => a := Tear(StopDeferred);
    case DeferredStopped =>
      if AllFinished(s.tasks) {
        a := Tear(JoinDeferred);
      } else {
        var t: nat :| t < |s.tasks| && !Finishes(s.tasks[t]);
        a := TaskCanStep(s, t);
      }
    case DeferredJoined => a := Tear(CloseQueue);
    case QueueClosed =>
      if s.writer.WClosed? {
        a := Tear(JoinWriter);
      } else {
        a := WriterCanStep(s);
      }
    case Sweeping => a := Tear(if s.queue == [] then SweepEnds else SweepTake);
    case SweepHolds(_, counted) => a := Tear(if counted then SweepDrop else SweepDecrement);
    case Swept => a := Tear(Record);
  }

  /** A deferred send never blocks the teardown, whatever it waits on: a response that will never be sent included. */
  lemma {:induction false} TaskCanStep(s: State, t: nat) returns (a: Action)
    requires PhaseInv(s) && s.main.DeferredStopped? && t < |s.tasks| && !Finishes(s.tasks[t])
    ensures Calm(a) && StepTo(s, a).Some?
  {
    if s.tasks[t].pc.Waiting? {
      a := Defer(t, Cancel);
    } else if s.tasks[t].pc.Signalling? {
      a := Defer(t, Signal);
    } else {
      a := SenderCanStep(s, TaskActor(t));
    }
  }

  // ----- one deferred send over a step of the teardown -----

  /** The sender of task `t` got past its wait: nothing cancels it any more. */
  predicate Unstoppable(s: State, t: nat)
    requires t < |s.tasks|
  {
    !s.tasks[t].pc.Waiting? && !s.tasks[t].pc.Cancelled?
  }

  lemma {:induction false} SendKeepsTask(s: State, w: Who, x: SendAct, t: nat)
    requires t < |s.tasks| && SendNext(s, w, x).Some?
    ensures
      var s' := SendNext(s, w, x).value;
      && |s'.tasks| == |s.tasks| && s'.tasks[t].pdu == s.tasks[t].pdu && s'.tasks[t].wait == s.tasks[t].wait
      && (!Unstoppable(s, t) ==> s'.tasks[t] == s.tasks[t]) && (Unstoppable(s, t) ==> Unstoppable(s', t))
  {
  }

  /** What a step of the teardown may do to a deferred send; a calm one never starts it. */
  lemma {:induction false} StepKeepsTask(s: State, a: Action, t: nat)
    requires Phase(s.main) >= 1 && t < |s.tasks| && StepTo(s, a).Some?
    ensures
      var s' := StepTo(s, a).value;
      && |s'.tasks| == |s.tasks| && s'.tasks[t].pdu == s.tasks[t].pdu && s'.tasks[t].wait.Timer? == s.tasks[t].wait.Timer?
      && (s.tasks[t].pc.Cancelled? ==> s'.tasks[t].pc.Cancelled?)
      && (Unstoppable(s, t) ==> Unstoppable(s', t))
      && (Calm(a) && !Unstoppable(s, t) ==> !Unstoppable(s', t))
  {
    match a
    case Send(w, x) => SendKeepsTask(s, w, x, t);
    case Read(r) => assert false;
    case _ =>
  }

  lemma {:induction false} CalmFailsNoWrite(s: State, a: Action)
    requires Phase(s.main) >= 1 && StepTo(s, a).Some? && Calm(a) && !s.fate.writeFailed
    ensures !StepTo(s, a).value.fate.writeFailed
  {
  }
}
