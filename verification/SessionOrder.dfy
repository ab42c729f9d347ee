/**
  Ordering in the session protocol, over every interleaving: a delivery receipt is never queued
  where it could reach the wire before the response to its own submit, and the teardown stages
  happen in order, so nobody is left to send when the queue closes.
*/
module SessionOrder {
  import opened Wrappers
  import opened Session

  // ----- ordering: a receipt never overtakes its response -----

  predicate Live(w: Writer) {
    !w.Returning? && !w.WClosed?
  }

  /** Everything written, or still able to be written, in wire order. */
  function Stream(s: State): seq<Pdu> {
    match s.writer
    case WIdle => s.wire + s.queue
    case Took(p) => s.wire + [p] + s.queue
    case Writing(p) => s.wire + [p] + s.queue
    case Failed(p) => s.wire + [p] + s.queue
    case Returning => s.wire
    case WClosed => s.wire
  }

  predicate Ordered(pdus: seq<Pdu>) {
    forall i :: 0 <= i < |pdus| && pdus[i].Dlr? ==> Resp(pdus[i].origin) in pdus[..i]
  }

  /** The response to submit `o` is ahead of anything that can still be queued for writing. */
  predicate Passed(s: State, o: nat) {
    Live(s.writer) ==> Resp(o) in Stream(s)
  }

  predicate EventOk(s: State, e: Event) {
    match e
    case MoEvent => true
    case DlrEvent(o, None) => Passed(s, o)
    case DlrEvent(o, Some(t)) => t < |s.tasks| && s.tasks[t].wait.Timer? && s.tasks[t].pdu == Resp(o)
  }

  predicate EventsOk(s: State, es: seq<Event>) {
    forall i :: 0 <= i < |es| ==> EventOk(s, es[i])
  }

  predicate OutOk(s: State, out: Out) {
    match out
    case Blocked(p) => p.Dlr? ==> Passed(s, p.origin)
    case Dropping(_) => s.writer.WClosed?
  }

  predicate TaskOk(s: State, t: nat)
    requires t < |s.tasks|
  {
    var task := s.tasks[t];
    && (match task.wait
        case Timer(_) => task.pdu.Resp?
        case AfterSent(u) =>
          task.pdu.Dlr? && u < t && s.tasks[u].wait.Timer? && s.tasks[u].pdu == Resp(task.pdu.origin))
    && (task.pc.TaskSends? ==> task.pc.out.p == task.pdu && OutOk(s, task.pc.out))
    && ((task.pc.Signalling? || task.pc.Done?) && task.pdu.Resp? ==> Passed(s, task.pdu.origin))
  }

  predicate NextOk(s: State, next: Next) {
    && (next.ToPlanDlr? ==> Passed(s, next.origin))
    && (next.ToDispatch? ==> EventsOk(s, next.rest))
  }

  predicate MainOk(s: State) {
    match s.main
    case Sending(out, next) =>
      && OutOk(s, out)
      && (if next.ToPlanDlr? then out.p == Resp(next.origin) else NextOk(s, next))
    case Sent(next) => NextOk(s, next)
    case Dispatching(es, _) => EventsOk(s, es)
    case _ => true
  }

  predicate TasksOk(s: State) {
    forall t: nat :: t < |s.tasks| ==> TaskOk(s, t)
  }

  ghost predicate OrderInv(s: State) {
    && Ordered(Stream(s))
    && EventsOk(s, s.sched)
    && MainOk(s)
    && (s.closer.CloserSends? ==> s.closer.out.p == Control && OutOk(s, s.closer.out))
    && TasksOk(s)
  }

  /** What a step may do to a state without disturbing an ordering obligation. */
  predicate Grows(s: State, s': State) {
    && |s.tasks| <= |s'.tasks|
    && (forall t :: 0 <= t < |s.tasks| ==>
          s'.tasks[t].pdu == s.tasks[t].pdu && s'.tasks[t].wait.Timer? == s.tasks[t].wait.Timer?)
    && (s.writer.WClosed? ==> s'.writer.WClosed?)
    && (!Live(s.writer) ==> !Live(s'.writer))
    && (Live(s'.writer) ==> Stream(s) <= Stream(s'))
  }

  lemma {:induction false} PassedGrows(s: State, s': State, o: nat)
    requires Grows(s, s') && Passed(s, o)
    ensures Passed(s', o)
  {
  }

  lemma {:induction false} EventsGrow(s: State, s': State, es: seq<Event>)
    requires Grows(s, s') && EventsOk(s, es)
    ensures EventsOk(s', es)
  {
    forall i | 0 <= i < |es| ensures EventOk(s', es[i]) {
      assert EventOk(s, es[i]);
    }
  }

  lemma {:induction false} OrderedPrefix(a: seq<Pdu>, b: seq<Pdu>)
    requires a <= b && Ordered(b)
    ensures Ordered(a)
  {
    forall i | 0 <= i < |a| && a[i].Dlr? ensures Resp(a[i].origin) in a[..i] {
      assert a[..i] == b[..i];
    }
  }

  lemma {:induction false} OrderedAppend(a: seq<Pdu>, p: Pdu)
    requires Ordered(a) && (p.Dlr? ==> Resp(p.origin) in a)
    ensures Ordered(a + [p])
  {
    var b := a + [p];
    forall i | 0 <= i < |b| && b[i].Dlr? ensures Resp(b[i].origin) in b[..i] {
      assert b[..i] == a[..i];
    }
  }

  // ----- teardown order -----

  /** What each stage of the teardown has established. */
  ghost predicate PhaseInv(s: State) {
    && !s.fate.panicked
    && (Phase(s.main) >= 3 ==> s.closer.CloserDone?)
    && (Phase(s.main) >= 5 ==> AllFinished(s.tasks))
    && (Phase(s.main) >= 7 ==> s.writer.WClosed?)
    && (Phase(s.main) >= 8 ==> s.queue == [])
    && (!Live(s.writer) && !s.fate.writeFailed ==> IsQueueClosed(s) && s.queue == [])
    && (s.writer.Failed? ==> s.fate.writeFailed)
    && |s.queue| <= QUEUE_CAPACITY
  }

  lemma {:induction false} PhaseStep(s: State, a: Action)
    requires PhaseInv(s) && StepTo(s, a).Some?
    ensures PhaseInv(StepTo(s, a).value)
  {
    match a
    case Quit =>
    case TimerFires(t) =>
    case Read(r) => PhaseRead(s, r);
    case Send(w, x) => PhaseSend(s, w, x);
    case Write(w) =>
    case Close(c) =>
    case Defer(t, d) => PhaseDefer(s, t, d);
    case Tear(d) => PhaseTear(s, d);
  }

  lemma {:induction false} PhaseLoop(s: State, r: ReaderAct)
    requires PhaseInv(s) && s.main.Loop? && ReaderNext(s, r).Some?
    ensures PhaseInv(ReaderNext(s, r).value)
  {
    var s' := ReaderNext(s, r).value;
    assert s'.queue == s.queue && s'.writer == s.writer && s'.closer == s.closer && Phase(s'.main) <= 1;
  }

  lemma {:induction false} PhaseDispatch(s: State)
    requires PhaseInv(s) && s.main.Dispatching? && s.main.events != []
    ensures PhaseInv(DispatchFirst(s))
  {
    var s' := DispatchFirst(s);
    assert s'.queue == s.queue && s'.writer == s.writer && s'.closer == s.closer && Phase(s'.main) == 0;
  }

  lemma {:induction false} PhaseRead(s: State, r: ReaderAct)
    requires PhaseInv(s) && ReaderNext(s, r).Some?
    ensures PhaseInv(ReaderNext(s, r).value)
  {
    if s.main.Loop? {
      PhaseLoop(s, r);
    } else if r.Dispatch? {
      PhaseDispatch(s);
    }
  }

  lemma {:induction false} PhaseDefer(s: State, t: nat, d: TaskAct)
    requires PhaseInv(s) && TaskNext(s, t, d).Some?
    ensures PhaseInv(TaskNext(s, t, d).value)
  {
    assert !Finishes(s.tasks[t]);
  }

  lemma {:induction false} PhaseTear(s: State, d: TearAct)
    requires PhaseInv(s) && TearNext(s, d).Some?
    ensures PhaseInv(TearNext(s, d).value)
  {
  }

  lemma {:induction false} PhaseSend(s: State, w: Who, x: SendAct)
    requires PhaseInv(s) && SendNext(s, w, x).Some?
    ensures PhaseInv(SendNext(s, w, x).value)
  {
    if w.TaskActor? {
      assert !Finishes(s.tasks[w.t]);
    }
  }

  // ----- preservation of the ordering -----

  /** A step that leaves the writer's side alone and only adds or advances tasks. */
  predicate Aside(s: State, s': State) {
    && s'.writer == s.writer && s'.queue == s.queue && s'.wire == s.wire
    && |s.tasks| <= |s'.tasks|
    && (forall t :: 0 <= t < |s.tasks| ==>
          s'.tasks[t].pdu == s.tasks[t].pdu && s'.tasks[t].wait.Timer? == s.tasks[t].wait.Timer?)
  }

  lemma {:induction false} AsideGrows(s: State, s': State)
    requires Aside(s, s')
    ensures Grows(s, s') && Stream(s') == Stream(s)
  {
  }

  lemma {:induction false} WriteGrows(s: State, w: WriterAct)
    requires PhaseInv(s) && WriterNext(s, w).Some?
    ensures Grows(s, WriterNext(s, w).value)
    ensures Stream(WriterNext(s, w).value) <= Stream(s)
  {
  }

  lemma {:induction false} SendGrows(s: State, w: Who, x: SendAct)
    requires PhaseInv(s) && SendNext(s, w, x).Some?
    ensures Grows(s, SendNext(s, w, x).value)
    ensures
      var s' := SendNext(s, w, x).value;
      Stream(s') == if x.Enqueue? && Live(s.writer) then Stream(s) + [OutOf(s, w).value.p] else Stream(s)
  {
    PhaseSend(s, w, x);
  }

  lemma {:induction false} OutGrows(s: State, s': State, out: Out)
    requires Grows(s, s') && OutOk(s, out)
    ensures OutOk(s', out)
  {
    if out.Blocked? && out.p.Dlr? {
      PassedGrows(s, s', out.p.origin);
    }
  }

  lemma {:induction false} TaskGrows(s: State, s': State, t: nat)
    requires Grows(s, s') && t < |s.tasks| && TaskOk(s, t) && s'.tasks[t] == s.tasks[t]
    ensures TaskOk(s', t)
  {
    var task := s.tasks[t];
    if task.pc.TaskSends? {
      OutGrows(s, s', task.pc.out);
    }
    if (task.pc.Signalling? || task.pc.Done?) && task.pdu.Resp? {
      PassedGrows(s, s', task.pdu.origin);
    }
  }

  lemma {:induction false} NextGrows(s: State, s': State, next: Next)
    requires Grows(s, s') && NextOk(s, next)
    ensures NextOk(s', next)
  {
    if next.ToPlanDlr? {
      PassedGrows(s, s', next.origin);
    }
    if next.ToDispatch? {
      EventsGrow(s, s', next.rest);
    }
  }

  lemma {:induction false} MainGrows(s: State, s': State)
    requires Grows(s, s') && MainOk(s) && s'.main == s.main
    ensures MainOk(s')
  {
    match s.main
    case Sending(out, next) =>
      OutGrows(s, s', out);
      if !next.ToPlanDlr? {
        NextGrows(s, s', next);
      }
    case Sent(next) => NextGrows(s, s', next);
    case Dispatching(es, _) => EventsGrow(s, s', es);
    case _ =>
  }

  /** The step left task `t` alone or left it in order. */
  predicate TaskKept(s: State, s': State, t: nat)
    requires t < |s'.tasks|
  {
    TaskOk(s', t) || (t < |s.tasks| && s'.tasks[t] == s.tasks[t])
  }

  lemma {:induction false} TasksSettled(s: State, s': State)
    requires TasksOk(s) && Grows(s, s')
    requires forall t: nat :: t < |s'.tasks| ==> TaskKept(s, s', t)
    ensures TasksOk(s')
  {
    forall t: nat | t < |s'.tasks| ensures TaskOk(s', t) {
      assert TaskKept(s, s', t);
      if !TaskOk(s', t) {
        assert TaskOk(s, t);
        TaskGrows(s, s', t);
      }
    }
  }

  lemma {:induction false} CloserSettled(s: State, s': State)
    requires Grows(s, s') && s'.closer == s.closer && (s.closer.CloserSends? ==> OutOk(s, s.closer.out))
    ensures s'.closer.CloserSends? ==> OutOk(s', s'.closer.out)
  {
    if s.closer.CloserSends? {
      OutGrows(s, s', s.closer.out);
    }
  }

  /** Obligations already in `s` carry over; only what the step changed is left to check. */
  lemma {:induction false} Settled(s: State, s': State)
    requires OrderInv(s) && Grows(s, s') && Ordered(Stream(s'))
    requires s'.sched == s.sched || EventsOk(s', s'.sched)
    requires s'.main == s.main || MainOk(s')
    requires s'.closer == s.closer || (s'.closer.CloserSends? ==> s'.closer.out.p == Control && OutOk(s', s'.closer.out))
    requires forall t: nat :: t < |s'.tasks| ==> TaskKept(s, s', t)
    ensures OrderInv(s')
  {
    TasksSettled(s, s');
    if s'.sched == s.sched {
      EventsGrow(s, s', s.sched);
    }
    if s'.main == s.main {
      MainGrows(s, s');
    }
    if s'.closer == s.closer {
      CloserSettled(s, s');
    }
  }

  lemma {:induction false} SendOrdered(s: State, w: Who, x: SendAct)
    requires PhaseInv(s) && OrderInv(s) && SendNext(s, w, x).Some?
    ensures Grows(s, SendNext(s, w, x).value) && Ordered(Stream(SendNext(s, w, x).value))
    ensures w.TaskActor? ==> TaskOk(SendNext(s, w, x).value, w.t)
  {
    SendGrows(s, w, x);
    PhaseSend(s, w, x);
    if w.TaskActor? {
      assert TaskOk(s, w.t);
    }
    if x.Enqueue? && Live(s.writer) {
      OrderedAppend(Stream(s), OutOf(s, w).value.p);
    }
  }

  lemma {:induction false} OrderSend(s: State, w: Who, x: SendAct)
    requires PhaseInv(s) && OrderInv(s) && SendNext(s, w, x).Some?
    ensures OrderInv(SendNext(s, w, x).value)
  {
    SendGrows(s, w, x);
    SendOrdered(s, w, x);
    Settled(s, SendNext(s, w, x).value);
  }

  lemma {:induction false} OrderWrite(s: State, w: WriterAct)
    requires PhaseInv(s) && OrderInv(s) && WriterNext(s, w).Some?
    ensures OrderInv(WriterNext(s, w).value)
  {
    var s' := WriterNext(s, w).value;
    WriteGrows(s, w);
    OrderedPrefix(Stream(s'), Stream(s));
    Settled(s, s');
  }

  lemma {:induction false} OrderDefer(s: State, t: nat, d: TaskAct)
    requires OrderInv(s) && TaskNext(s, t, d).Some?
    ensures OrderInv(TaskNext(s, t, d).value)
  {
    var s' := TaskNext(s, t, d).value;
    AsideGrows(s, s');
    assert TaskOk(s, t);
    if d.Ready? && s.tasks[t].wait.AfterSent? {
      assert TaskOk(s, s.tasks[t].wait.task);
    }
    assert TaskOk(s', t);
    Settled(s, s');
  }

  lemma {:induction false} OrderTimer(s: State, t: nat)
    requires OrderInv(s) && TimerNext(s, t).Some?
    ensures OrderInv(TimerNext(s, t).value)
  {
    var s' := TimerNext(s, t).value;
    AsideGrows(s, s');
    assert TaskOk(s, t);
    assert TaskOk(s', t);
    Settled(s, s');
  }

  lemma {:induction false} OrderTear(s: State, d: TearAct)
    requires PhaseInv(s) && OrderInv(s) && TearNext(s, d).Some?
    ensures OrderInv(TearNext(s, d).value)
  {
    Settled(s, TearNext(s, d).value);
  }

  lemma {:induction false} OrderClose(s: State, c: CloserAct)
    requires OrderInv(s) && CloserNext(s, c).Some?
    ensures OrderInv(CloserNext(s, c).value)
  {
    AsideGrows(s, CloserNext(s, c).value);
    Settled(s, CloserNext(s, c).value);
  }

  lemma {:induction false} InsertOk(s: State, es: seq<Event>, pos: nat, e: Event)
    requires EventsOk(s, es) && EventOk(s, e)
    ensures EventsOk(s, Insert(es, pos, e))
  {
  }

  lemma {:induction false} OrderLoop(s: State, r: ReaderAct)
    requires OrderInv(s) && ReaderNext(s, r).Some? && s.main.Loop? && !r.SubmitDeferred?
    ensures OrderInv(ReaderNext(s, r).value)
  {
    var s' := ReaderNext(s, r).value;
    assert s'.tasks == s.tasks && s'.closer == s.closer;
    AsideGrows(s, s');
    EventsGrow(s, s', s.sched);
    Settled(s, s');
  }

  lemma {:induction false} OrderDeferred(s: State, dlr: bool, pos: nat)
    requires OrderInv(s) && ReaderNext(s, SubmitDeferred(dlr, pos)).Some?
    ensures OrderInv(ReaderNext(s, SubmitDeferred(dlr, pos)).value)
  {
    var s' := ReaderNext(s, SubmitDeferred(dlr, pos)).value;
    AsideGrows(s, s');
    EventsGrow(s, s', s.sched);
    InsertOk(s', s.sched, pos, DlrEvent(s.bind.clock + 1, Some(|s.tasks|)));
    Settled(s, s');
  }

  /** The handler goes on once what it sent is in the queue. */
  lemma {:induction false} OrderProceed(s: State)
    requires OrderInv(s) && s.main.Sent?
    ensures OrderInv(Continue(s, s.main.next))
  {
    var next, s' := s.main.next, Continue(s, s.main.next);
    assert NextOk(s, next);
    AsideGrows(s, s');
    NextGrows(s, s', next);
    EventsGrow(s, s', s.sched);
    if next.ToPlanDlr? {
      InsertOk(s', s.sched, next.pos, DlrEvent(next.origin, None));
    }
    Settled(s, s');
  }

  lemma {:induction false} OrderDrains(s: State, r: ReaderAct)
    requires OrderInv(s) && ReaderNext(s, r).Some? && (r.DrainDue? || r.DrainEnds?)
    ensures OrderInv(ReaderNext(s, r).value)
  {
    var s' := ReaderNext(s, r).value;
    AsideGrows(s, s');
    EventsGrow(s, s', s.sched);
    Settled(s, s');
  }

  lemma {:induction false} OrderDispatch(s: State)
    requires OrderInv(s) && s.main.Dispatching? && s.main.events != []
    ensures OrderInv(DispatchFirst(s))
  {
    var s' := DispatchFirst(s);
    var e := s.main.events[0];
    AsideGrows(s, s');
    assert EventOk(s, e);
    EventsGrow(s, s', s.main.events[1..]);
    if e.DlrEvent? && e.respSent.Some? {
      assert TaskOk(s, e.respSent.value);
    }
    assert MainOk(s');
    if |s'.tasks| > |s.tasks| {
      assert s'.tasks == s.tasks + [Task(AfterSent(e.respSent.value), Dlr(e.origin), Waiting)];
      assert TaskOk(s', |s.tasks|);
    }
    Settled(s, s');
  }

  lemma {:induction false} OrderRead(s: State, r: ReaderAct)
    requires OrderInv(s) && ReaderNext(s, r).Some?
    ensures OrderInv(ReaderNext(s, r).value)
  {
    if r.SubmitDeferred? {
      OrderDeferred(s, r.dlr, r.pos);
    } else if s.main.Loop? {
      OrderLoop(s, r);
    } else if r.Dispatch? {
      OrderDispatch(s);
    } else if r.Proceed? {
      OrderProceed(s);
    } else {
      OrderDrains(s, r);
    }
  }

  lemma {:induction false} OrderStep(s: State, a: Action)
    requires PhaseInv(s) && OrderInv(s) && StepTo(s, a).Some?
    ensures OrderInv(StepTo(s, a).value)
  {
    match a
    case Quit => Settled(s, StepTo(s, a).value);
    case TimerFires(t) => OrderTimer(s, t);
    case Read(r) => OrderRead(s, r);
    case Send(w, x) => OrderSend(s, w, x);
    case Write(w) => OrderWrite(s, w);
    case Close(c) => OrderClose(s, c);
    case Defer(t, d) => OrderDefer(s, t, d);
    case Tear(d) => OrderTear(s, d);
  }

  /**
    What a step of the read goroutine does to the shared state, before teardown: it hands over at most one
    PDU and starts at most one deferred send.
  */
  predicate ReaderFrame(s: State, s': State) {
    && !s.main.Sending? && !s.main.SweepHolds? && !s'.main.SweepHolds?
    && s'.queue == s.queue && s'.wire == s.wire && s'.writer == s.writer && s'.closer == s.closer
    && (if s'.main.Sending?
        then s'.main.out.Blocked? && s'.gauge == HandOver(s, s'.main.out.p).gauge
        else s'.gauge == s.gauge)
    && (s'.tasks == s.tasks
        || (|s'.tasks| == |s.tasks| + 1 && s'.tasks == s.tasks + [s'.tasks[|s.tasks|]] && s'.tasks[|s.tasks|].pc.Waiting?))
  }

  lemma {:induction false} LoopEffect(s: State, r: ReaderAct)
    requires s.main.Loop? && ReaderNext(s, r).Some?
    ensures ReaderFrame(s, ReaderNext(s, r).value)
  {
  }

  lemma {:induction false} ReadEffect(s: State, r: ReaderAct)
    requires ReaderNext(s, r).Some?
    ensures ReaderFrame(s, ReaderNext(s, r).value)
  {
    if s.main.Loop? {
      LoopEffect(s, r);
    }
  }
}
