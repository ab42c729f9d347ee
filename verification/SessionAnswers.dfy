/**
  What a client is owed and what becomes of it. Every action of a run is read as a promise of
  PDUs, by a table of its own; over any run the promises made are the PDUs handed to sendBytes and
  those still pending, one for one. So every submit that the source answers is answered, once.
*/
module SessionAnswers {
  import opened Wrappers
  import opened Session
  import opened SessionOrder
  import opened SessionLedger
  import opened SessionFate
  import opened SessionTheorems

  // ----- promises -----

  /** A submit the bind counts: it takes the next tick. */
  predicate Commits(a: Action) {
    a.Read? && HandlesSubmit(a.reader) && (a.reader.SubmitCut? ==> a.reader.reason != Shutdown)
  }

  /** Committed submits that get a submit_sm_resp: all but timeouts and cuts before the response. */
  predicate Answers(a: Action) {
    a.Read? && (a.reader.SubmitInline? || a.reader.SubmitDeferred? || a.reader.SubmitAnswerCut?)
  }

  /** Answered submits that plan a receipt, if the bind can receive one. */
  predicate Plans(a: Action) {
    a.Read? && ((a.reader.SubmitInline? && a.reader.dlr) || (a.reader.SubmitDeferred? && a.reader.dlr))
  }

  /** Actions followed by one PDU other than a submit_sm_resp, a receipt or a message. */
  predicate Replies(s: State, a: Action) {
    match a
    case Read(Answer) => true
    case Read(BindOk(_, _, _)) => true
    case Read(BindRefused(_)) => true
    case Read(Unbind) => true
    case Read(ReadBadLength) => !s.quit
    case Close(SendUnbind) => true
    case _ => false
  }

  /** How many copies of `p` the client is promised when `a` happens in `s`. */
  function Promised(p: Pdu, s: State, a: Action): nat {
    match p
    case Resp(o) => if Answers(a) && o == s.bind.clock + 1 then 1 else 0
    case Dlr(o) => if Plans(a) && s.bind.canReceive && o == s.bind.clock + 1 then 1 else 0
    case Mo => if a.Read? && a.reader.BindOk? && a.reader.receive then a.reader.mos else 0
    case Control => if Replies(s, a) then 1 else 0
  }

  function PromisedBy(p: Pdu, s: State, acts: seq<Action>): nat
    requires RunFrom(s, acts).Some?
    decreases |acts|
  {
    if acts == [] then 0
    else Promised(p, s, acts[0]) + PromisedBy(p, StepTo(s, acts[0]).value, acts[1..])
  }

  // ----- what is promised and not handed over yet -----

  function EventHolds(p: Pdu, receives: bool, e: Event): nat {
    match e
    case DlrEvent(o, _) => Is(p, Dlr(o))
    case MoEvent => if receives then Is(p, Mo) else 0
  }

  function EventsHold(p: Pdu, receives: bool, es: seq<Event>): nat {
    if es == [] then 0 else EventHolds(p, receives, es[0]) + EventsHold(p, receives, es[1..])
  }

  function NextHolds(p: Pdu, receives: bool, next: Next): nat {
    match next
    case ToPlanDlr(o, _) => Is(p, Dlr(o))
    case ToDispatch(rest, _) => EventsHold(p, receives, rest)
    case _ => 0
  }

  function MainHolds(p: Pdu, receives: bool, m: Main): nat {
    match m
    case Sending(_, next) => NextHolds(p, receives, next)
    case Sent(next) => NextHolds(p, receives, next)
    case Dispatching(es, _) => EventsHold(p, receives, es)
    case _ => 0
  }

  function UnsentOf(p: Pdu, t: Task): nat {
    if Unsent(t) then Is(p, t.pdu) else 0
  }

  /** Deferred sends of `p` that still wait, or were cancelled while they did. */
  function UnsentBy(p: Pdu, ts: seq<Task>): nat {
    if ts == [] then 0 else UnsentBy(p, ts[..|ts| - 1]) + UnsentOf(p, ts[|ts| - 1])
  }

  /** Copies of `p` promised and not handed over: on the schedule, with the read goroutine, or held back. */
  function Pending(p: Pdu, s: State): nat {
    EventsHold(p, s.bind.canReceive, s.sched) + MainHolds(p, s.bind.canReceive, s.main) + UnsentBy(p, s.tasks)
  }

  // ----- lists -----

  lemma {:induction false} EventsAppend(p: Pdu, receives: bool, a: seq<Event>, b: seq<Event>)
    ensures EventsHold(p, receives, a + b) == EventsHold(p, receives, a) + EventsHold(p, receives, b)
  {
    if a == [] {
      assert a + b == b;
    } else {
      assert (a + b)[1..] == a[1..] + b;
      EventsAppend(p, receives, a[1..], b);
    }
  }

  lemma {:induction false} EventsInsert(p: Pdu, receives: bool, es: seq<Event>, pos: nat, e: Event)
    ensures EventsHold(p, receives, Insert(es, pos, e)) == EventsHold(p, receives, es) + EventHolds(p, receives, e)
  {
    var i := if pos <= |es| then pos else |es|;
    EventsAppend(p, receives, es[..i] + [e], es[i..]);
    EventsAppend(p, receives, es[..i], [e]);
    EventsAppend(p, receives, es[..i], es[i..]);
    assert es[..i] + es[i..] == es;
  }

  lemma {:induction false} MessagesHold(p: Pdu, receives: bool, n: nat)
    ensures EventsHold(p, receives, seq(n, _ => MoEvent)) == if receives && p == Mo then n else 0
  {
    if n > 0 {
      assert seq(n, _ => MoEvent)[1..] == seq(n - 1, _ => MoEvent);
      MessagesHold(p, receives, n - 1);
    }
  }

  lemma {:induction false} UnsentUpdate(p: Pdu, ts: seq<Task>, t: nat, task: Task)
    requires t < |ts|
    ensures UnsentBy(p, ts[t := task]) + UnsentOf(p, ts[t]) == UnsentBy(p, ts) + UnsentOf(p, task)
  {
    var n := |ts| - 1;
    if t == n {
      assert ts[t := task][..n] == ts[..n];
    } else {
      UnsentUpdate(p, ts[..n], t, task);
      assert ts[t := task][..n] == ts[..n][t := task];
    }
  }

  lemma {:induction false} UnsentAppend(p: Pdu, ts: seq<Task>, task: Task)
    ensures UnsentBy(p, ts + [task]) == UnsentBy(p, ts) + UnsentOf(p, task)
  {
    assert (ts + [task])[..|ts|] == ts;
  }

  // ----- one step -----

  /** Before the bind there is nothing to schedule. */
  predicate Quiet(s: State) {
    !s.bind.bound ==>
      && s.sched == []
      && !(s.main.Sending? && s.main.next.ToPlanDlr?)
      && !(s.main.Sent? && s.main.next.ToPlanDlr?)
  }

  lemma {:induction false} QuietStep(s: State, a: Action)
    requires PhaseInv(s) && Quiet(s) && StepTo(s, a).Some?
    ensures Quiet(StepTo(s, a).value)
  {
    match a
    case Send(w, x) => QuietSend(s, w, x);
    case Read(r) => if s.main.Loop? { QuietLoop(s, r); } else { QuietBetween(s, r); }
    case _ =>
  }

  lemma {:induction false} QuietSend(s: State, w: Who, x: SendAct)
    requires Quiet(s) && SendNext(s, w, x).Some?
    ensures Quiet(SendNext(s, w, x).value)
  {
  }

  lemma {:induction false} QuietLoop(s: State, r: ReaderAct)
    requires Quiet(s) && s.main.Loop? && ReaderNext(s, r).Some?
    ensures Quiet(ReaderNext(s, r).value)
  {
    if HandlesSubmit(r) {
      assert s.bind.bound && ReaderNext(s, r).value.bind.bound;
    }
  }

  lemma {:induction false} QuietBetween(s: State, r: ReaderAct)
    requires Quiet(s) && !s.main.Loop? && ReaderNext(s, r).Some?
    ensures Quiet(ReaderNext(s, r).value)
  {
    var s' := ReaderNext(s, r).value;
    assert s'.bind == s.bind;
  }

  /** `p` over one step: what was pending and what is newly promised is handed over or pending. */
  predicate Moves(p: Pdu, s: State, promised: nat, s': State) {
    s'.gauge.handed[p] + Pending(p, s') == s.gauge.handed[p] + Pending(p, s) + promised
  }

  lemma {:induction false} PromiseStep(p: Pdu, s: State, a: Action)
    requires PhaseInv(s) && Quiet(s) && StepTo(s, a).Some?
    ensures Moves(p, s, Promised(p, s, a), StepTo(s, a).value)
  {
    match a
    case Quit =>
    case TimerFires(t) => UnsentUpdate(p, s.tasks, t, s.tasks[t].(wait := Timer(true)));
    case Read(r) => PromiseRead(p, s, r);
    case Send(w, x) => PromiseSend(p, s, w, x);
    case Write(w) => PromiseWrite(p, s, w);
    case Close(c) => PromiseClose(p, s, c);
    case Defer(t, d) => PromiseDefer(p, s, t, d);
    case Tear(d) => PromiseTear(p, s, d);
  }

  /** The read goroutine starts to send `q`. */
  lemma {:induction false} StartsSending(p: Pdu, s: State, q: Pdu, next: Next)
    ensures
      var s' := ReaderSends(s, q, next);
      && s'.gauge.handed[p] == s.gauge.handed[p] + Is(p, q) && s'.bind == s.bind && s'.tasks == s.tasks && s'.sched == s.sched
      && MainHolds(p, s.bind.canReceive, s'.main) == NextHolds(p, s.bind.canReceive, next)
  {
  }

  lemma {:induction false} PromiseRead(p: Pdu, s: State, r: ReaderAct)
    requires Quiet(s) && ReaderNext(s, r).Some?
    ensures Moves(p, s, Promised(p, s, Read(r)), ReaderNext(s, r).value)
  {
    match r
    case SubmitInline(_, _) => PromiseSubmit(p, s, r);
    case SubmitDeferred(_, _) => PromiseSubmit(p, s, r);
    case SubmitAnswerCut => PromiseSubmit(p, s, r);
    case SubmitSilent => PromiseUnanswered(p, s, r);
    case SubmitCut(_) => PromiseUnanswered(p, s, r);
    case BindOk(_, _, _) => PromiseBind(p, s, r);
    case Proceed => PromiseProceed(p, s);
    case DrainDue(n) => PromiseDrain(p, s, n);
    case Dispatch => PromiseDispatch(p, s);
    case DrainEnds(_) => PromiseDrained(p, s, r);
    case _ => PromiseLoop(p, s, r);
  }

  lemma {:induction false} PromiseSubmit(p: Pdu, s: State, r: ReaderAct)
    requires Answers(Read(r)) && ReaderNext(s, r).Some?
    ensures Moves(p, s, Promised(p, s, Read(r)), ReaderNext(s, r).value)
  {
    match r
    case SubmitInline(dlr, pos) =>
      InlineEffect(s, dlr, pos);
      InlinePromise(p, s, dlr, pos);
      PromiseAnswered(p, s, AfterInline(s, dlr, pos), Promised(p, s, Read(r)));
    case SubmitDeferred(dlr, pos) =>
      DeferredEffect(s, dlr, pos);
      PromiseDeferred(p, s, dlr, pos, ReaderNext(s, r).value);
    case SubmitAnswerCut =>
      AnswerCutEffect(s);
      PromiseAnswered(p, s, ToClose(FaultInjection), Promised(p, s, Read(r)));
  }

  function AfterInline(s: State, dlr: bool, pos: nat): Next {
    if dlr && s.bind.canReceive then ToPlanDlr(s.bind.clock + 1, pos) else ToDue
  }

  lemma {:induction false} InlineEffect(s: State, dlr: bool, pos: nat)
    requires ReaderNext(s, SubmitInline(dlr, pos)).Some?
    ensures s.main.Loop?
    ensures
      var o := s.bind.clock + 1;
      ReaderNext(s, SubmitInline(dlr, pos)).value
      == ReaderSends(s.(bind := s.bind.(clock := o)), Resp(o), AfterInline(s, dlr, pos))
  {
  }

  lemma {:induction false} InlinePromise(p: Pdu, s: State, dlr: bool, pos: nat)
    ensures Promised(p, s, Read(SubmitInline(dlr, pos)))
         == Is(p, Resp(s.bind.clock + 1)) + NextHolds(p, s.bind.canReceive, AfterInline(s, dlr, pos))
  {
  }

  /** From the loop the read goroutine commits a submit, sends its response and goes on to `next`. */
  lemma {:induction false} PromiseAnswered(p: Pdu, s: State, next: Next, promised: nat)
    requires s.main.Loop? && promised == Is(p, Resp(s.bind.clock + 1)) + NextHolds(p, s.bind.canReceive, next)
    ensures
      var o := s.bind.clock + 1;
      Moves(p, s, promised, ReaderSends(s.(bind := s.bind.(clock := o)), Resp(o), next))
  {
    var o := s.bind.clock + 1;
    StartsSending(p, s.(bind := s.bind.(clock := o)), Resp(o), next);
  }

  /** A deferred submit starts a sender and schedules a receipt if one is planned. */
  predicate Defers(s: State, dlr: bool, pos: nat, s': State) {
    var o := s.bind.clock + 1;
    && s'.gauge == s.gauge && s'.bind == s.bind.(clock := o) && s'.main == Due
    && s'.tasks == s.tasks + [Task(Timer(false), Resp(o), Waiting)]
    && s'.sched == if dlr && s.bind.canReceive then Insert(s.sched, pos, DlrEvent(o, Some(|s.tasks|))) else s.sched
  }

  lemma {:induction false} DeferredEffect(s: State, dlr: bool, pos: nat)
    requires ReaderNext(s, SubmitDeferred(dlr, pos)).Some?
    ensures s.main.Loop? && Defers(s, dlr, pos, ReaderNext(s, SubmitDeferred(dlr, pos)).value)
  {
  }

  lemma {:induction false} PromiseDeferred(p: Pdu, s: State, dlr: bool, pos: nat, s': State)
    requires s.main.Loop? && Defers(s, dlr, pos, s')
    ensures Moves(p, s, Promised(p, s, Read(SubmitDeferred(dlr, pos))), s')
  {
    var o := s.bind.clock + 1;
    UnsentAppend(p, s.tasks, Task(Timer(false), Resp(o), Waiting));
    EventsInsert(p, s.bind.canReceive, s.sched, pos, DlrEvent(o, Some(|s.tasks|)));
    HeldBack(p, s, Promised(p, s, Read(SubmitDeferred(dlr, pos))), s', Is(p, Resp(o)));
  }

  lemma {:induction false} PromiseUnanswered(p: Pdu, s: State, r: ReaderAct)
    requires (r.SubmitSilent? || r.SubmitCut?) && ReaderNext(s, r).Some?
    ensures Moves(p, s, 0, ReaderNext(s, r).value)
  {
  }

  lemma {:induction false} AnswerCutEffect(s: State)
    requires ReaderNext(s, SubmitAnswerCut).Some?
    ensures s.main.Loop?
    ensures
      var o := s.bind.clock + 1;
      ReaderNext(s, SubmitAnswerCut).value == ReaderSends(s.(bind := s.bind.(clock := o)), Resp(o), ToClose(FaultInjection))
  {
  }

  lemma {:induction false} PromiseBind(p: Pdu, s: State, r: ReaderAct)
    requires Quiet(s) && r.BindOk? && ReaderNext(s, r).Some?
    ensures Moves(p, s, Promised(p, s, Read(r)), ReaderNext(s, r).value)
  {
    MessagesHold(p, r.receive, r.mos);
    assert s.sched + seq(r.mos, _ => MoEvent) == seq(r.mos, _ => MoEvent);
  }

  /** Everything else the read loop starts. */
  lemma {:induction false} PromiseLoop(p: Pdu, s: State, r: ReaderAct)
    requires s.main.Loop? && !HandlesSubmit(r) && !r.BindOk? && ReaderNext(s, r).Some?
    ensures Moves(p, s, Promised(p, s, Read(r)), ReaderNext(s, r).value)
  {
  }

  lemma {:induction false} PromiseProceed(p: Pdu, s: State)
    requires ReaderNext(s, Proceed).Some?
    ensures Moves(p, s, 0, ReaderNext(s, Proceed).value)
  {
    if s.main.next.ToPlanDlr? {
      ProceedPlans(p, s, s.main.next);
    } else {
      ProceedOn(p, s, s.main.next);
    }
  }

  lemma {:induction false} ProceedPlans(p: Pdu, s: State, next: Next)
    requires s.main == Sent(next) && next.ToPlanDlr?
    ensures Moves(p, s, 0, Continue(s, next))
  {
    EventsInsert(p, s.bind.canReceive, s.sched, next.pos, DlrEvent(next.origin, None));
    HeldBack(p, s, 0, Continue(s, next), 0);
  }

  lemma {:induction false} ProceedOn(p: Pdu, s: State, next: Next)
    requires s.main == Sent(next) && !next.ToPlanDlr?
    ensures Moves(p, s, 0, Continue(s, next))
  {
    HeldBack(p, s, 0, Continue(s, next), 0);
  }

  lemma {:induction false} PromiseDrain(p: Pdu, s: State, n: nat)
    requires ReaderNext(s, DrainDue(n)).Some?
    ensures Moves(p, s, 0, ReaderNext(s, DrainDue(n)).value)
  {
    assert s.sched[..n] + s.sched[n..] == s.sched;
    EventsAppend(p, s.bind.canReceive, s.sched[..n], s.sched[n..]);
  }

  lemma {:induction false} PromiseDrained(p: Pdu, s: State, r: ReaderAct)
    requires r.DrainEnds? && ReaderNext(s, r).Some?
    ensures Moves(p, s, 0, ReaderNext(s, r).value)
  {
  }

  /** The first event of those being dispatched, sent, held back or passed over. */
  lemma {:induction false} PromiseDispatch(p: Pdu, s: State)
    requires ReaderNext(s, Dispatch).Some?
    ensures Moves(p, s, 0, ReaderNext(s, Dispatch).value)
  {
    var e, next := s.main.events[0], ToDispatch(s.main.events[1..], s.main.afterSubmit);
    FirstEvent(p, s, e, next);
    if e.DlrEvent? && e.respSent.Some? && !SentClosed(s.tasks, e.respSent.value) {
      var task := Task(AfterSent(e.respSent.value), Dlr(e.origin), Waiting);
      UnsentAppend(p, s.tasks, task);
      DispatchDefers(p, s, e, next, s.tasks + [task]);
    } else if e.DlrEvent? {
      DispatchSends(p, s, e, Dlr(e.origin), next);
    } else if s.bind.canReceive {
      DispatchSends(p, s, e, Mo, next);
    } else {
      DispatchDefers(p, s, e, next, s.tasks);
    }
  }

  lemma {:induction false} FirstEvent(p: Pdu, s: State, e: Event, next: Next)
    requires s.main.Dispatching? && s.main.events != [] && e == s.main.events[0]
    requires next == ToDispatch(s.main.events[1..], s.main.afterSubmit)
    ensures MainHolds(p, s.bind.canReceive, s.main) == EventHolds(p, s.bind.canReceive, e) + NextHolds(p, s.bind.canReceive, next)
  {
  }

  lemma {:induction false} DispatchSends(p: Pdu, s: State, e: Event, q: Pdu, next: Next)
    requires MainHolds(p, s.bind.canReceive, s.main) == EventHolds(p, s.bind.canReceive, e) + NextHolds(p, s.bind.canReceive, next)
    requires EventHolds(p, s.bind.canReceive, e) == Is(p, q)
    ensures Moves(p, s, 0, ReaderSends(s, q, next))
  {
    StartsSending(p, s, q, next);
  }

  lemma {:induction false} DispatchDefers(p: Pdu, s: State, e: Event, next: Next, ts: seq<Task>)
    requires next.ToDispatch?
    requires MainHolds(p, s.bind.canReceive, s.main) == EventHolds(p, s.bind.canReceive, e) + NextHolds(p, s.bind.canReceive, next)
    requires UnsentBy(p, ts) == UnsentBy(p, s.tasks) + EventHolds(p, s.bind.canReceive, e)
    ensures Moves(p, s, 0, Continue(s, next).(tasks := ts))
  {
    HeldBack(p, s, 0, Continue(s, next).(tasks := ts), EventHolds(p, s.bind.canReceive, e));
  }

  /** A step that hands nothing over and adds `held` copies to the deferred sends. */
  lemma {:induction false} HeldBack(p: Pdu, s: State, promised: nat, s': State, held: nat)
    requires s'.gauge == s.gauge && s'.bind.canReceive == s.bind.canReceive
    requires UnsentBy(p, s'.tasks) == UnsentBy(p, s.tasks) + held
    requires
      var b := s.bind.canReceive;
      EventsHold(p, b, s'.sched) + MainHolds(p, b, s'.main) + held == EventsHold(p, b, s.sched) + MainHolds(p, b, s.main) + promised
    ensures Moves(p, s, promised, s')
  {
  }

  lemma {:induction false} PromiseSend(p: Pdu, s: State, w: Who, x: SendAct)
    requires PhaseInv(s) && SendNext(s, w, x).Some?
    ensures Moves(p, s, 0, SendNext(s, w, x).value)
  {
    PhaseSend(s, w, x);
    if w.TaskActor? {
      UnsentUpdate(p, s.tasks, w.t, SendNext(s, w, x).value.tasks[w.t]);
    }
  }

  lemma {:induction false} PromiseWrite(p: Pdu, s: State, w: WriterAct)
    requires WriterNext(s, w).Some?
    ensures Moves(p, s, 0, WriterNext(s, w).value)
  {
  }

  lemma {:induction false} PromiseClose(p: Pdu, s: State, c: CloserAct)
    requires CloserNext(s, c).Some?
    ensures Moves(p, s, Promised(p, s, Close(c)), CloserNext(s, c).value)
  {
  }

  lemma {:induction false} PromiseDefer(p: Pdu, s: State, t: nat, d: TaskAct)
    requires TaskNext(s, t, d).Some?
    ensures Moves(p, s, 0, TaskNext(s, t, d).value)
  {
    UnsentUpdate(p, s.tasks, t, TaskNext(s, t, d).value.tasks[t]);
  }

  lemma {:induction false} PromiseTear(p: Pdu, s: State, d: TearAct)
    requires TearNext(s, d).Some?
    ensures Moves(p, s, 0, TearNext(s, d).value)
  {
  }

  // ----- runs -----

  lemma {:induction false} PromiseRun(p: Pdu, s: State, acts: seq<Action>)
    requires Inv(s) && Quiet(s) && RunFrom(s, acts).Some?
    ensures Quiet(RunFrom(s, acts).value)
    ensures
      var s' := RunFrom(s, acts).value;
      s'.gauge.handed[p] + Pending(p, s') == s.gauge.handed[p] + Pending(p, s) + PromisedBy(p, s, acts)
    decreases |acts|
  {
    if acts != [] {
      InvStep(s, acts[0]);
      QuietStep(s, acts[0]);
      PromiseStep(p, s, acts[0]);
      PromiseRun(p, StepTo(s, acts[0]).value, acts[1..]);
    }
  }

  /** In every run what the client was promised is handed over or still pending, one for one. */
  lemma {:induction false} PromisesKept(acts: seq<Action>, p: Pdu)
    requires IsRun(acts)
    ensures Reached(acts).gauge.handed[p] + Pending(p, Reached(acts)) == PromisedBy(p, Init, acts)
  {
    InvInit();
    PromiseRun(p, Init, acts);
  }

  // ----- one submit over a run -----

  lemma {:induction false} RunSplit(s: State, acts: seq<Action>, k: nat)
    requires RunFrom(s, acts).Some? && k <= |acts|
    ensures RunFrom(s, acts[..k]).Some?
    ensures RunFrom(RunFrom(s, acts[..k]).value, acts[k..]) == RunFrom(s, acts)
    decreases k
  {
    if k == 0 {
      assert acts[0..] == acts;
    } else {
      RunSplit(StepTo(s, acts[0]).value, acts[1..], k - 1);
      assert acts[..k][1..] == acts[1..][..k - 1] && acts[k..] == acts[1..][k - 1..];
    }
  }

  lemma {:induction false} PromisedSplit(p: Pdu, s: State, acts: seq<Action>, k: nat)
    requires RunFrom(s, acts).Some? && k <= |acts|
    requires RunFrom(s, acts[..k]).Some?
    requires RunFrom(RunFrom(s, acts[..k]).value, acts[k..]) == RunFrom(s, acts)
    ensures
      var mid := RunFrom(s, acts[..k]).value;
      PromisedBy(p, s, acts) == PromisedBy(p, s, acts[..k]) + PromisedBy(p, mid, acts[k..])
    decreases k
  {
    if k == 0 {
      assert acts[0..] == acts;
    } else {
      var s', rest := StepTo(s, acts[0]).value, acts[1..];
      assert acts[..k][1..] == rest[..k - 1] && acts[k..] == rest[k - 1..];
      PromisedSplit(p, s', rest, k - 1);
    }
  }

  lemma {:induction false} ClockStep(s: State, a: Action)
    requires StepTo(s, a).Some?
    ensures StepTo(s, a).value.bind.clock == s.bind.clock + if Commits(a) then 1 else 0
  {
    match a
    case Read(r) => ClockRead(s, r);
    case Send(w, x) =>
    case Tear(d) =>
    case _ =>
  }

  lemma {:induction false} ClockRead(s: State, r: ReaderAct)
    requires ReaderNext(s, r).Some?
    ensures ReaderNext(s, r).value.bind.clock == s.bind.clock + if Commits(Read(r)) then 1 else 0
  {
  }

  /** The tick `p` belongs to, if it answers or reports a submit. */
  predicate OfTick(p: Pdu, o: nat) {
    p == Resp(o) || p == Dlr(o)
  }

  /** Away from the step that commits tick `o` nothing of that tick is promised. */
  lemma {:induction false} OtherTicksPromiseNothing(p: Pdu, o: nat, s: State, acts: seq<Action>)
    requires OfTick(p, o) && RunFrom(s, acts).Some?
    requires o <= s.bind.clock || RunFrom(s, acts).value.bind.clock < o
    ensures s.bind.clock <= RunFrom(s, acts).value.bind.clock
    ensures PromisedBy(p, s, acts) == 0
    decreases |acts|
  {
    if acts != [] {
      ClockStep(s, acts[0]);
      var s' := StepTo(s, acts[0]).value;
      OtherTicksPromiseNothing(p, o, s', acts[1..]);
    }
  }

  /** The state the action `acts[k]` was taken in. */
  function Before(acts: seq<Action>, k: nat): State
    requires IsRun(acts) && k <= |acts|
  {
    RunSplit(Init, acts, k);
    Reached(acts[..k])
  }

  lemma {:induction false} TickPromises(p: Pdu, acts: seq<Action>, k: nat)
    requires IsRun(acts) && k < |acts| && Commits(acts[k]) && OfTick(p, Before(acts, k).bind.clock + 1)
    ensures PromisedBy(p, Init, acts) == Promised(p, Before(acts, k), acts[k])
  {
    var s, o, rest := Before(acts, k), Before(acts, k).bind.clock + 1, acts[k..];
    RunSplit(Init, acts, k);
    PromisedSplit(p, Init, acts, k);
    OtherTicksPromiseNothing(p, o, Init, acts[..k]);
    assert rest[0] == acts[k];
    ClockStep(s, acts[k]);
    OtherTicksPromiseNothing(p, o, StepTo(s, acts[k]).value, rest[1..]);
  }

  /**
    In every state of every run after a committed submit: its response is handed over or pending
    exactly once if the submit is of a kind that is answered, and never otherwise; and so is its
    receipt, if one is planned on a bind able to receive it.
  */
  lemma {:induction false} SubmitsAnsweredExactly(acts: seq<Action>, k: nat)
    requires IsRun(acts) && k < |acts| && Commits(acts[k])
    ensures
      var s, b := Reached(acts), Before(acts, k).bind;
      && s.gauge.handed[Resp(b.clock + 1)] + Pending(Resp(b.clock + 1), s) == (if Answers(acts[k]) then 1 else 0)
      && s.gauge.handed[Dlr(b.clock + 1)] + Pending(Dlr(b.clock + 1), s)
           == (if Plans(acts[k]) && b.canReceive then 1 else 0)
  {
    var o := Before(acts, k).bind.clock + 1;
    PromisesKept(acts, Resp(o));
    PromisesKept(acts, Dlr(o));
    TickPromises(Resp(o), acts, k);
    TickPromises(Dlr(o), acts, k);
  }

  /** Every tick a bind has counted was committed by one of its submits. */
  lemma {:induction false} TicksAreCommitted(acts: seq<Action>, o: nat) returns (k: nat)
    requires IsRun(acts) && 1 <= o <= Reached(acts).bind.clock
    ensures k < |acts| && Commits(acts[k]) && Before(acts, k).bind.clock + 1 == o
    decreases |acts|
  {
    var n := |acts| - 1;
    var front := acts[..n];
    RunSplit(Init, acts, n);
    assert acts[n..] == [acts[n]];
    assert RunFrom(Reached(front), [acts[n]]) == match StepTo(Reached(front), acts[n])
                                                 case None => None
                                                 case Some(s') => RunFrom(s', [acts[n]][1..]);
    ClockStep(Reached(front), acts[n]);
    if o <= Reached(front).bind.clock {
      k := TicksAreCommitted(front, o);
      assert front[..k] == acts[..k];
    } else {
      k := n;
    }
  }

  // ----- answered inline, or by a deferred send -----

  lemma {:induction false} HandedStep(p: Pdu, s: State, a: Action)
    requires StepTo(s, a).Some?
    ensures s.gauge.handed[p] <= StepTo(s, a).value.gauge.handed[p]
  {
    match a
    case Read(r) => ReadEffect(s, r);
    case Send(w, x) => HandedSend(s, w, x);
    case _ =>
  }

  lemma {:induction false} HandedSend(s: State, w: Who, x: SendAct)
    requires SendNext(s, w, x).Some?
    ensures SendNext(s, w, x).value.gauge.handed == s.gauge.handed
  {
  }

  lemma {:induction false} HandedRun(p: Pdu, s: State, acts: seq<Action>)
    requires RunFrom(s, acts).Some?
    ensures s.gauge.handed[p] <= RunFrom(s, acts).value.gauge.handed[p]
    decreases |acts|
  {
    if acts != [] {
      HandedStep(p, s, acts[0]);
      HandedRun(p, StepTo(s, acts[0]).value, acts[1..]);
    }
  }

  /** Submits answered without holding the response back. */
  predicate Inline(a: Action) {
    a.Read? && (a.reader.SubmitInline? || a.reader.SubmitAnswerCut?)
  }

  /** An inline response is handed over with its submit, exactly once in every state from then on. */
  lemma {:induction false} InlineAnswered(acts: seq<Action>, k: nat)
    requires IsRun(acts) && k < |acts| && Inline(acts[k])
    ensures Reached(acts).gauge.handed[Resp(Before(acts, k).bind.clock + 1)] == 1
  {
    var s, o, rest := Before(acts, k), Before(acts, k).bind.clock + 1, acts[k..];
    SubmitsAnsweredExactly(acts, k);
    RunSplit(Init, acts, k);
    assert rest[0] == acts[k];
    ReadEffect(s, acts[k].reader);
    HandedRun(Resp(o), StepTo(s, acts[k]).value, rest[1..]);
  }

  lemma {:induction false} TaskStays(s: State, a: Action, t: nat)
    requires Inv(s) && StepTo(s, a).Some? && t < |s.tasks|
    ensures t < |StepTo(s, a).value.tasks| && StepTo(s, a).value.tasks[t].pdu == s.tasks[t].pdu
  {
    if a.Read? {
      ReadEffect(s, a.reader);
    } else {
      SameTasks(s, a);
    }
  }

  lemma {:induction false} TaskStaysOver(s: State, acts: seq<Action>, t: nat)
    requires Inv(s) && RunFrom(s, acts).Some? && t < |s.tasks|
    ensures t < |RunFrom(s, acts).value.tasks| && RunFrom(s, acts).value.tasks[t].pdu == s.tasks[t].pdu
    decreases |acts|
  {
    if acts != [] {
      TaskStays(s, acts[0], t);
      InvStep(s, acts[0]);
      TaskStaysOver(StepTo(s, acts[0]).value, acts[1..], t);
    }
  }

  lemma {:induction false} DeferredStarts(s: State, a: Action)
    requires StepTo(s, a).Some? && a.Read? && a.reader.SubmitDeferred?
    ensures
      var s' := StepTo(s, a).value;
      |s'.tasks| == |s.tasks| + 1 && s'.tasks[|s.tasks|].pdu == Resp(s.bind.clock + 1)
  {
  }

  /** How far a deferred response got, told by the progress of its sender. */
  lemma {:induction false} SenderTells(s: State, t: nat, o: nat)
    requires Inv(s) && t < |s.tasks| && s.tasks[t].pdu == Resp(o)
    ensures s.tasks[t].wait.Timer? && s.gauge.handed[Resp(o)] == (if Unsent(s.tasks[t]) then 0 else 1)
  {
    assert TaskOk(s, t) && AnsweredOnce(o, s);
  }

  /** A deferred response has a sender of its own from its submit on. */
  lemma {:induction false} DeferredAnswered(acts: seq<Action>, k: nat)
    requires IsRun(acts) && k < |acts| && acts[k].Read? && acts[k].reader.SubmitDeferred?
    ensures
      var s, t, o := Reached(acts), |Before(acts, k).tasks|, Before(acts, k).bind.clock + 1;
      && t < |s.tasks| && s.tasks[t].pdu == Resp(o) && s.tasks[t].wait.Timer?
      && s.gauge.handed[Resp(o)] == (if Unsent(s.tasks[t]) then 0 else 1)
  {
    var s, t, rest := Before(acts, k), |Before(acts, k).tasks|, acts[k..];
    RunSplit(Init, acts, k);
    InvReached(acts[..k]);
    assert rest[0] == acts[k];
    DeferredStarts(s, acts[k]);
    InvStep(s, acts[k]);
    TaskStaysOver(StepTo(s, acts[k]).value, rest[1..], t);
    InvReached(acts);
    SenderTells(Reached(acts), t, s.bind.clock + 1);
  }

  /** The end of a session whose writes all succeeded: every promised PDU is on the wire, left on the schedule or cancelled. */
  lemma {:induction false} PromisesReachTheWire(acts: seq<Action>, p: Pdu)
    requires IsRun(acts) && Reached(acts).main.Finished? && !Reached(acts).fate.writeFailed
    ensures
      var s := Reached(acts);
      multiset(s.wire)[p] + EventsHold(p, s.bind.canReceive, s.sched) + UnsentBy(p, s.tasks) == PromisedBy(p, Init, acts)
  {
    PromisesKept(acts, p);
    InvReached(acts);
    FinalLedger(Reached(acts));
  }

  /**
    What that means for one committed submit: an inline answer is on the wire once, a deferred one
    unless its sender was cancelled, no other submit has a response there; a planned receipt is on
    the wire, or was left on the schedule or with a cancelled sender.
  */
  lemma {:induction false} AnswersReachTheWire(acts: seq<Action>, k: nat)
    requires IsRun(acts) && Reached(acts).main.Finished? && !Reached(acts).fate.writeFailed
    requires k < |acts| && Commits(acts[k])
    ensures
      var s, b, onWire := Reached(acts), Before(acts, k).bind, multiset(Reached(acts).wire);
      && (Inline(acts[k]) ==> onWire[Resp(b.clock + 1)] == 1)
      && onWire[Resp(b.clock + 1)] + UnsentBy(Resp(b.clock + 1), s.tasks) == (if Answers(acts[k]) then 1 else 0)
      && onWire[Dlr(b.clock + 1)] + EventsHold(Dlr(b.clock + 1), s.bind.canReceive, s.sched)
           + UnsentBy(Dlr(b.clock + 1), s.tasks) == (if Plans(acts[k]) && b.canReceive then 1 else 0)
  {
    var s, b := Reached(acts), Before(acts, k).bind;
    PromisesReachTheWire(acts, Resp(b.clock + 1));
    PromisesReachTheWire(acts, Dlr(b.clock + 1));
    TickPromises(Resp(b.clock + 1), acts, k);
    TickPromises(Dlr(b.clock + 1), acts, k);
    NoResponseScheduled(b.clock + 1, s.bind.canReceive, s.sched);
    if Inline(acts[k]) {
      NothingLostWithoutWriteFailure(acts);
      InlineAnswered(acts, k);
    }
  }

  lemma {:induction false} NoResponseScheduled(o: nat, receives: bool, es: seq<Event>)
    ensures EventsHold(Resp(o), receives, es) == 0
  {
    if es != [] {
      NoResponseScheduled(o, receives, es[1..]);
    }
  }
}
