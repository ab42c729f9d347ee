/**
  One client connection as a concurrent protocol.

  Actors: the read goroutine (which also runs the teardown), the writer behind a bounded queue,
  the closer that reacts to an engine shutdown, and one goroutine per deferred send, waiting on a
  latency timer or on the "sent" signal of another deferred send. Every access to a shared
  location (queue, depth gauge, drop counter, channel close) is its own step, so an execution is
  any interleaving of the actors. Time appears only as "a timer fires" and "a read deadline
  fires"; a write succeeds or fails.
*/
module Session {
  import opened Wrappers

  const QUEUE_CAPACITY: nat := 8

  /** An encoded PDU, reduced to what the ordering rules speak about. `origin` is the tick of a submit_sm. */
  datatype Pdu = Resp(origin: nat) | Dlr(origin: nat) | Mo | Control

  datatype Reason =
    | ClientUnbind | ClientEof | ReadError | WriteFailure | IdleTimeout | PartialFrameTimeout
    | ProtocolError | AuthFailed | BindRejected | FaultInjection | ScheduledDisconnect | Shutdown | Panic

  /** A payload of the bind's schedule. `respSent` names the deferred send carrying the origin response, if any. */
  datatype Event = DlrEvent(origin: nat, respSent: Option<nat>) | MoEvent

  /** Progress inside sendBytes: blocked in its select, or past the writerClosed branch with the drop still uncounted. */
  datatype Out = Blocked(p: Pdu) | Dropping(p: Pdu)

  /** What the read goroutine does once its current sendBytes returns. */
  datatype Next =
    | ToLoop
    | ToClose(reason: Reason)
    | ToEnd
    | ToPlanDlr(origin: nat, pos: nat)
    | ToDue
    | ToDispatch(rest: seq<Event>, afterSubmit: bool)

  /** Program counter of the read goroutine, teardown included. */
  datatype Main =
    | Loop
    | Sending(out: Out, next: Next)
    | Sent(next: Next)
    | Due
    | Dispatching(events: seq<Event>, afterSubmit: bool)
    | Ended
    | DoneClosed
    | CloserJoined
    | DeferredStopped
    | DeferredJoined
    | QueueClosed
    | Sweeping
    | SweepHolds(p: Pdu, counted: bool)
    | Swept
    | Finished

  datatype Closer = CloserWaits | CloserWoken | CloserSends(out: Out) | CloserDone

  datatype Writer = WIdle | Took(p: Pdu) | Writing(p: Pdu) | Failed(p: Pdu) | Returning | WClosed

  datatype Wait = Timer(fired: bool) | AfterSent(task: nat)

  datatype TaskPc = Waiting | TaskSends(out: Out) | Signalling | Done | Cancelled

  /** A goroutine started by sendWhen. */
  datatype Task = Task(wait: Wait, pdu: Pdu, pc: TaskPc)

  /** What the bind settled and how far its clock has come. */
  datatype Bind = Bind(bound: bool, canSubmit: bool, canReceive: bool, clock: nat)

  /** Everything about how the session ends. */
  datatype Fate = Fate(reason: Option<Reason>, writerFailedFirst: bool, writeFailed: bool, closes: seq<Reason>, panicked: bool)

  /** The outbound counters: the depth gauge, what sendBytes was given, and what was counted dropped. */
  datatype Gauge = Gauge(depth: int, handed: multiset<Pdu>, dropped: multiset<Pdu>)

  datatype State = State(
    main: Main,
    closer: Closer,
    writer: Writer,
    tasks: seq<Task>,
    queue: seq<Pdu>,
    wire: seq<Pdu>,
    sched: seq<Event>,
    quit: bool,
    bind: Bind,
    gauge: Gauge,
    fate: Fate)

  const Init: State :=
    State(Loop, CloserWaits, WIdle, [], [], [], [], false, Bind(false, false, false, 0),
          Gauge(0, multiset{}, multiset{}), Fate(None, false, false, [], false))

  // ----- actions -----

  datatype ReaderAct =
    | SeeQuit
    | ReadFails(reason: Reason)
    | ReadBadLength
    | ReadTimeout
    | Answer
    | BindOk(submit: bool, receive: bool, mos: nat)
    | BindRefused(reason: Reason)
    | Unbind
    | SubmitInline(dlr: bool, pos: nat)
    | SubmitDeferred(dlr: bool, pos: nat)
    | SubmitSilent
    | SubmitCut(reason: Reason)
    | SubmitAnswerCut
    | Proceed
    | DrainDue(n: nat)
    | Dispatch
    | DrainEnds(cut: bool)

  datatype Who = Reader | CloserActor | TaskActor(t: nat)

  datatype SendAct = Enqueue | GiveUp | CountDrop

  datatype WriterAct = Take | Decrement | WriteOk | WriteFails | CountFailed | WriterReturns | WriterCloses

  datatype CloserAct = WakeOnQuit | WakeOnDone | SendUnbind | SkipUnbind

  datatype TaskAct = Ready | Cancel | Signal

  datatype TearAct =
    | CloseDone | JoinCloser | StopDeferred | JoinDeferred | CloseQueue | JoinWriter
    | SweepTake | SweepDecrement | SweepDrop | SweepEnds | Record

  datatype Action =
    | Quit
    | TimerFires(t: nat)
    | Read(reader: ReaderAct)
    | Send(who: Who, send: SendAct)
    | Write(writer: WriterAct)
    | Close(closer: CloserAct)
    | Defer(t: nat, task: TaskAct)
    | Tear(tear: TearAct)

  // ----- shared facts about a state -----

  /** Position in the teardown order: 0 while the read loop runs. */
  function Phase(m: Main): (n: nat)
    ensures n <= 9
  {
    match m
    case Loop => 0
    case Sending(_, _) => 0
    case Sent(_) => 0
    case Due => 0
    case Dispatching(_, _) => 0
    case Ended => 1
    case DoneClosed => 2
    case CloserJoined => 3
    case DeferredStopped => 4
    case DeferredJoined => 5
    case QueueClosed => 6
    case Sweeping => 7
    case SweepHolds(_, _) => 7
    case Swept => 8
    case Finished => 9
  }

  predicate IsQueueClosed(s: State) {
    Phase(s.main) >= 6
  }

  predicate Finishes(t: Task) {
    t.pc.Done? || t.pc.Cancelled?
  }

  predicate AllFinished(ts: seq<Task>) {
    forall t :: 0 <= t < |ts| ==> Finishes(ts[t])
  }

  predicate SentClosed(ts: seq<Task>, t: nat) {
    t < |ts| && ts[t].pc.Done?
  }

  function OutOf(s: State, w: Who): Option<Out> {
    match w
    case Reader => if s.main.Sending? then Some(s.main.out) else None
    case CloserActor => if s.closer.CloserSends? then Some(s.closer.out) else None
    case TaskActor(t) => if t < |s.tasks| && s.tasks[t].pc.TaskSends? then Some(s.tasks[t].pc.out) else None
  }

  function SetOut(s: State, w: Who, out: Out): State
    requires OutOf(s, w).Some?
  {
    match w
    case Reader => s.(main := s.main.(out := out))
    case CloserActor => s.(closer := CloserSends(out))
    case TaskActor(t) => s.(tasks := s.tasks[t := s.tasks[t].(pc := TaskSends(out))])
  }

  function Insert(events: seq<Event>, pos: nat, e: Event): seq<Event> {
    var i := if pos <= |events| then pos else |events|;
    events[..i] + [e] + events[i..]
  }

  // ----- steps -----

  /** The first action of sendBytes: the depth gauge rises before the queue is touched. */
  function HandOver(s: State, p: Pdu): State {
    s.(gauge := Gauge(s.gauge.depth + 1, s.gauge.handed + multiset{p}, s.gauge.dropped))
  }

  function Lower(g: Gauge): Gauge {
    g.(depth := g.depth - 1)
  }

  function CountDropped(g: Gauge, p: Pdu): Gauge {
    g.(dropped := g.dropped + multiset{p})
  }

  function ReaderSends(s: State, p: Pdu, next: Next): State {
    HandOver(s, p).(main := Sending(Blocked(p), next))
  }

  function CloseWith(s: State, r: Reason): State {
    s.(main := Ended, fate := s.fate.(reason := Some(r)))
  }

  function Continue(s: State, next: Next): State {
    match next
    case ToLoop => s.(main := Loop)
    case ToClose(r) => CloseWith(s, r)
    case ToEnd => s.(main := Ended)
    case ToPlanDlr(o, pos) => s.(main := Due, sched := Insert(s.sched, pos, DlrEvent(o, None)))
    case ToDue => s.(main := Due)
    case ToDispatch(rest, after) => s.(main := Dispatching(rest, after))
  }

  function DispatchFirst(s: State): State
    requires s.main.Dispatching? && s.main.events != []
  {
    var e := s.main.events[0];
    var next := ToDispatch(s.main.events[1..], s.main.afterSubmit);
    match e
    case MoEvent => if s.bind.canReceive then ReaderSends(s, Mo, next) else Continue(s, next)
    case DlrEvent(o, None) => ReaderSends(s, Dlr(o), next)
    case DlrEvent(o, Some(t)) =>
      if SentClosed(s.tasks, t) then ReaderSends(s, Dlr(o), next)
      else Continue(s, next).(tasks := s.tasks + [Task(AfterSent(t), Dlr(o), Waiting)])
  }

  function ReaderNext(s: State, a: ReaderAct): Option<State> {
    match a
    case Proceed => if s.main.Sent? then Some(Continue(s, s.main.next)) else None
    case DrainDue(n) =>
      if s.main.Due? && n <= |s.sched|
      then Some(s.(main := Dispatching(s.sched[..n], true), sched := s.sched[n..])) else None
    case Dispatch =>
      if s.main.Dispatching? && s.main.events != [] then Some(DispatchFirst(s)) else None
    case DrainEnds(cut) =>
      if s.main.Dispatching? && s.main.events == [] && (cut ==> s.main.afterSubmit)
      then Some(if cut then CloseWith(s, ScheduledDisconnect) else s.(main := Loop)) else None
    case _ =>
      if s.main.Loop? then LoopNext(s, a) else None
  }

  /** What one iteration of the read loop can start. */
  function LoopNext(s: State, a: ReaderAct): Option<State>
    requires s.main.Loop?
    requires !a.Proceed? && !a.DrainDue? && !a.Dispatch? && !a.DrainEnds?
  {
    var submits := s.bind.bound && s.bind.canSubmit;
    var committed := s.(bind := s.bind.(clock := s.bind.clock + 1));
    match a
    case SeeQuit => if s.quit then Some(CloseWith(s, Shutdown)) else None
    case ReadFails(r) =>
      if r in {ClientEof, ReadError, PartialFrameTimeout}
      then Some(CloseWith(s, if s.quit then Shutdown else r)) else None
    case ReadBadLength =>
      Some(if s.quit then CloseWith(s, Shutdown)
           else ReaderSends(s.(fate := s.fate.(reason := Some(ProtocolError))), Control, ToEnd))
    case ReadTimeout =>
      Some(if s.quit then CloseWith(s, Shutdown)
           else if s.sched != [] then s.(main := Dispatching(s.sched, false), sched := [])
           else CloseWith(s, IdleTimeout))
    case Answer => Some(ReaderSends(s, Control, ToLoop))
    case BindOk(submit, receive, mos) =>
      if s.bind.bound then None
      else Some(ReaderSends(s.(bind := Bind(true, submit, receive, s.bind.clock),
                               sched := s.sched + seq(mos, _ => MoEvent)), Control, ToLoop))
    case BindRefused(r) =>
      if s.bind.bound || r !in {AuthFailed, BindRejected} then None else Some(ReaderSends(s, Control, ToClose(r)))
    case Unbind => Some(ReaderSends(s, Control, ToClose(ClientUnbind)))
    case SubmitInline(dlr, pos) =>
      if !submits then None
      else Some(ReaderSends(committed, Resp(s.bind.clock + 1),
                            if dlr && s.bind.canReceive then ToPlanDlr(s.bind.clock + 1, pos) else ToDue))
    case SubmitDeferred(dlr, pos) =>
      if !submits then None
      else Some(committed.(main := Due,
                           tasks := s.tasks + [Task(Timer(false), Resp(s.bind.clock + 1), Waiting)],
                           sched := if dlr && s.bind.canReceive
                                    then Insert(s.sched, pos, DlrEvent(s.bind.clock + 1, Some(|s.tasks|))) else s.sched))
    case SubmitSilent => if !submits then None else Some(committed.(main := Due))
    case SubmitCut(r) =>
      if !submits then None
      else if r in {ScheduledDisconnect, FaultInjection} then Some(CloseWith(committed, r))
      else if r == Shutdown && s.quit then Some(CloseWith(s, r)) else None
    case SubmitAnswerCut =>
      if !submits then None else Some(ReaderSends(committed, Resp(s.bind.clock + 1), ToClose(FaultInjection)))
  }

  /** A completed sendBytes: the caller goes on. */
  function Returned(s: State, w: Who): State
    requires OutOf(s, w).Some?
  {
    match w
    case Reader => s.(main := Sent(s.main.next))
    case CloserActor => s.(closer := CloserDone)
    case TaskActor(t) => s.(tasks := s.tasks[t := s.tasks[t].(pc := Signalling)])
  }

  function SendNext(s: State, w: Who, a: SendAct): Option<State> {
    var out := OutOf(s, w);
    if out.None? then None else
    var p := out.value.p;
    match a
    case Enqueue =>
      if !out.value.Blocked? then None
      else if IsQueueClosed(s) then Some(s.(fate := s.fate.(panicked := true)))  // a send on a closed channel
      else if |s.queue| >= QUEUE_CAPACITY then None
      else Some(Returned(s.(queue := s.queue + [p]), w))
    case GiveUp =>
      if !out.value.Blocked? || !s.writer.WClosed? then None
      else Some(SetOut(s, w, Dropping(p)).(gauge := Lower(s.gauge)))
    case CountDrop =>
      if !out.value.Dropping? then None
      else Some(Returned(s.(gauge := CountDropped(s.gauge, p)), w))
  }

  function WriterNext(s: State, a: WriterAct): Option<State> {
    match a
    case Take =>
      if s.writer.WIdle? && s.queue != []
      then Some(s.(writer := Took(s.queue[0]), queue := s.queue[1..])) else None
    case Decrement =>
      if s.writer.Took? then Some(s.(writer := Writing(s.writer.p), gauge := Lower(s.gauge))) else None
    case WriteOk =>
      if s.writer.Writing? then Some(s.(writer := WIdle, wire := s.wire + [s.writer.p])) else None
    case WriteFails =>
      if s.writer.Writing? then Some(s.(writer := Failed(s.writer.p), fate := s.fate.(writeFailed := true))) else None
    case CountFailed =>
      if s.writer.Failed?
      then Some(s.(writer := Returning, gauge := CountDropped(s.gauge, s.writer.p))) else None
    case WriterReturns =>
      if s.writer.WIdle? && s.queue == [] && IsQueueClosed(s) then Some(s.(writer := Returning)) else None
    case WriterCloses =>
      if s.writer.Returning? then Some(s.(writer := WClosed)) else None
  }

  function CloserNext(s: State, a: CloserAct): Option<State> {
    match a
    case WakeOnQuit => if s.closer.CloserWaits? && s.quit then Some(s.(closer := CloserWoken)) else None
    case WakeOnDone =>
      if s.closer.CloserWaits? && Phase(s.main) >= 2 then Some(s.(closer := CloserDone)) else None
    case SendUnbind =>
      if s.closer.CloserWoken? && s.bind.bound
      then Some(HandOver(s, Control).(closer := CloserSends(Blocked(Control)))) else None
    case SkipUnbind => if s.closer.CloserWoken? && !s.bind.bound then Some(s.(closer := CloserDone)) else None
  }

  predicate IsReady(s: State, t: nat)
    requires t < |s.tasks|
  {
    match s.tasks[t].wait
    case Timer(fired) => fired
    case AfterSent(u) => SentClosed(s.tasks, u)
  }

  function TaskNext(s: State, t: nat, a: TaskAct): Option<State> {
    if t >= |s.tasks| then None else
    var task := s.tasks[t];
    match a
    case Ready =>
      if task.pc.Waiting? && IsReady(s, t)
      then Some(HandOver(s, task.pdu).(tasks := s.tasks[t := task.(pc := TaskSends(Blocked(task.pdu)))])) else None
    case Cancel =>
      if task.pc.Waiting? && Phase(s.main) >= 4
      then Some(s.(tasks := s.tasks[t := task.(pc := Cancelled)])) else None
    case Signal =>
      if task.pc.Signalling? then Some(s.(tasks := s.tasks[t := task.(pc := Done)])) else None
  }

  function CloseReasonOf(s: State): Reason {
    if s.fate.writerFailedFirst && s.fate.writeFailed then WriteFailure
    else if s.fate.reason.None? then Panic else s.fate.reason.value
  }

  function TearNext(s: State, a: TearAct): Option<State> {
    match a
    case CloseDone =>
      if s.main.Ended? then Some(s.(main := DoneClosed, fate := s.fate.(writerFailedFirst := s.writer.WClosed?))) else None
    case JoinCloser =>
      if s.main.DoneClosed? && s.closer.CloserDone? then Some(s.(main := CloserJoined)) else None
    case StopDeferred => if s.main.CloserJoined? then Some(s.(main := DeferredStopped)) else None
    case JoinDeferred =>
      if s.main.DeferredStopped? && AllFinished(s.tasks) then Some(s.(main := DeferredJoined)) else None
    case CloseQueue => if s.main.DeferredJoined? then Some(s.(main := QueueClosed)) else None
    case JoinWriter => if s.main.QueueClosed? && s.writer.WClosed? then Some(s.(main := Sweeping)) else None
    case SweepTake =>
      if s.main.Sweeping? && s.queue != []
      then Some(s.(main := SweepHolds(s.queue[0], false), queue := s.queue[1..])) else None
    case SweepDecrement =>
      if s.main.SweepHolds? && !s.main.counted
      then Some(s.(main := SweepHolds(s.main.p, true), gauge := Lower(s.gauge))) else None
    case SweepDrop =>
      if s.main.SweepHolds? && s.main.counted
      then Some(s.(main := Sweeping, gauge := CountDropped(s.gauge, s.main.p))) else None
    case SweepEnds => if s.main.Sweeping? && s.queue == [] then Some(s.(main := Swept)) else None
    case Record => if s.main.Swept? then Some(s.(main := Finished, fate := s.fate.(closes := s.fate.closes + [CloseReasonOf(s)]))) else None
  }

  function TimerNext(s: State, t: nat): Option<State> {
    if t < |s.tasks| && s.tasks[t].wait == Timer(false)
    then Some(s.(tasks := s.tasks[t := s.tasks[t].(wait := Timer(true))])) else None
  }

  /** The transition relation: the successor of `s` under `a`, if `a` can happen there. */
  function StepTo(s: State, a: Action): Option<State> {
    if s.fate.panicked then None else
    match a
    case Quit => if s.quit then None else Some(s.(quit := true))
    case TimerFires(t) => TimerNext(s, t)
    case Read(r) => ReaderNext(s, r)
    case Send(w, x) => SendNext(s, w, x)
    case Write(w) => WriterNext(s, w)
    case Close(c) => CloserNext(s, c)
    case Defer(t, d) => TaskNext(s, t, d)
    case Tear(d) => TearNext(s, d)
  }

  /** `acts` is an execution: each action could happen where it did. */
  predicate IsRun(acts: seq<Action>) {
    RunFrom(Init, acts).Some?
  }

  /** The state reached from `s` by `acts`, if every action of it could happen. */
  function RunFrom(s: State, acts: seq<Action>): Option<State>
    decreases |acts|
  {
    if acts == [] then Some(s) else
    match StepTo(s, acts[0])
    case None => None
    case Some(s') => RunFrom(s', acts[1..])
  }

  function Reached(acts: seq<Action>): State
    requires IsRun(acts)
  {
    RunFrom(Init, acts).value
  }
}
