/** How a session ends, and what a submit can expect to be answered. */
module SessionFate {
  import opened Session
  import opened SessionOrder

  // ----- how the session ends -----

  predicate Planned(r: Reason) {
    r != Panic && r != WriteFailure
  }

  predicate NextPlanned(s: State, next: Next) {
    && (next.ToClose? ==> Planned(next.reason))
    && (next.ToEnd? ==> s.fate.reason.Some?)
  }

  ghost predicate FateInv(s: State) {
    && (s.fate.reason.Some? ==> Planned(s.fate.reason.value))
    && (Phase(s.main) >= 1 ==> s.fate.reason.Some?)
    && (s.main.Sending? ==> NextPlanned(s, s.main.next))
    && (s.main.Sent? ==> NextPlanned(s, s.main.next))
    && (s.fate.closes == if s.main.Finished? then [CloseReasonOf(s)] else [])
    && (!s.fate.writeFailed ==> s.gauge.dropped == multiset{} && !s.main.SweepHolds?)
  }

  lemma {:induction false} FateStep(s: State, a: Action)
    requires PhaseInv(s) && OrderInv(s) && FateInv(s) && StepTo(s, a).Some?
    ensures FateInv(StepTo(s, a).value)
  {
    match a
    case Quit =>
    case TimerFires(t) =>
    case Read(r) => FateRead(s, r);
    case Send(w, x) => FateSend(s, w, x);
    case Write(w) => FateWrite(s, w);
    case Close(c) => FateClose(s, c);
    case Defer(t, d) => FateDefer(s, t, d);
    case Tear(d) => FateTear(s, d);
  }

  lemma {:induction false} FateClose(s: State, c: CloserAct)
    requires FateInv(s) && CloserNext(s, c).Some?
    ensures FateInv(CloserNext(s, c).value)
  {
  }

  lemma {:induction false} FateDefer(s: State, t: nat, d: TaskAct)
    requires FateInv(s) && TaskNext(s, t, d).Some?
    ensures FateInv(TaskNext(s, t, d).value)
  {
  }

  /** The read itself failed, or the engine is shutting down. */
  predicate ReadsNothing(r: ReaderAct) {
    r.SeeQuit? || r.ReadFails? || r.ReadBadLength? || r.ReadTimeout?
  }

  lemma {:induction false} FateUnread(s: State, r: ReaderAct)
    requires FateInv(s) && s.main.Loop? && ReaderNext(s, r).Some? && ReadsNothing(r)
    ensures FateInv(ReaderNext(s, r).value)
  {
  }

  predicate HandlesSubmit(r: ReaderAct) {
    r.SubmitInline? || r.SubmitDeferred? || r.SubmitSilent? || r.SubmitCut? || r.SubmitAnswerCut?
  }

  lemma {:induction false} FateSubmit(s: State, r: ReaderAct)
    requires FateInv(s) && s.main.Loop? && ReaderNext(s, r).Some? && HandlesSubmit(r)
    ensures FateInv(ReaderNext(s, r).value)
  {
  }

  lemma {:induction false} FateHandled(s: State, r: ReaderAct)
    requires FateInv(s) && s.main.Loop? && ReaderNext(s, r).Some? && !ReadsNothing(r) && !HandlesSubmit(r)
    ensures FateInv(ReaderNext(s, r).value)
  {
  }

  lemma {:induction false} FateRead(s: State, r: ReaderAct)
    requires FateInv(s) && ReaderNext(s, r).Some?
    ensures FateInv(ReaderNext(s, r).value)
  {
    if s.main.Loop? {
      if ReadsNothing(r) {
        FateUnread(s, r);
      } else if HandlesSubmit(r) {
        FateSubmit(s, r);
      } else {
        FateHandled(s, r);
      }
    } else {
      FateBetween(s, r);
    }
  }

  /** Between two iterations of the read loop. */
  lemma {:induction false} FateBetween(s: State, r: ReaderAct)
    requires FateInv(s) && !s.main.Loop? && ReaderNext(s, r).Some?
    ensures FateInv(ReaderNext(s, r).value)
  {
  }

  lemma {:induction false} FateSend(s: State, w: Who, x: SendAct)
    requires PhaseInv(s) && OrderInv(s) && FateInv(s) && SendNext(s, w, x).Some?
    ensures FateInv(SendNext(s, w, x).value)
  {
    PhaseSend(s, w, x);
    if w.TaskActor? {
      assert TaskOk(s, w.t);
    }
  }

  lemma {:induction false} FateWrite(s: State, w: WriterAct)
    requires PhaseInv(s) && FateInv(s) && WriterNext(s, w).Some?
    ensures FateInv(WriterNext(s, w).value)
  {
  }

  lemma {:induction false} FateTear(s: State, d: TearAct)
    requires PhaseInv(s) && FateInv(s) && TearNext(s, d).Some?
    ensures FateInv(TearNext(s, d).value)
  {
  }

  // ----- at most one response to a submit, and none for a cancelled one -----

  predicate Unsent(t: Task) {
    t.pc.Waiting? || t.pc.Cancelled?
  }

  predicate AnsweredOnce(o: nat, s: State) {
    && s.gauge.handed[Resp(o)] <= 1
    && (o > s.bind.clock ==> s.gauge.handed[Resp(o)] == 0)
    && (forall t {:trigger s.tasks[t]} :: 0 <= t < |s.tasks| && s.tasks[t].pdu == Resp(o) ==>
          o <= s.bind.clock && (Unsent(s.tasks[t]) <==> s.gauge.handed[Resp(o)] == 0))
  }

  lemma {:induction false} AnsweredStep(o: nat, s: State, a: Action)
    requires PhaseInv(s) && OrderInv(s) && AnsweredOnce(o, s) && StepTo(s, a).Some?
    requires TimersDistinct(s)
    ensures AnsweredOnce(o, StepTo(s, a).value)
  {
    match a
    case Read(r) => AnsweredRead(o, s, r);
    case Send(w, x) => AnsweredSend(o, s, w, x);
    case Defer(t, d) => AnsweredDefer(o, s, t, d);
    case _ => AnsweredElsewhere(o, s, a);
  }

  lemma {:induction false} AnsweredElsewhere(o: nat, s: State, a: Action)
    requires AnsweredOnce(o, s) && StepTo(s, a).Some? && !a.Read? && !a.Send? && !a.Defer?
    ensures AnsweredOnce(o, StepTo(s, a).value)
  {
    var s' := StepTo(s, a).value;
    assert s'.gauge.handed[Resp(o)] == s.gauge.handed[Resp(o)] && s'.bind == s.bind;
    assert |s'.tasks| == |s.tasks| && forall t :: 0 <= t < |s.tasks| ==>
      s'.tasks[t].pdu == s.tasks[t].pdu && s'.tasks[t].pc == s.tasks[t].pc;
  }

  /** Each deferred response answers its own submit, and a committed one. */
  predicate TimersDistinct(s: State) {
    && (forall t {:trigger s.tasks[t]} :: 0 <= t < |s.tasks| && s.tasks[t].pdu.Resp? ==> s.tasks[t].pdu.origin <= s.bind.clock)
    && (forall t, u :: 0 <= t < u < |s.tasks| && s.tasks[t].pdu.Resp? ==> s.tasks[t].pdu != s.tasks[u].pdu)
  }

  /** The part of a reader step these facts depend on. */
  lemma {:induction false} ReadAnswers(s: State, r: ReaderAct)
    requires OrderInv(s) && ReaderNext(s, r).Some?
    ensures
      var s' := ReaderNext(s, r).value;
      && s.bind.clock <= s'.bind.clock
      && (s'.main.Sending? && s'.main.out.p.Resp? ==>
            s'.main.out.p.origin == s.bind.clock + 1 == s'.bind.clock && s'.tasks == s.tasks)
      && (s'.tasks != s.tasks && s'.tasks[|s.tasks|].pdu.Resp? ==>
            s'.tasks[|s.tasks|].pdu.origin == s.bind.clock + 1 == s'.bind.clock && !s'.main.Sending?)
  {
    ReadEffect(s, r);
  }

  lemma {:induction false} AnsweredRead(o: nat, s: State, r: ReaderAct)
    requires OrderInv(s) && AnsweredOnce(o, s) && ReaderNext(s, r).Some?
    ensures AnsweredOnce(o, ReaderNext(s, r).value)
  {
    ReadEffect(s, r);
    ReadAnswers(s, r);
  }

  lemma {:induction false} AnsweredSend(o: nat, s: State, w: Who, x: SendAct)
    requires PhaseInv(s) && AnsweredOnce(o, s) && SendNext(s, w, x).Some?
    ensures AnsweredOnce(o, SendNext(s, w, x).value)
  {
    PhaseSend(s, w, x);
  }

  lemma {:induction false} AnsweredDefer(o: nat, s: State, t: nat, d: TaskAct)
    requires AnsweredOnce(o, s) && TaskNext(s, t, d).Some? && TimersDistinct(s)
    ensures AnsweredOnce(o, TaskNext(s, t, d).value)
  {
  }

  lemma {:induction false} DistinctStep(s: State, a: Action)
    requires PhaseInv(s) && OrderInv(s) && TimersDistinct(s) && StepTo(s, a).Some?
    ensures TimersDistinct(StepTo(s, a).value)
  {
    var s' := StepTo(s, a).value;
    if a.Read? {
      ReadEffect(s, a.reader);
      ReadAnswers(s, a.reader);
    } else {
      SameTasks(s, a);
    }
  }

  /** The deferred sends and the bind are those of `s`, up to how far the sends got. */
  predicate SameSends(s: State, s': State) {
    && |s'.tasks| == |s.tasks| && s'.bind == s.bind
    && forall t :: 0 <= t < |s.tasks| ==> s'.tasks[t].pdu == s.tasks[t].pdu
  }

  lemma {:induction false} SendSameSends(s: State, w: Who, x: SendAct)
    requires PhaseInv(s) && SendNext(s, w, x).Some?
    ensures SameSends(s, SendNext(s, w, x).value)
  {
    PhaseSend(s, w, x);
  }

  lemma {:induction false} DeferSameSends(s: State, t: nat, d: TaskAct)
    requires TaskNext(s, t, d).Some?
    ensures SameSends(s, TaskNext(s, t, d).value)
  {
  }

  lemma {:induction false} TearSameSends(s: State, d: TearAct)
    requires TearNext(s, d).Some?
    ensures SameSends(s, TearNext(s, d).value)
  {
  }

  /** Only the read goroutine adds deferred sends or commits a submit. */
  lemma {:induction false} SameTasks(s: State, a: Action)
    requires PhaseInv(s) && StepTo(s, a).Some? && !a.Read?
    ensures SameSends(s, StepTo(s, a).value)
  {
    match a
    case Send(w, x) => SendSameSends(s, w, x);
    case Defer(t, d) => DeferSameSends(s, t, d);
    case Tear(d) => TearSameSends(s, d);
    case _ =>
  }
}
