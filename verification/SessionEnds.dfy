/** Why a session ends, when its deferred sends may be given up, and what silence does to its schedule. */
module SessionEnds {
  import opened Wrappers
  import opened Session
  import opened SessionOrder
  import opened SessionFate
  import opened SessionTheorems
  import opened SessionAnswers

  // ----- the recorded reason -----

  /** The reason an action of the read loop gives for ending the session, if it ends it. */
  function Cause(s: State, a: Action): Option<Reason> {
    match a
    case Read(SeeQuit) => Some(Shutdown)
    case Read(ReadFails(r)) => Some(if s.quit then Shutdown else r)
    case Read(ReadBadLength) => Some(if s.quit then Shutdown else ProtocolError)
    case Read(ReadTimeout) => if s.quit then Some(Shutdown) else if s.sched == [] then Some(IdleTimeout) else None
    case Read(BindRefused(r)) => Some(r)
    case Read(Unbind) => Some(ClientUnbind)
    case Read(SubmitCut(r)) => Some(r)
    case Read(SubmitAnswerCut) => Some(FaultInjection)
    case Read(DrainEnds(cut)) => if cut then Some(ScheduledDisconnect) else None
    case _ => None
  }

  /** The last cause the run gave, after `c` was given before it. */
  function LastCause(c: Option<Reason>, s: State, acts: seq<Action>): Option<Reason>
    requires RunFrom(s, acts).Some?
    decreases |acts|
  {
    if acts == [] then c
    else LastCause(if Cause(s, acts[0]).Some? then Cause(s, acts[0]) else c, StepTo(s, acts[0]).value, acts[1..])
  }

  /** The reason a session is ending for, once it is. */
  function Ending(s: State): Option<Reason> {
    match s.main
    case Sending(_, ToClose(r)) => Some(r)
    case Sent(ToClose(r)) => Some(r)
    case Sending(_, ToEnd) => s.fate.reason
    case Sent(ToEnd) => s.fate.reason
    case _ => if Phase(s.main) >= 1 then s.fate.reason else None
  }

  lemma {:induction false} EndingStep(s: State, a: Action)
    requires PhaseInv(s) && FateInv(s) && StepTo(s, a).Some?
    ensures Ending(StepTo(s, a).value) == if Cause(s, a).Some? then Cause(s, a) else Ending(s)
    ensures Cause(s, a).Some? ==> Ending(s).None?
  {
    match a
    case Read(r) =>
      if s.main.Loop? {
        EndingLoop(s, r);
      } else {
        EndingBetween(s, r);
      }
    case Send(w, x) => EndingSend(s, w, x);
    case Tear(d) => EndingTear(s, d);
    case _ =>
  }

  lemma {:induction false} EndingLoop(s: State, r: ReaderAct)
    requires s.main.Loop? && ReaderNext(s, r).Some?
    ensures Ending(ReaderNext(s, r).value) == Cause(s, Read(r))
  {
  }

  lemma {:induction false} EndingBetween(s: State, r: ReaderAct)
    requires !s.main.Loop? && ReaderNext(s, r).Some?
    ensures Ending(ReaderNext(s, r).value) == if Cause(s, Read(r)).Some? then Cause(s, Read(r)) else Ending(s)
    ensures Cause(s, Read(r)).Some? ==> Ending(s).None?
  {
  }

  lemma {:induction false} EndingSend(s: State, w: Who, x: SendAct)
    requires PhaseInv(s) && SendNext(s, w, x).Some?
    ensures Ending(SendNext(s, w, x).value) == Ending(s)
  {
    PhaseSend(s, w, x);
  }

  lemma {:induction false} EndingTear(s: State, d: TearAct)
    requires TearNext(s, d).Some?
    ensures Ending(TearNext(s, d).value) == Ending(s)
  {
  }

  lemma {:induction false} EndingRun(s: State, acts: seq<Action>)
    requires Inv(s) && RunFrom(s, acts).Some?
    ensures Ending(RunFrom(s, acts).value) == LastCause(Ending(s), s, acts)
    decreases |acts|
  {
    if acts != [] {
      EndingStep(s, acts[0]);
      InvStep(s, acts[0]);
      EndingRun(StepTo(s, acts[0]).value, acts[1..]);
    }
  }

  /** The writer had already closed when the read loop's end was announced. */
  predicate WriterFirst(s: State, acts: seq<Action>)
    requires RunFrom(s, acts).Some?
    decreases |acts|
  {
    acts != [] && ((acts[0] == Tear(CloseDone) && s.writer.WClosed?) || WriterFirst(StepTo(s, acts[0]).value, acts[1..]))
  }

  lemma {:induction false} FirstStep(s: State, a: Action)
    requires StepTo(s, a).Some?
    ensures StepTo(s, a).value.fate.writerFailedFirst == if a == Tear(CloseDone) then s.writer.WClosed? else s.fate.writerFailedFirst
    ensures a == Tear(CloseDone) ==> s.main.Ended?
  {
    match a
    case Read(r) => FirstRead(s, r);
    case Send(w, x) => FirstSend(s, w, x);
    case _ =>
  }

  lemma {:induction false} FirstRead(s: State, r: ReaderAct)
    requires ReaderNext(s, r).Some?
    ensures ReaderNext(s, r).value.fate.writerFailedFirst == s.fate.writerFailedFirst
  {
  }

  lemma {:induction false} FirstSend(s: State, w: Who, x: SendAct)
    requires SendNext(s, w, x).Some?
    ensures SendNext(s, w, x).value.fate.writerFailedFirst == s.fate.writerFailedFirst
  {
  }

  lemma {:induction false} WriterFirstRun(s: State, acts: seq<Action>)
    requires Inv(s) && RunFrom(s, acts).Some? && (Phase(s.main) <= 1 ==> !s.fate.writerFailedFirst)
    ensures RunFrom(s, acts).value.fate.writerFailedFirst == (s.fate.writerFailedFirst || WriterFirst(s, acts))
    decreases |acts|
  {
    if acts != [] {
      FirstStep(s, acts[0]);
      PhaseGrows(s, acts[0]);
      InvStep(s, acts[0]);
      WriterFirstRun(StepTo(s, acts[0]).value, acts[1..]);
    }
  }

  lemma {:induction false} PhaseGrows(s: State, a: Action)
    requires StepTo(s, a).Some?
    ensures Phase(StepTo(s, a).value.main) >= Phase(s.main) && (a == Tear(CloseDone) ==> Phase(StepTo(s, a).value.main) == 2)
  {
    match a
    case Send(w, x) => PhaseStays(s, w, x);
    case Read(r) => PhaseReads(s, r);
    case Tear(d) => PhaseTears(s, d);
    case _ =>
  }

  lemma {:induction false} PhaseStays(s: State, w: Who, x: SendAct)
    requires SendNext(s, w, x).Some?
    ensures Phase(SendNext(s, w, x).value.main) == Phase(s.main)
  {
  }

  lemma {:induction false} PhaseReads(s: State, r: ReaderAct)
    requires ReaderNext(s, r).Some?
    ensures Phase(s.main) == 0
  {
  }

  lemma {:induction false} PhaseTears(s: State, d: TearAct)
    requires TearNext(s, d).Some?
    ensures Phase(TearNext(s, d).value.main) >= Phase(s.main) && (d == CloseDone ==> Phase(TearNext(s, d).value.main) == 2)
  {
  }

  /**
    The one reason a session records is the one the read loop gave: the client's, the deadline's, the
    fault's or the schedule's, Shutdown once the engine is quitting. Only a write that failed before the
    loop's end was announced replaces it.
  */
  lemma {:induction false} RecordedReason(acts: seq<Action>)
    requires IsRun(acts) && Reached(acts).main.Finished?
    ensures
      var s, cause := Reached(acts), LastCause(None, Init, acts);
      && cause.Some?
      && s.fate.closes == [if WriterFirst(Init, acts) && s.fate.writeFailed then WriteFailure else cause.value]
  {
    InvReached(acts);
    InvInit();
    EndingRun(Init, acts);
    WriterFirstRun(Init, acts);
  }

  // ----- deferred sends -----

  predicate NoneCancelled(s: State) {
    forall t :: 0 <= t < |s.tasks| ==> !s.tasks[t].pc.Cancelled?
  }

  lemma {:induction false} NoneCancelledStep(s: State, a: Action)
    requires Phase(s.main) < 4 && NoneCancelled(s) && StepTo(s, a).Some?
    ensures NoneCancelled(StepTo(s, a).value)
  {
    match a
    case Read(r) => ReadEffect(s, r);
    case Send(w, x) =>
    case Defer(t, d) =>
    case _ =>
  }

  lemma {:induction false} NoneCancelledRun(s: State, acts: seq<Action>)
    requires NoneCancelled(s) && RunFrom(s, acts).Some? && Phase(RunFrom(s, acts).value.main) < 4
    ensures NoneCancelled(RunFrom(s, acts).value) && Phase(s.main) < 4
    decreases |acts|
  {
    if acts != [] {
      PhaseBelow(StepTo(s, acts[0]).value, acts[1..]);
      PhaseGrows(s, acts[0]);
      NoneCancelledStep(s, acts[0]);
      NoneCancelledRun(StepTo(s, acts[0]).value, acts[1..]);
    }
  }

  lemma {:induction false} PhaseBelow(s: State, acts: seq<Action>)
    requires RunFrom(s, acts).Some?
    ensures Phase(s.main) <= Phase(RunFrom(s, acts).value.main)
    decreases |acts|
  {
    if acts != [] {
      PhaseGrows(s, acts[0]);
      PhaseBelow(StepTo(s, acts[0]).value, acts[1..]);
    }
  }

  /** No deferred send is given up before teardown stops them, after the closer has gone. */
  lemma {:induction false} NothingGivenUpEarly(acts: seq<Action>, t: nat)
    requires IsRun(acts) && t < |Reached(acts).tasks| && Reached(acts).tasks[t].pc.Cancelled?
    ensures Phase(Reached(acts).main) >= 4 && Reached(acts).closer.CloserDone?
  {
    InvReached(acts);
    if Phase(Reached(acts).main) < 4 {
      NoneCancelledRun(Init, acts);
      assert false;
    }
  }

  // ----- silence -----

  /** The read goroutine is emptying the schedule after a silence. */
  predicate Flushing(s: State) {
    s.sched == []
    && match s.main
       case Dispatching(_, after) => !after
       case Sending(_, ToDispatch(_, after)) => !after
       case Sent(ToDispatch(_, after)) => !after
       case _ => false
  }

  lemma {:induction false} FlushStep(s: State, a: Action)
    requires PhaseInv(s) && Flushing(s) && StepTo(s, a).Some?
    ensures Flushing(StepTo(s, a).value) || (StepTo(s, a).value.main.Loop? && StepTo(s, a).value.sched == [])
  {
    match a
    case Read(r) => FlushRead(s, r);
    case Send(w, x) => FlushSend(s, w, x);
    case _ =>
  }

  lemma {:induction false} FlushRead(s: State, r: ReaderAct)
    requires Flushing(s) && ReaderNext(s, r).Some?
    ensures Flushing(ReaderNext(s, r).value) || (ReaderNext(s, r).value.main.Loop? && ReaderNext(s, r).value.sched == [])
  {
  }

  lemma {:induction false} FlushSend(s: State, w: Who, x: SendAct)
    requires PhaseInv(s) && Flushing(s) && SendNext(s, w, x).Some?
    ensures Flushing(SendNext(s, w, x).value)
  {
    PhaseSend(s, w, x);
  }

  lemma {:induction false} FlushRun(s: State, more: seq<Action>) returns (n: nat)
    requires Inv(s) && Flushing(s) && RunFrom(s, more).Some?
    ensures n <= |more| && RunFrom(s, more[..n]).Some?
    ensures
      var s' := RunFrom(s, more[..n]).value;
      (n == |more| && Flushing(s')) || (s'.main.Loop? && s'.sched == [])
    decreases |more|
  {
    if more == [] {
      n := 0;
      assert more[..0] == [];
    } else {
      var s1 := StepTo(s, more[0]).value;
      FlushStep(s, more[0]);
      InvStep(s, more[0]);
      if Flushing(s1) {
        var m := FlushRun(s1, more[1..]);
        n := m + 1;
        assert more[..n][1..] == more[1..][..m];
      } else {
        n := 1;
        assert more[..1] == [more[0]] && [more[0]][1..] == [];
        assert RunFrom(s, [more[0]]) == RunFrom(s1, []);
      }
    }
  }

  /**
    A schedule left at rest is never frozen. When the read deadline fires past the quiescence window on a
    pending schedule, the engine not quitting, the read loop reads nothing more before that schedule is
    empty: in every continuation it is still emptying it, or came back to reading with nothing left on it.
  */
  lemma {:induction false} SilenceFlushes(acts: seq<Action>, more: seq<Action>) returns (n: nat)
    requires IsRun(acts) && StepTo(Reached(acts), Read(ReadTimeout)).Some?
    requires !Reached(acts).quit && Reached(acts).sched != []
    requires RunFrom(StepTo(Reached(acts), Read(ReadTimeout)).value, more).Some?
    ensures n <= |more| && RunFrom(StepTo(Reached(acts), Read(ReadTimeout)).value, more[..n]).Some?
    ensures
      var s' := RunFrom(StepTo(Reached(acts), Read(ReadTimeout)).value, more[..n]).value;
      (n == |more| && Flushing(s')) || (s'.main.Loop? && s'.sched == [])
  {
    InvReached(acts);
    InvStep(Reached(acts), Read(ReadTimeout));
    n := FlushRun(StepTo(Reached(acts), Read(ReadTimeout)).value, more);
  }
}
