/** The main results about the session protocol, for every run. */
module SessionTheorems {
  import opened Wrappers
  import opened Session
  import opened SessionOrder
  import opened SessionLedger
  import opened SessionFate
  import opened SessionTeardown

  ghost predicate Inv(s: State) {
    && PhaseInv(s) && OrderInv(s) && FateInv(s) && TimersDistinct(s)
    && (forall p :: Balanced(p, s))
    && (forall o: nat :: AnsweredOnce(o, s))
  }

  lemma {:induction false} InvInit()
    ensures Inv(Init)
  {
  }

  lemma {:induction false} InvStep(s: State, a: Action)
    requires Inv(s) && StepTo(s, a).Some?
    ensures Inv(StepTo(s, a).value)
  {
    var s' := StepTo(s, a).value;
    PhaseStep(s, a);
    OrderStep(s, a);
    FateStep(s, a);
    DistinctStep(s, a);
    forall p ensures Balanced(p, s') {
      BalanceStep(p, s, a);
    }
    forall o: nat ensures AnsweredOnce(o, s') {
      AnsweredStep(o, s, a);
    }
  }

  lemma {:induction false} InvRun(s: State, acts: seq<Action>)
    requires Inv(s) && RunFrom(s, acts).Some?
    ensures Inv(RunFrom(s, acts).value)
    decreases |acts|
  {
    if acts != [] {
      InvStep(s, acts[0]);
      InvRun(StepTo(s, acts[0]).value, acts[1..]);
    }
  }

  lemma {:induction false} InvReached(acts: seq<Action>)
    requires IsRun(acts)
    ensures Inv(Reached(acts))
  {
    InvInit();
    InvRun(Init, acts);
  }

  /** In every interleaving a delivery receipt is written only after the response to its own submit. */
  lemma {:induction false} ReceiptFollowsResponse(acts: seq<Action>, i: nat)
    requires IsRun(acts) && i < |Reached(acts).wire| && Reached(acts).wire[i].Dlr?
    ensures Resp(Reached(acts).wire[i].origin) in Reached(acts).wire[..i]
  {
    InvReached(acts);
    OrderedPrefix(Reached(acts).wire, Stream(Reached(acts)));
  }

  /** Once the outbound queue is closed no actor is inside sendBytes, now or later. */
  lemma {:induction false} NobodySendsOnClosedQueue(acts: seq<Action>, w: Who)
    requires IsRun(acts)
    ensures !Reached(acts).fate.panicked
    ensures IsQueueClosed(Reached(acts)) ==> OutOf(Reached(acts), w).None?
  {
    InvReached(acts);
    var s := Reached(acts);
    if IsQueueClosed(s) && w.TaskActor? && w.t < |s.tasks| {
      assert Finishes(s.tasks[w.t]);
    }
  }

  /**
    At every reachable state each PDU handed over is written, counted dropped, queued, or inside one actor;
    the gauge counts those that wait.
  */
  lemma {:induction false} Conservation(acts: seq<Action>, p: Pdu)
    requires IsRun(acts)
    ensures
      var s := Reached(acts);
      && s.gauge.handed[p] == multiset(s.wire)[p] + s.gauge.dropped[p] + multiset(s.queue)[p] + InTransit(p, s)
      && s.gauge.depth == |s.queue| + RaisedInTransit(s)
      && s.gauge.depth >= 0
  {
    InvReached(acts);
    assert Balanced(p, Reached(acts));
  }

  lemma {:induction false} NoneHeld(p: Pdu, ts: seq<Task>)
    requires AllFinished(ts)
    ensures HeldByTasks(p, ts) == 0 && RaisedByTasks(ts) == 0
  {
    if ts != [] {
      assert Finishes(ts[|ts| - 1]);
      var front := ts[..|ts| - 1];
      forall t | 0 <= t < |front| ensures Finishes(front[t]) {
        assert Finishes(ts[t]);
      }
      NoneHeld(p, front);
    }
  }

  lemma {:induction false} FinalLedger(s: State)
    requires Inv(s) && s.main.Finished?
    ensures s.gauge.handed == multiset(s.wire) + s.gauge.dropped && s.gauge.depth == 0
    ensures !s.fate.writeFailed ==> s.gauge.handed == multiset(s.wire)
  {
    forall p ensures s.gauge.handed[p] == (multiset(s.wire) + s.gauge.dropped)[p] && s.gauge.depth == 0 {
      assert Balanced(p, s);
      NoneHeld(p, s.tasks);
    }
    var any := Control;
    assert s.gauge.handed[any] == (multiset(s.wire) + s.gauge.dropped)[any] && s.gauge.depth == 0;
  }

  /** After teardown every PDU handed over was written or counted dropped exactly once, and the gauge is back to zero. */
  lemma {:induction false} EverythingAccounted(acts: seq<Action>)
    requires IsRun(acts) && Reached(acts).main.Finished?
    ensures
      var s := Reached(acts);
      && s.gauge.handed == multiset(s.wire) + s.gauge.dropped
      && s.gauge.depth == 0
  {
    InvReached(acts);
    FinalLedger(Reached(acts));
  }

  /** Unless a write failed, nothing handed over is lost. */
  lemma {:induction false} NothingLostWithoutWriteFailure(acts: seq<Action>)
    requires IsRun(acts) && Reached(acts).main.Finished? && !Reached(acts).fate.writeFailed
    ensures Reached(acts).gauge.handed == multiset(Reached(acts).wire)
  {
    InvReached(acts);
    FinalLedger(Reached(acts));
  }

  /** A session records its close once, when teardown ends, with a reason that was set. */
  lemma {:induction false} OneClose(acts: seq<Action>)
    requires IsRun(acts)
    ensures
      var s := Reached(acts);
      && (s.main.Finished? <==> |s.fate.closes| == 1)
      && (!s.main.Finished? ==> s.fate.closes == [])
      && (s.main.Finished? ==> s.fate.closes[0] != Panic)
      && (s.main.Finished? && s.fate.closes[0] == WriteFailure <==>
            s.main.Finished? && s.fate.writerFailedFirst && s.fate.writeFailed)
  {
    InvReached(acts);
  }

  /** No submit is answered twice. */
  lemma {:induction false} AnsweredAtMostOnce(acts: seq<Action>, o: nat)
    requires IsRun(acts)
    ensures multiset(Reached(acts).wire)[Resp(o)] <= 1
  {
    InvReached(acts);
    assert AnsweredOnce(o, Reached(acts)) && Balanced(Resp(o), Reached(acts));
  }

  /** In the end a deferred response is on the wire unless its sender was cancelled. */
  lemma {:induction false} WrittenUnlessCancelled(s: State, t: nat)
    requires Inv(s) && s.main.Finished? && !s.fate.writeFailed
    requires t < |s.tasks| && s.tasks[t].wait.Timer?
    ensures s.tasks[t].pdu in s.wire <==> !s.tasks[t].pc.Cancelled?
  {
    FinalLedger(s);
    assert TaskOk(s, t) && Finishes(s.tasks[t]);
    assert AnsweredOnce(s.tasks[t].pdu.origin, s);
    assert s.tasks[t].pdu in s.wire <==> s.tasks[t].pdu in multiset(s.wire);
  }

  /** `more` ends the session from `s` without a write failure. */
  predicate Completes(s: State, more: seq<Action>) {
    RunFrom(s, more).Some? && RunFrom(s, more).value.main.Finished? && !RunFrom(s, more).value.fate.writeFailed
  }

  /** While the sender waits, the teardown can still be scheduled so as to cancel it. */
  lemma {:induction false} CancellingRun(s: State, t: nat) returns (more: seq<Action>)
    requires Inv(s) && Phase(s.main) >= 1 && !s.fate.writeFailed && t < |s.tasks| && !Unstoppable(s, t)
    ensures Completes(s, more) && |RunFrom(s, more).value.tasks| == |s.tasks| && Inv(RunFrom(s, more).value)
    ensures var task := RunFrom(s, more).value.tasks[t];
            task.pc.Cancelled? && task.pdu == s.tasks[t].pdu && task.wait.Timer? == s.tasks[t].wait.Timer?
    decreases Work(s)
  {
    if s.main.Finished? {
      assert Finishes(s.tasks[t]);
      more := [];
    } else {
      var a := TeardownCanStep(s);
      WorkDrops(s, a);
      InvStep(s, a);
      StepKeepsTask(s, a, t);
      CalmFailsNoWrite(s, a);
      var rest := CancellingRun(StepTo(s, a).value, t);
      more := [a] + rest;
      assert more[1..] == rest;
    }
  }

  /** Once past its wait a deferred response is written by every run that ends without a write failure. */
  lemma {:induction false} UnstoppableIsWritten(s: State, t: nat, more: seq<Action>)
    requires Inv(s) && Phase(s.main) >= 1 && t < |s.tasks| && s.tasks[t].wait.Timer? && Unstoppable(s, t)
    requires Completes(s, more)
    ensures s.tasks[t].pdu in RunFrom(s, more).value.wire
    decreases |more|
  {
    if more == [] {
      WrittenUnlessCancelled(s, t);
    } else {
      InvStep(s, more[0]);
      WorkDrops(s, more[0]);
      StepKeepsTask(s, more[0], t);
      UnstoppableIsWritten(StepTo(s, more[0]).value, t, more[1..]);
    }
  }

  /**
    When a cut can still lose a deferred response, told at any moment after the read loop: some way
    of finishing without a write failure leaves it off the wire if and only if its sender still waits
    for its latency or was cancelled then.
  */
  lemma {:induction false} ResponseCanBeLostIffUnsent(acts: seq<Action>, t: nat)
    requires IsRun(acts) && Phase(Reached(acts).main) >= 1 && !Reached(acts).fate.writeFailed
    requires t < |Reached(acts).tasks| && Reached(acts).tasks[t].wait.Timer?
    ensures
      var s := Reached(acts);
      (exists more :: Completes(s, more) && s.tasks[t].pdu !in RunFrom(s, more).value.wire)
      <==> s.tasks[t].pc.Waiting? || s.tasks[t].pc.Cancelled?
  {
    InvReached(acts);
    var s := Reached(acts);
    if Unstoppable(s, t) {
      forall more | Completes(s, more) ensures s.tasks[t].pdu in RunFrom(s, more).value.wire {
        UnstoppableIsWritten(s, t, more);
      }
    } else {
      var more := CancellingRun(s, t);
      WrittenUnlessCancelled(RunFrom(s, more).value, t);
    }
  }

  lemma {:induction false} WorkBoundsRun(s: State, more: seq<Action>)
    requires Inv(s) && Phase(s.main) >= 1 && RunFrom(s, more).Some?
    ensures |more| + Work(RunFrom(s, more).value) <= Work(s)
    ensures Phase(RunFrom(s, more).value.main) >= 1
    decreases |more|
  {
    if more != [] {
      WorkDrops(s, more[0]);
      InvStep(s, more[0]);
      WorkBoundsRun(StepTo(s, more[0]).value, more[1..]);
    }
  }

  /**
    The teardown terminates. Whatever the schedule, at most Work steps follow the end of the read
    loop, and until the close is recorded some actor can take one: receipts chained on cancelled
    responses and a full queue included.
  */
  lemma {:induction false} TeardownTerminates(acts: seq<Action>, more: seq<Action>)
    requires IsRun(acts) && Phase(Reached(acts).main) >= 1
    requires RunFrom(Reached(acts), more).Some?
    ensures |more| <= Work(Reached(acts))
    ensures
      var s := RunFrom(Reached(acts), more).value;
      s.main.Finished? || exists a :: ByActor(a) && StepTo(s, a).Some?
  {
    InvReached(acts);
    InvRun(Reached(acts), more);
    WorkBoundsRun(Reached(acts), more);
    var s := RunFrom(Reached(acts), more).value;
    if !s.main.Finished? {
      var a := TeardownCanStep(s);
    }
  }

  lemma {:induction false} RunAppend(s: State, acts: seq<Action>, a: Action)
    requires RunFrom(s, acts).Some?
    ensures RunFrom(s, acts + [a]) == StepTo(RunFrom(s, acts).value, a)
    decreases |acts|
  {
    if acts == [] {
      assert RunFrom(s, [a]) == match StepTo(s, a) case None => None case Some(s') => RunFrom(s', [a][1..]);
    } else {
      assert (acts + [a])[1..] == acts[1..] + [a];
      RunAppend(StepTo(s, acts[0]).value, acts[1..], a);
    }
  }

  /** Extends a concrete run by one step. */
  lemma {:induction false} Then(acts: seq<Action>, s: State, a: Action) returns (acts': seq<Action>, s': State)
    requires RunFrom(Init, acts) == Some(s) && StepTo(s, a).Some?
    ensures acts' == acts + [a] && s' == StepTo(s, a).value && RunFrom(Init, acts') == Some(s')
  {
    RunAppend(Init, acts, a);
    acts', s' := acts + [a], StepTo(s, a).value;
  }

  // One bind, one submit whose response is held back for its latency, then a cut after the response.

  lemma {:induction false} Bound() returns (acts: seq<Action>, s: State)
    ensures RunFrom(Init, acts) == Some(s)
    ensures s == Init.(queue := [Control], bind := Bind(true, true, true, 0), gauge := Gauge(1, multiset{Control}, multiset{}))
  {
    acts, s := Then([], Init, Read(BindOk(true, true, 0)));
    acts, s := Then(acts, s, Send(Reader, Enqueue));
    acts, s := Then(acts, s, Read(Proceed));
  }

  lemma {:induction false} ServedAndCut() returns (acts: seq<Action>, s: State)
    ensures RunFrom(Init, acts) == Some(s)
    ensures s == Init.(main := Ended, tasks := [Task(Timer(false), Resp(1), Waiting)], queue := [Control],
                       bind := Bind(true, true, true, 1), gauge := Gauge(1, multiset{Control}, multiset{}),
                       fate := Fate(Some(ScheduledDisconnect), false, false, [], false))
  {
    acts, s := Bound();
    acts, s := Then(acts, s, Read(SubmitDeferred(false, 0)));
    acts, s := Then(acts, s, Read(DrainDue(0)));
    acts, s := Then(acts, s, Read(DrainEnds(true)));
  }

  lemma {:induction false} Flushed() returns (acts: seq<Action>, s: State)
    ensures RunFrom(Init, acts) == Some(s)
    ensures s == Init.(main := Ended, tasks := [Task(Timer(false), Resp(1), Waiting)], wire := [Control],
                       bind := Bind(true, true, true, 1), gauge := Gauge(0, multiset{Control}, multiset{}),
                       fate := Fate(Some(ScheduledDisconnect), false, false, [], false))
  {
    acts, s := ServedAndCut();
    acts, s := Then(acts, s, Write(Take));
    acts, s := Then(acts, s, Write(Decrement));
    acts, s := Then(acts, s, Write(WriteOk));
  }

  lemma {:induction false} CloserGone() returns (acts: seq<Action>, s: State)
    ensures RunFrom(Init, acts) == Some(s)
    ensures s == Init.(main := DeferredStopped, closer := CloserDone,
                       tasks := [Task(Timer(false), Resp(1), Waiting)], wire := [Control],
                       bind := Bind(true, true, true, 1), gauge := Gauge(0, multiset{Control}, multiset{}),
                       fate := Fate(Some(ScheduledDisconnect), false, false, [], false))
  {
    acts, s := Flushed();
    acts, s := Then(acts, s, Tear(CloseDone));
    acts, s := Then(acts, s, Close(WakeOnDone));
    acts, s := Then(acts, s, Tear(JoinCloser));
    acts, s := Then(acts, s, Tear(StopDeferred));
  }

  lemma {:induction false} ResponseCancelled() returns (acts: seq<Action>, s: State)
    ensures RunFrom(Init, acts) == Some(s)
    ensures s == Init.(main := QueueClosed, closer := CloserDone,
                       tasks := [Task(Timer(false), Resp(1), Cancelled)], wire := [Control],
                       bind := Bind(true, true, true, 1), gauge := Gauge(0, multiset{Control}, multiset{}),
                       fate := Fate(Some(ScheduledDisconnect), false, false, [], false))
  {
    acts, s := CloserGone();
    acts, s := Then(acts, s, Defer(0, Cancel));
    acts, s := Then(acts, s, Tear(JoinDeferred));
    acts, s := Then(acts, s, Tear(CloseQueue));
  }

  /**
    A response can be lost although no write failed: the cut ends the session before the latency
    timer fires, and teardown cancels the deferred response.
  */
  lemma {:induction false} CutDropsDeferredResponse()
    ensures exists acts ::
      && IsRun(acts) && Reached(acts).main.Finished? && !Reached(acts).fate.writeFailed
      && Reached(acts).bind.clock == 1 && Reached(acts).fate.closes == [ScheduledDisconnect]
      && Resp(1) !in Reached(acts).wire
  {
    var acts, s := ResponseCancelled();
    acts, s := Then(acts, s, Write(WriterReturns));
    acts, s := Then(acts, s, Write(WriterCloses));
    acts, s := Then(acts, s, Tear(JoinWriter));
    acts, s := Then(acts, s, Tear(SweepEnds));
    acts, s := Then(acts, s, Tear(Record));
    assert IsRun(acts) && Reached(acts) == s;
  }
}
