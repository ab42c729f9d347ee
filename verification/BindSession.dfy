/** The read goroutine's part of a bound session: one object per bind, updated in place by each submit and flush. */
module BindSession {
  import opened Wrappers
  import opened Cursors
  import opened Engines
  import opened ScenarioEngine
  import opened Replay
  import opened Seeding
  import opened Schedule
  import B = BindSchedule

  /** Every planned receipt carries the one delay the engines share. */
  predicate OneDelay<S>(v: Env<S>, delay: nat) {
    forall q :: q in v.engines && v.engines[q].dlr.Some? ==> v.engines[q].dlr.value.delayTicks == delay
  }

  /** A submit that planned a receipt planned it at this delay. */
  predicate PlansAt(r: Record, delay: nat) {
    r.planned ==> r.verdict.dlr.Some? && r.verdict.dlr.value.delayTicks == delay
  }

  /** The schedule with the receipt of the current tick, if one is planned. */
  function WithReceipt(s: B.State, delay: nat, planned: bool): B.State {
    if planned then B.Enqueue(s, B.DueTick(s.clock, delay), B.Receipt(s.clock)) else s
  }

  lemma {:induction false} PlansWithDelay<S>(v: Env<S>, delay: nat, l: Live<S>, x: Sub)
    requires ValidEnv(v) && OneDelay(v, delay) && ValidLive(v, l)
    ensures PlansAt(Committed(v, l, x).log[|l.log|], delay)
  {
    var p := Switched(v, l, l.clock + 1).1;
    var d := Decide(v.engines[p], v.src, l.bind, l.clock + 1, x.now).0;
    assert Committed(v, l, x).log[|l.log|].verdict == d;
  }

  class Session<S(0)> {
    const env: Env<S>
    /** The delay every engine of this virtual SMSC plans receipts with. */
    const delay: nat
    const sched: Runner<B.Payload>
    const cursors: BindCursors
    const state: BindState<S>
    var clock: nat
    /** The submits committed and the events emitted so far. */
    var log: seq<Record>
    var out: seq<B.Ev>

    /** What never changes after the bind. */
    ghost predicate Wired() {
      && ValidEnv(env) && OneDelay(env, delay)
      && cursors.transitions == env.transitions && cursors.disconnects == env.disconnects
      && cursors.engines == env.engines.Keys
    }

    ghost predicate Valid()
      reads this, sched, cursors, state, state.gate
    {
      Wired() && sched.Valid() && cursors.Valid() && ValidLive(env, Value())
    }

    function Value(): Live<S>
      reads this, cursors, state, state.gate
    {
      Live(state.Value(), clock, cursors.current, cursors.transitionCursor, cursors.disconnectCursor, !cursors.closed, log)
    }

    /** The schedule as it stands. */
    function Pending(): B.State
      reads this, sched
    {
      B.State(sched.pending, sched.seqno, clock, out)
    }

    /** A successful bind: the bind's own state and cursors, and its configured messages enqueued in config order. */
    constructor (c: Setup, q: Party<S>, p: Process<S>)
      requires Buildable(c.scenario, p.walk)
      ensures Valid() && delay == DelayOf(c) && clock == 0 && out == []
      ensures env == EnvFor(c, q, p) && Value() == StartFor(c, q, p)
      ensures Pending() == B.Start(c.messages) && state.schedBase == BaseOf(OriginFor(c, q, p))
      ensures fresh(sched) && fresh(cursors) && fresh(state) && (state.gate != null ==> fresh(state.gate))
    {
      EnginesComplete(c, p.walk);
      var v := EnvFor(c, q, p);
      var r := new Runner<B.Payload>();
      var cs := new BindCursors(c.scenario.profile, v.engines.Keys, c.transitions, c.disconnects);
      var st := new BindState(v.engines[c.scenario.profile], q.src, c.seed, c.nameHash, q.ordinal, p.chaos, p.zero);
      env, delay, sched, cursors, state := v, DelayOf(c), r, cs, st;
      clock, log, out := 0, [], [];
      new;
      EnqueueMessages(c.messages);
    }

    method EnqueueMessages(mos: seq<nat>)
      requires sched.Valid() && Pending() == B.State([], 0, 0, [])
      modifies sched
      ensures sched.Valid() && Pending() == B.Start(mos)
    {
      for i := 0 to |mos|
        invariant sched.Valid() && Pending() == B.Start(mos[..i])
      {
        assert mos[..i + 1][..i] == mos[..i];
        sched.Schedule(mos[i], B.MobileOriginated(i));
      }
      assert mos[..|mos|] == mos;
    }

    /** The transitions due, then the verdict of the engine in force, at the tick after the clock. */
    method EvaluateTick(x: Sub) returns (d: Decision)
      requires Valid()
      modifies cursors`transitionCursor, cursors`current, state`rng, state.gate
      ensures cursors.Valid() && cursors.current in env.engines
      ensures (cursors.transitionCursor, cursors.current) == Switched(env, old(Value()), clock + 1)
      ensures (d, state.Value()) == Decide(env.engines[cursors.current], env.src, old(state.Value()), clock + 1, x.now)
    {
      cursors.ApplyDueTransitions(clock + 1);
      d := state.Evaluate(env.engines[cursors.current], env.src, clock + 1, x.now);
    }

    /** Advance the clock and record; the link is down when a due disconnect or the carrier cuts it. */
    method RecordVerdict(x: Sub, d: Decision)
      requires Wired() && cursors.Valid() && !cursors.closed
      modifies this`clock, this`log, cursors`closed
      ensures cursors.Valid()
      ensures Value() == CommitAs(env, old(Value()), x, cursors.transitionCursor, cursors.current, d, state.Value())
    {
      clock := clock + 1;
      SteadyPeek(env.disconnects, cursors.disconnectCursor, clock, env.coin, x.registry.peek);
      var withheld := cursors.DueDisconnectBeforeResponse(clock, env.coin, (i: nat) => x.registry.peek);
      log := log + [RecordOf(env, clock, x, cursors.current, d, withheld)];
      if withheld || d.outcome.Disconnect? {
        cursors.closed := true;
      }
    }

    /** Decide, then record. */
    method Commit(x: Sub)
      requires Valid() && !cursors.closed
      modifies this`clock, this`log, cursors`transitionCursor, cursors`current, cursors`closed, state`rng, state.gate
      ensures Valid() && Value() == Committed(env, old(Value()), x)
    {
      var d := EvaluateTick(x);
      RecordVerdict(x, d);
    }

    /** Schedules the last submit's receipt if it planned one. */
    method Plan()
      requires Valid() && log != [] && PlansAt(log[|log| - 1], delay)
      modifies sched
      ensures Valid() && Value() == old(Value())
      ensures Pending() == WithReceipt(old(Pending()), delay, log[|log| - 1].planned)
    {
      var last := log[|log| - 1];
      if last.planned {
        sched.Schedule((clock + last.verdict.dlr.value.delayTicks) % TWO_64, B.Receipt(clock));
      }
    }

    /** Releases everything the clock has reached. */
    method DrainSchedule()
      requires Valid()
      modifies this`out, sched
      ensures Valid() && Value() == old(Value()) && Pending() == B.Drain(old(Pending()))
    {
      var due := sched.DrainDue(clock);
      out := out + due;
    }

    /** Plans, then releases what is due. */
    method PlanAndDrain()
      requires Valid() && log != [] && PlansAt(log[|log| - 1], delay)
      modifies this`out, sched
      ensures Valid() && Value() == old(Value())
      ensures Pending() == B.Drain(WithReceipt(old(Pending()), delay, log[|log| - 1].planned))
    {
      Plan();
      DrainSchedule();
    }

    method ConsumeDisconnects(oldest: bool)
      requires Valid() && !cursors.closed
      modifies cursors`closed, cursors`disconnectCursor
      ensures Valid() && Value() == Settled(env, old(Value()), oldest)
    {
      ghost var was := cursors.disconnectCursor;
      SteadyHit(env.disconnects, was, Advance(env.disconnects, was, clock), env.coin, oldest);
      cursors.ApplyDueDisconnects(clock, env.coin, (i: nat) => oldest);
      assert Value() == Settled(env, old(Value()), oldest);
    }

    /** The link still up: plan, drain, and consume the disconnects due. */
    method Settle(oldest: bool)
      requires Valid() && !cursors.closed && log != [] && PlansAt(log[|log| - 1], delay)
      modifies this`out, sched, cursors`closed, cursors`disconnectCursor
      ensures Valid() && Value() == Settled(env, old(Value()), oldest)
      ensures Pending() == B.Drain(WithReceipt(old(Pending()), delay, log[|log| - 1].planned))
    {
      PlanAndDrain();
      ConsumeDisconnects(oldest);
    }

    /** A submit: committed, then, while the link is up, its receipt scheduled, the schedule drained and the due disconnects consumed. */
    method HandleSubmit(x: Sub)
      requires Valid() && !cursors.closed
      modifies this`clock, this`log, this`out, sched, cursors`transitionCursor, cursors`current, cursors`closed, cursors`disconnectCursor,
               state`rng, state.gate
      ensures Valid() && Value() == Submitted(env, old(Value()), x)
      ensures var t := Trace(env, old(Value()), Submit(x));
              if t.Some? then Pending() == B.Step(old(Pending()), delay, t.value)
              else Pending() == old(Pending()).(clock := clock)
      ensures Trace(env, old(Value()), Submit(x)).Some? ==> B.OnTime(old(Pending()), Pending())
    {
      ghost var l := Value();
      ghost var was := Pending();
      Commit(x);
      if cursors.closed {
        return;
      }
      PlansWithDelay(env, delay, l, x);
      B.SubmitOnTime(was, delay, log[|log| - 1].planned);
      Settle(x.registry.consume);
    }

    /** Silence: everything pending leaves, whatever its tick; no decision moves. */
    method FlushSchedule()
      requires Valid()
      modifies this`out, sched
      ensures Valid() && Value() == old(Value()) && Pending() == B.Step(old(Pending()), delay, B.Flush)
    {
      var all := sched.DrainAll();
      out := out + all;
    }
  }
}
