/**
  What the client of a bind sees of every submit, in terms of the configuration alone: whether it is
  refused, how it ends, whether it is answered, and whether a receipt is planned for it.
*/
module RunOutcomes {
  import opened Wrappers
  import opened Schema
  import opened Prng
  import opened ErrorMix
  import opened Cursors
  import opened ScenarioEngine
  import opened Engines
  import opened Replay
  import opened ServedLatency
  import B = BindSchedule

  /** The knobs profile `p` runs with: its own if it is the initial one, none if a transition entered it. */
  function KnobsOf(c: Setup, p: Profile): Params {
    if p == c.scenario.profile then c.scenario.params else NO_PARAMS
  }

  function LatencyOf(c: Setup, p: Profile): Latency {
    if p == c.scenario.profile then c.scenario.latency else NO_LATENCY
  }

  function ReceiptsOf(c: Setup, p: Profile): Option<Dlr> {
    if p == c.scenario.profile then c.scenario.dlr else None
  }

  /** The fraction the submit at tick `i + 1` draws first, if it draws one. */
  function FractionAt<S>(c: Setup, q: Party<S>, p: Process<S>, xs: seq<Sub>, i: nat): real
    requires Buildable(c.scenario, p.walk) && i <= |xs|
  {
    Float64(q.src, LiveRun(EnvFor(c, q, p), StartFor(c, q, p), xs[..i]).bind.rng).0
  }

  /** A submit over the cap fails, with the code a throttling carrier configures or as throttled. */
  predicate Throttled(p: Profile, k: Params, d: Decision) {
    && d.outcome.Failure? && d.latencyMs == 0 && d.dlr.None?
    && d.status == if p == ThrottlingCarrier && k.errorCode.Some? then StatusFor(k.errorCode.value) else 0x58
  }

  lemma {:induction false} DecidedAsConfigured<S>(c: Setup, e: Engine, src: Source<S>, b: Bind<S>, t: nat, now: int, p: Profile)
    requires Ready(e) && Carries(c, p, e)
    ensures
      var d := Decide(e, src, b, t, now).0;
      if Refuses(b.gate, now) then Throttled(p, KnobsOf(c, p), d)
      else
        && Outcomes(p, KnobsOf(c, p), t, Float64(src, b.rng).0, d)
        && (p != DeadCarrier ==> Serves(LatencyOf(c, p), t, d.latencyMs))
  {
    if Refuses(b.gate, now) {
      RefusalByProfile(e, src, b, t, now);
    } else {
      OutcomeByProfile(e, src, b, t, now);
      LatencyByProfile(e, src, b, t, now);
    }
  }

  /** Submit `i` of a run was recorded as itself and decided as its profile is configured. */
  predicate DecidedSo(c: Setup, zero: int, xs: seq<Sub>, r: Record, i: nat, fraction: real) {
    && i < |xs| && r.profile == InForceAt(c, i + 1) && r.tick == i + 1 && r.content == xs[i].content
    && if RefusedAt(c, zero, xs, i) then Throttled(r.profile, KnobsOf(c, r.profile), r.verdict)
       else
         && Outcomes(r.profile, KnobsOf(c, r.profile), i + 1, fraction, r.verdict)
         && (r.profile != DeadCarrier ==> Serves(LatencyOf(c, r.profile), i + 1, r.verdict.latencyMs))
  }

  lemma {:induction false} RecordedAsItself<S>(v: Env<S>, l: Live<S>, x: Sub)
    requires ValidEnv(v) && ValidLive(v, l)
    ensures var r := Committed(v, l, x).log[l.clock]; r.content == x.content && r.tick == l.clock + 1
  {
  }

  lemma {:induction false} RecordDecided<S>(c: Setup, v: Env<S>, start: Live<S>, zero: int, xs: seq<Sub>, i: nat)
    requires BoundTo(c, v, start, zero) && i < |LiveRun(v, start, xs).log|
    ensures i < |xs|
    ensures
      var fraction := Float64(v.src, LiveRun(v, start, xs[..i]).bind.rng).0;
      DecidedSo(c, zero, xs, LiveRun(v, start, xs).log[i], i, fraction)
  {
    RecordReads(c, v, start, zero, xs, i);
    RecordFrom(v, start, xs, i);
    var r, l := LiveRun(v, start, xs).log[i], LiveRun(v, start, xs[..i]);
    RecordedAsItself(v, l, xs[i]);
    DecidedAsConfigured(c, v.engines[r.profile], v.src, l.bind, i + 1, xs[i].now, r.profile);
  }

  /**
    Every submit of every run: over the cap of the bind's gate, on the arrival times so far, it is
    throttled; else it ends as the profile in force at its tick says, on its first fraction, and is held
    back for a latency that profile's configuration serves. It is recorded with its own content.
  */
  lemma {:induction false} VerdictsFollowConfig<S>(c: Setup, q: Party<S>, p: Process<S>, inputs: seq<Input>, i: nat)
    requires Buildable(c.scenario, p.walk) && i < |BindRun(c, q, p, inputs).live.log|
    ensures i < |Subs(inputs)|
    ensures DecidedSo(c, p.zero, Subs(inputs), BindRun(c, q, p, inputs).live.log[i], i, FractionAt(c, q, p, Subs(inputs), i))
  {
    BindsTo(c, q, p);
    RunIsLive(c, q, p, inputs);
    RecordDecided(c, EnvFor(c, q, p), StartFor(c, q, p), p.zero, Subs(inputs), i);
  }

  lemma {:induction false} ReceiptDrawn<S>(e: Engine, src: Source<S>, b: Bind<S>, t: nat, now: int)
    requires Ready(e)
    ensures var d := Decide(e, src, b, t, now).0; d.dlr.Some? <==> d.outcome.Success? && e.dlr.Some?
  {
    ProfileDrawsNoReceipt(e, src, b.rng, t);
  }

  lemma {:induction false} ProfileDrawsNoReceipt<S>(e: Engine, src: Source<S>, s: S, t: nat)
    requires Ready(e)
    ensures Profiled(e, t, src, s).0.dlr.None?
  {
  }

  lemma {:induction false} EngineReceipts(c: Setup, walk: seq<Code>, p: Profile)
    requires ListsMix(walk, c.scenario.params) && p in EnginesOf(c, walk)
    ensures EnginesOf(c, walk)[p].dlr.Some? <==> ReceiptsOf(c, p).Some?
  {
  }

  /**
    Every submit of every run: it is answered exactly when it is throttled or the profile in force is
    not a dead carrier, and no disconnect entry withheld its response; and a receipt is planned exactly
    for an answered success of the initial profile with a receipt block, on a bind able to receive.
  */
  lemma {:induction false} AnswersFollowConfig<S>(c: Setup, q: Party<S>, p: Process<S>, inputs: seq<Input>, i: nat)
    requires Buildable(c.scenario, p.walk) && i < |BindRun(c, q, p, inputs).live.log|
    ensures BindRun(c, q, p, inputs).live.clock <= |Subs(inputs)| && i < |Subs(inputs)|
    ensures
      var l, xs := BindRun(c, q, p, inputs).live, Subs(inputs);
      var r, life := l.log[i], LifeAfter(c.disconnects, AskedOf(xs)[..l.clock], CoinOf(c, q, p));
      && (r.answered <==> (r.profile != DeadCarrier || RefusedAt(c, p.zero, xs, i)) && !WithheldAt(life, i + 1))
      && (r.planned <==> r.answered && r.verdict.outcome.Success? && ReceiptsOf(c, r.profile).Some? && q.canReceive)
  {
    var v, start, xs := EnvFor(c, q, p), StartFor(c, q, p), Subs(inputs);
    VerdictsFollowConfig(c, q, p, inputs, i);
    RunIsLive(c, q, p, inputs);
    BindsTo(c, q, p);
    AnsweredIff(v, start, xs, c.transitions, c.disconnects);
    AnswersFollowVerdicts(v, start, xs);
    assert AnsweredByVerdict(v, LiveRun(v, start, xs), i);
    RecordReads(c, v, start, p.zero, xs, i);
    var r := LiveRun(v, start, xs).log[i];
    ReceiptDrawn(v.engines[r.profile], v.src, LiveRun(v, start, xs[..i]).bind, i + 1, xs[i].now);
    EngineReceipts(c, p.walk, r.profile);
  }

  // ----- what leaves the bind, and when -----

  /** A client that is never silent long enough for a flush. */
  predicate NeverSilent(inputs: seq<Input>) {
    forall i :: 0 <= i < |inputs| ==> !inputs[i].Flush?
  }

  lemma {:induction false} TracesBusy<S>(v: Env<S>, delay: nat, mos: seq<nat>, start: Live<S>, inputs: seq<Input>)
    requires ValidEnv(v) && ValidLive(v, start) && NeverSilent(inputs)
    ensures B.Busy(Traces(v, delay, mos, start, inputs))
    decreases |inputs|
  {
    if inputs != [] {
      TracesBusy(v, delay, mos, start, inputs[..|inputs| - 1]);
    }
  }

  lemma {:induction false} PlansIn(log: seq<Record>, t: nat)
    requires forall i :: 0 <= i < |log| ==> log[i].tick == i + 1
    ensures t in Plans(log) <==> 1 <= t <= |log| && log[t - 1].planned
  {
    if log != [] {
      var before := log[..|log| - 1];
      PlansIn(before, t);
      assert t <= |before| && t >= 1 ==> before[t - 1] == log[t - 1];
    }
  }

  /**
    Of the receipt for tick `t` and of message `t`: the receipt has left exactly when its submit planned one
    and that submit's tick plus the delay, in 64 bits, has been reached; the message exactly when its tick has been.
  */
  predicate LeftWhenDue(mos: seq<nat>, delay: nat, log: seq<Record>, out: seq<B.Ev>, t: nat) {
    && (t in B.ReceiptsOf(out) <==> 1 <= t <= |log| && log[t - 1].planned && (t + delay) % TWO_64 <= |log|)
    && (t in B.MessagesOf(out) <==> t < |mos| && mos[t] <= |log|)
  }

  /** The same of the schedule's own inputs, read off the log. */
  lemma {:induction false} LeftByLog(mos: seq<nat>, delay: nat, ts: seq<B.Input>, log: seq<Record>, sched: B.State, t: nat)
    requires log != [] && B.Busy(ts) && B.Submits(ts) == |log| && B.PlannedReceipts(ts) == Plans(log)
    requires sched == B.Run(mos, delay, ts) && forall i :: 0 <= i < |log| ==> log[i].tick == i + 1
    ensures LeftWhenDue(mos, delay, log, sched.out, t)
  {
    assert ts != [];
    B.LeavesExactlyWhenDue(mos, delay, ts, t);
    PlansIn(log, t);
  }

  lemma {:induction false} TracesByLog<S>(v: Env<S>, delay: nat, mos: seq<nat>, start: Live<S>, inputs: seq<Input>) returns (ts: seq<B.Input>)
    requires ValidEnv(v) && ValidLive(v, start) && start.clock == 0 && NeverSilent(inputs)
    ensures
      var s := Run(v, delay, mos, start, inputs);
      && B.Busy(ts) && s.sched == B.Run(mos, delay, ts) && B.PlannedReceipts(ts) == Plans(s.live.log)
      && (s.live.open ==> B.Submits(ts) == |s.live.log|)
  {
    ts := Traces(v, delay, mos, start, inputs);
    ScheduleFollowsLog(v, delay, mos, start, inputs);
    TracesBusy(v, delay, mos, start, inputs);
  }

  lemma {:induction false} RunLeavesOnTime<S>(v: Env<S>, delay: nat, mos: seq<nat>, start: Live<S>, inputs: seq<Input>, t: nat)
    requires ValidEnv(v) && ValidLive(v, start) && start.clock == 0 && NeverSilent(inputs)
    requires Run(v, delay, mos, start, inputs).live.open && Run(v, delay, mos, start, inputs).live.log != []
    ensures var s := Run(v, delay, mos, start, inputs); LeftWhenDue(mos, delay, s.live.log, s.sched.out, t)
  {
    var s := Run(v, delay, mos, start, inputs);
    var ts := TracesByLog(v, delay, mos, start, inputs);
    LeftByLog(mos, delay, ts, s.live.log, s.sched, t);
  }

  /**
    On the bind of a client that is never silent, while its link is up, nothing leaves late and nothing
    leaves early.
  */
  lemma {:induction false} LeavesOnTime<S>(c: Setup, q: Party<S>, p: Process<S>, inputs: seq<Input>, t: nat)
    requires Buildable(c.scenario, p.walk) && NeverSilent(inputs)
    requires BindRun(c, q, p, inputs).live.open && BindRun(c, q, p, inputs).live.log != []
    ensures var s := BindRun(c, q, p, inputs); LeftWhenDue(c.messages, DelayOf(c), s.live.log, s.sched.out, t)
  {
    RunLeavesOnTime(EnvFor(c, q, p), DelayOf(c), c.messages, StartFor(c, q, p), inputs, t);
  }

  /** A keepalive changes nothing; a silence releases everything that waits, in order, and decides nothing. */
  lemma {:induction false} SilenceReleasesAll<S>(c: Setup, q: Party<S>, p: Process<S>, inputs: seq<Input>)
    requires Buildable(c.scenario, p.walk)
    ensures BindRun(c, q, p, inputs + [Keepalive]) == BindRun(c, q, p, inputs)
    ensures
      var s, s' := BindRun(c, q, p, inputs), BindRun(c, q, p, inputs + [Flush]);
      && s'.live == s.live
      && (s.live.open ==> s'.sched.pending == [] && s'.sched.out == s.sched.out + s.sched.pending)
      && (!s.live.open ==> s'.sched == s.sched)
  {
    assert (inputs + [Keepalive])[..|inputs|] == inputs;
    assert (inputs + [Flush])[..|inputs|] == inputs;
  }
}
