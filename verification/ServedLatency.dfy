/**
  Which latencies a bind serves, over whole runs, and exactly when they all lie in the windows of the
  profiles they are served under. A refused submit and a profile entered by a transition serve 0 ms.
*/
module ServedLatency {
  import opened Wrappers
  import opened Schema
  import opened Prng
  import opened Throughput
  import opened Cursors
  import opened ScenarioEngine
  import opened Engines
  import opened Replay
  import opened Seeding
  import opened Config

  // ----- the gate over a run -----

  function Times(xs: seq<Sub>): (ts: seq<int>)
    ensures |ts| == |xs| && forall i :: 0 <= i < |xs| ==> ts[i] == xs[i].now
  {
    seq(|xs|, i requires 0 <= i < |xs| => xs[i].now)
  }

  lemma {:induction false} AfterOneMore(w: Window, ts: seq<int>, t: int)
    ensures After(w, ts + [t]) == Next(After(w, ts), t)
    decreases |ts|
  {
    if ts == [] {
      assert [t][1..] == [];
    } else {
      AfterOneMore(Next(w, ts[0]), ts[1..], t);
      assert (ts + [t])[1..] == ts[1..] + [t];
    }
  }

  /** A window never counts more calls than there were. */
  lemma {:induction false} CountsAtMost(w: Window, ts: seq<int>)
    ensures After(w, ts).count <= w.count + |ts|
    decreases |ts|
  {
    if ts != [] {
      CountsAtMost(Next(w, ts[0]), ts[1..]);
    }
  }

  /** The cap of a setup's binds: fixed at the bind, by the initial profile. */
  function CapOf(c: Setup): Option<int> {
    Tighter(Tighter(None, c.limit), if c.scenario.profile in {ThrottlingCarrier, ThroughputCapped} then c.scenario.params.throughputCap else None)
  }

  function GateAfter(c: Setup, zero: int, ts: seq<int>): Option<Gate> {
    if CapOf(c).None? then None else Some(Gate(After(Window(zero, 0), ts), CapOf(c).value))
  }

  predicate Refuses(gate: Option<Gate>, now: int) {
    gate.Some? && !Admitted(gate.value.window, now, gate.value.cap)
  }

  /** The gate refuses submit `i` of a run handled at the clock readings of `xs`. */
  predicate RefusedAt(c: Setup, zero: int, xs: seq<Sub>, i: nat)
    requires i < |xs|
  {
    Refuses(GateAfter(c, zero, Times(xs)[..i]), xs[i].now)
  }

  lemma {:induction false} GateStep<S>(c: Setup, v: Env<S>, l: Live<S>, x: Sub, zero: int, ts: seq<int>)
    requires ValidEnv(v) && ValidLive(v, l) && l.open && l.bind.gate == GateAfter(c, zero, ts)
    ensures Submitted(v, l, x).bind.gate == GateAfter(c, zero, ts + [x.now]) && Submitted(v, l, x).clock == l.clock + 1
  {
    AfterOneMore(Window(zero, 0), ts, x.now);
    assert Submitted(v, l, x).bind == Committed(v, l, x).bind;
  }

  lemma {:induction false} TimesOf(xs: seq<Sub>, n: nat)
    requires n < |xs|
    ensures Times(xs)[..n] == Times(xs[..n]) && Times(xs)[..n + 1] == Times(xs[..n]) + [xs[n].now]
    ensures forall k :: 0 <= k <= n ==> Times(xs)[..k] == Times(xs[..n])[..k]
  {
  }

  lemma {:induction false} GateFollowsClock<S>(c: Setup, v: Env<S>, start: Live<S>, zero: int, xs: seq<Sub>)
    requires ValidEnv(v) && ValidLive(v, start) && Unused(start) && start.bind.gate == GateAfter(c, zero, [])
    ensures
      var l := LiveRun(v, start, xs);
      l.clock <= |xs| && (l.open ==> l.clock == |xs|) && l.bind.gate == GateAfter(c, zero, Times(xs)[..l.clock])
    decreases |xs|
  {
    if xs == [] {
      assert Times(xs)[..0] == [];
    } else {
      var n := |xs| - 1;
      var l := LiveRun(v, start, xs[..n]);
      GateFollowsClock(c, v, start, zero, xs[..n]);
      TimesOf(xs, n);
      if l.open {
        GateStep(c, v, l, xs[n], zero, Times(xs[..n])[..l.clock]);
        assert Times(xs[..n])[..n] == Times(xs[..n]);
      }
    }
  }

  // ----- what a record of a run was decided from -----

  lemma {:induction false} LogStep<S>(v: Env<S>, l: Live<S>, x: Sub)
    requires ValidEnv(v) && ValidLive(v, l)
    ensures
      var r := Submitted(v, l, x);
      if l.open then r.log == l.log + [Committed(v, l, x).log[l.clock]] && r.clock == l.clock + 1 else r == l
  {
  }

  lemma {:induction false} LogGrows<S>(v: Env<S>, start: Live<S>, xs: seq<Sub>)
    requires ValidEnv(v) && ValidLive(v, start) && Unused(start)
    ensures LiveRun(v, start, xs).clock <= |xs| && (LiveRun(v, start, xs).open ==> LiveRun(v, start, xs).clock == |xs|)
    decreases |xs|
  {
    if xs != [] {
      LogGrows(v, start, xs[..|xs| - 1]);
      LogStep(v, LiveRun(v, start, xs[..|xs| - 1]), xs[|xs| - 1]);
    }
  }

  // ----- where an entry of a growing log came from -----

  /** The state after the first `k` inputs of a machine. */
  function Trace<T, X>(step: (T, X) -> T, start: T, xs: seq<X>, k: nat): T
    requires k <= |xs|
  {
    if k == 0 then start else step(Trace(step, start, xs, k - 1), xs[k - 1])
  }

  /** `b` is `a`, or `a` and one entry more. */
  predicate OneMore<R(==)>(a: seq<R>, b: seq<R>) {
    b == a || (|b| == |a| + 1 && a <= b)
  }

  predicate StepLogs<T, X, R(==)>(step: (T, X) -> T, log: T -> seq<R>, start: T, xs: seq<X>, k: nat)
    requires k < |xs|
  {
    OneMore(log(Trace(step, start, xs, k)), log(Trace(step, start, xs, k + 1)))
  }

  /** The step at which entry `i` of the log was appended. */
  lemma {:induction false} AppendedAt<T, X, R>(step: (T, X) -> T, log: T -> seq<R>, start: T, xs: seq<X>, k: nat, i: nat) returns (j: nat)
    requires k <= |xs| && log(start) == [] && i < |log(Trace(step, start, xs, k))|
    requires forall n: nat :: n < k ==> StepLogs(step, log, start, xs, n)
    ensures j < k && |log(Trace(step, start, xs, j))| == i && i < |log(Trace(step, start, xs, j + 1))|
    ensures log(Trace(step, start, xs, j + 1))[i] == log(Trace(step, start, xs, k))[i]
    decreases k
  {
    assert k > 0 && StepLogs(step, log, start, xs, k - 1);
    if i < |log(Trace(step, start, xs, k - 1))| {
      j := AppendedAt(step, log, start, xs, k - 1, i);
    } else {
      j := k - 1;
    }
  }

  /** A submit, as a step of a machine. */
  function Handles<S>(v: Env<S>): (Live<S>, Sub) -> Live<S>
    requires ValidEnv(v)
  {
    (l: Live<S>, x: Sub) => if ValidLive(v, l) then Submitted(v, l, x) else l
  }

  function LogOf<S>(): Live<S> -> seq<Record> {
    (l: Live<S>) => l.log
  }

  lemma {:induction false} TraceIsRun<S>(v: Env<S>, start: Live<S>, xs: seq<Sub>, k: nat)
    requires ValidEnv(v) && ValidLive(v, start) && k <= |xs|
    ensures Trace(Handles(v), start, xs, k) == LiveRun(v, start, xs[..k])
  {
    if k > 0 {
      TraceIsRun(v, start, xs, k - 1);
      assert xs[..k][..k - 1] == xs[..k - 1];
    }
  }

  /** `r` is what submit `i` made of the bind left by the submits before it. */
  ghost predicate MadeBy<S>(v: Env<S>, start: Live<S>, xs: seq<Sub>, i: nat, r: Record)
    requires ValidEnv(v) && ValidLive(v, start) && i < |xs|
  {
    var l := LiveRun(v, start, xs[..i]);
    l.open && l.clock == i && r == Committed(v, l, xs[i]).log[i]
  }

  /** A record of the bind after a submit is one it had, or the one the submit committed. */
  lemma {:induction false} OldOrNew<S>(v: Env<S>, l: Live<S>, x: Sub, i: nat)
    requires ValidEnv(v) && ValidLive(v, l) && i < |Submitted(v, l, x).log|
    ensures
      var r := Submitted(v, l, x).log[i];
      if i < l.clock then r == l.log[i] else l.open && i == l.clock && r == Committed(v, l, x).log[i]
  {
    LogStep(v, l, x);
  }

  lemma {:induction false} RunLogs<S>(v: Env<S>, start: Live<S>, xs: seq<Sub>, k: nat)
    requires ValidEnv(v) && ValidLive(v, start) && k < |xs|
    ensures StepLogs(Handles(v), LogOf(), start, xs, k)
  {
    TraceIsRun(v, start, xs, k);
    LogStep(v, LiveRun(v, start, xs[..k]), xs[k]);
  }

  lemma {:induction false} MadeByNext<S>(v: Env<S>, start: Live<S>, xs: seq<Sub>, k: nat, i: nat)
    requires ValidEnv(v) && ValidLive(v, start) && Unused(start) && k < |xs|
    requires |Trace(Handles(v), start, xs, k).log| == i < |Trace(Handles(v), start, xs, k + 1).log|
    ensures i == k && MadeBy(v, start, xs, k, Trace(Handles(v), start, xs, k + 1).log[i])
  {
    TraceIsRun(v, start, xs, k);
    OldOrNew(v, LiveRun(v, start, xs[..k]), xs[k], i);
    LogGrows(v, start, xs[..k]);
  }

  /** Every record of a run is made by its submit. */
  lemma {:induction false} RecordFrom<S>(v: Env<S>, start: Live<S>, xs: seq<Sub>, i: nat)
    requires ValidEnv(v) && ValidLive(v, start) && Unused(start) && i < |LiveRun(v, start, xs).log|
    ensures i < |xs| && MadeBy(v, start, xs, i, LiveRun(v, start, xs).log[i])
  {
    assert xs[..|xs|] == xs;
    TraceIsRun(v, start, xs, |xs|);
    forall n: nat | n < |xs| ensures StepLogs(Handles(v), LogOf(), start, xs, n) {
      RunLogs(v, start, xs, n);
    }
    var j := AppendedAt(Handles(v), LogOf(), start, xs, |xs|, i);
    MadeByNext(v, start, xs, j, i);
  }

  function InForceAt(c: Setup, t: nat): Profile {
    ProfileAt(c.transitions, c.scenario.profile, t).0
  }

  /** The engine a setup builds for profile `q`, as far as its latencies and cuts go: the initial one as configured, any other bare. */
  predicate Carries(c: Setup, q: Profile, e: Engine) {
    && e.profile == q
    && if q == c.scenario.profile then e.params == c.scenario.params && e.latency == c.scenario.latency
       else e.params == NO_PARAMS && e.latency == NO_LATENCY
  }

  /** The surroundings and the start of a bind of setup `c` whose gate counts from time `zero`. */
  predicate BoundTo<S>(c: Setup, v: Env<S>, start: Live<S>, zero: int) {
    && ValidEnv(v) && ValidLive(v, start) && Unused(start) && Configured(v, c.transitions, c.disconnects)
    && start.profile == c.scenario.profile && start.bind.gate == GateAfter(c, zero, [])
    && forall q :: q in v.engines ==> Carries(c, q, v.engines[q])
  }

  lemma {:induction false} EnginesCarry(c: Setup, walk: seq<Code>, q: Profile)
    requires ListsMix(walk, c.scenario.params) && q in EnginesOf(c, walk)
    ensures Carries(c, q, EnginesOf(c, walk)[q])
  {
  }

  lemma {:induction false} BindsTo<S>(c: Setup, q: Party<S>, p: Process<S>)
    requires Buildable(c.scenario, p.walk)
    ensures BoundTo(c, EnvFor(c, q, p), StartFor(c, q, p), p.zero)
  {
    var v := EnvFor(c, q, p);
    assert v.engines == EnginesOf(c, p.walk);
    forall q | q in v.engines ensures Carries(c, q, v.engines[q]) {
      EnginesCarry(c, p.walk, q);
    }
  }

  lemma {:induction false} CommittedReads<S>(v: Env<S>, l: Live<S>, x: Sub)
    requires ValidEnv(v) && ValidLive(v, l)
    ensures
      var r := Committed(v, l, x).log[l.clock];
      r.profile in v.engines && r.verdict == Decide(v.engines[r.profile], v.src, l.bind, l.clock + 1, x.now).0
  {
  }

  lemma {:induction false} GateFound<S>(c: Setup, v: Env<S>, start: Live<S>, zero: int, xs: seq<Sub>, i: nat)
    requires BoundTo(c, v, start, zero) && i < |xs| && LiveRun(v, start, xs[..i]).clock == i
    ensures LiveRun(v, start, xs[..i]).bind.gate == GateAfter(c, zero, Times(xs)[..i])
  {
    GateFollowsClock(c, v, start, zero, xs[..i]);
    assert Times(xs[..i])[..i] == Times(xs)[..i];
  }

  lemma {:induction false} RecordInForce<S>(v: Env<S>, l: Live<S>, c: Setup, ordinal: nat, i: nat)
    requires ValidLive(v, l) && InForce(l, c.transitions, c.scenario.profile, ordinal) && i < |l.log|
    ensures l.log[i].profile == InForceAt(c, i + 1)
  {
    assert RanInForce(l.log[i], c.transitions, c.scenario.profile, ordinal);
  }

  lemma {:induction false} ProfileRead<S>(c: Setup, v: Env<S>, start: Live<S>, zero: int, xs: seq<Sub>, i: nat)
    requires BoundTo(c, v, start, zero) && i < |LiveRun(v, start, xs).log|
    ensures LiveRun(v, start, xs).log[i].profile == InForceAt(c, i + 1)
  {
    LogFollowsTransitions(v, start, xs, c.transitions, c.disconnects);
    RecordInForce(v, LiveRun(v, start, xs), c, v.ordinal, i);
  }

  /** What record `i` of a bind's run says, in terms of the configuration, the submits and the bind found. */
  lemma {:induction false} RecordReads<S>(c: Setup, v: Env<S>, start: Live<S>, zero: int, xs: seq<Sub>, i: nat)
    requires BoundTo(c, v, start, zero) && i < |LiveRun(v, start, xs).log|
    ensures
      && i < |xs|
      && var r, l := LiveRun(v, start, xs).log[i], LiveRun(v, start, xs[..i]);
         && l.open && l.clock == i && l.bind.gate == GateAfter(c, zero, Times(xs)[..i])
         && r.profile == InForceAt(c, i + 1) && r.profile in v.engines
         && r.verdict == Decide(v.engines[r.profile], v.src, l.bind, i + 1, xs[i].now).0
  {
    RecordFrom(v, start, xs, i);
    CommittedReads(v, LiveRun(v, start, xs[..i]), xs[i]);
    GateFound(c, v, start, zero, xs, i);
    ProfileRead(c, v, start, zero, xs, i);
  }

  // ----- the latency of one decision -----

  lemma {:induction false} BareServesZero<S>(e: Engine, src: Source<S>, b: Bind<S>, t: nat, now: int)
    requires Ready(e) && e.latency == NO_LATENCY
    ensures Decide(e, src, b, t, now).0.latencyMs == 0
  {
  }

  lemma {:induction false} AcceptedServesInWindow<S>(e: Engine, t: nat, src: Source<S>, s: S)
    requires Ready(e) && LatencyAccepted(e.latency, LatencyWindow(e.profile).0, LatencyWindow(e.profile).1)
    requires e.latency.distribution != Normal
    ensures InWindow(e.profile, Profiled(e, t, src, s).0.latencyMs)
  {
    if e.profile.FlakyCarrier? {
      var s1 := Float64(src, s).1;
      LatencyStaysInWindow(e.latency, e.profile, t, src, s1);
      LatencyStaysInWindow(e.latency, e.profile, t, src, PickErrorStatus(e, src, s1).1);
    } else {
      LatencyStaysInWindow(e.latency, e.profile, t, src, s);
    }
  }

  /** A decision's latency lies in the window of the profile in force exactly as this says, told before the decision. */
  predicate FitsWindow(c: Setup, p: Profile, refused: bool) {
    p != SlowCarrier || (c.scenario.profile == SlowCarrier && !refused)
  }

  /** The configured latency is an accepted one, and not a normal one. */
  predicate LatencyBounded(c: Setup) {
    && LatencyAccepted(c.scenario.latency, LatencyWindow(c.scenario.profile).0, LatencyWindow(c.scenario.profile).1)
    && c.scenario.latency.distribution != Normal
  }

  lemma {:induction false} DecisionFits<S>(c: Setup, p: Profile, e: Engine, src: Source<S>, b: Bind<S>, t: nat, now: int)
    requires LatencyBounded(c) && Ready(e) && Carries(c, p, e)
    ensures
      var ms := Decide(e, src, b, t, now).0.latencyMs;
      (InWindow(p, ms) <==> FitsWindow(c, p, Refuses(b.gate, now))) && (InWindow(p, ms) || ms == 0)
  {
    if p == c.scenario.profile {
      AcceptedServesInWindow(e, t, src, b.rng);
      assert Refuses(b.gate, now) ==> Decide(e, src, b, t, now).0.latencyMs == 0;
    } else {
      BareServesZero(e, src, b, t, now);
    }
  }

  /** Record `r`, of submit `i`, was served as its profile and the gate say. */
  predicate FitsSo(c: Setup, zero: int, xs: seq<Sub>, r: Record, i: nat) {
    && i < |xs| && r.profile == InForceAt(c, i + 1)
    && (InWindow(r.profile, r.verdict.latencyMs) <==> FitsWindow(c, r.profile, RefusedAt(c, zero, xs, i)))
    && (InWindow(r.profile, r.verdict.latencyMs) || r.verdict.latencyMs == 0)
  }

  lemma {:induction false} RecordFits<S>(c: Setup, v: Env<S>, start: Live<S>, zero: int, xs: seq<Sub>, i: nat)
    requires LatencyBounded(c) && BoundTo(c, v, start, zero) && i < |LiveRun(v, start, xs).log|
    ensures FitsSo(c, zero, xs, LiveRun(v, start, xs).log[i], i)
  {
    RecordReads(c, v, start, zero, xs, i);
    var r := LiveRun(v, start, xs).log[i];
    DecisionFits(c, r.profile, v.engines[r.profile], v.src, LiveRun(v, start, xs[..i]).bind, i + 1, xs[i].now);
  }

  lemma {:induction false} RunIsLive<S>(c: Setup, q: Party<S>, p: Process<S>, inputs: seq<Input>)
    requires Buildable(c.scenario, p.walk)
    ensures BindRun(c, q, p, inputs).live == LiveRun(EnvFor(c, q, p), StartFor(c, q, p), Subs(inputs))
  {
    DecisionsFollowSubmits(EnvFor(c, q, p), DelayOf(c), c.messages, StartFor(c, q, p), inputs);
  }

  /**
    For every record of every run, the latency lies in the window of the profile it ran under if and
    only if that profile, known before the submit, is not slow-carrier, or it is the initial profile and
    the gate, known before the submit, admits it. A latency outside the window is none at all. Of the
    configuration this needs no more than an accepted latency other than a normal one.
  */
  lemma {:induction false} RecordFitsIff<S>(c: Setup, q: Party<S>, p: Process<S>, inputs: seq<Input>, i: nat)
    requires LatencyBounded(c) && Buildable(c.scenario, p.walk) && i < |BindRun(c, q, p, inputs).live.log|
    ensures FitsSo(c, p.zero, Subs(inputs), BindRun(c, q, p, inputs).live.log[i], i)
  {
    BindsTo(c, q, p);
    RunIsLive(c, q, p, inputs);
    RecordFits(c, EnvFor(c, q, p), StartFor(c, q, p), p.zero, Subs(inputs), i);
  }

  // ----- the configurations all of whose runs serve in the windows -----

  /** Every answer of the run was held back for a latency in the window of its profile. */
  predicate AnsweredInWindow(log: seq<Record>) {
    forall i :: 0 <= i < |log| && log[i].answered ==> InWindow(log[i].profile, log[i].verdict.latencyMs)
  }

  /** A clock that never runs back, first read long after the zero time a gate starts from. */
  predicate RealClock(zero: int, ts: seq<int>) {
    NonDecreasing(ts) && forall i :: 0 <= i < |ts| ==> ts[i] - zero >= SECOND
  }

  /** Ordinals count from one, and the first bind of all is told it is the oldest whenever it asks. */
  predicate RealBind(ordinal: nat, xs: seq<Sub>) {
    1 <= ordinal < TWO_64 && (ordinal == 1 ==> forall i :: 0 <= i < |xs| ==> xs[i].registry == Asked(true, true))
  }

  ghost predicate AlwaysInWindow<S(!new)>(c: Setup, src: Source<S>, coins: Coins) {
    forall q: Party<S>, p: Process<S>, inputs: seq<Input> ::
      && q.src == src && q.coins == coins && Buildable(c.scenario, p.walk)
      && RealClock(p.zero, Times(Subs(inputs))) && RealBind(q.ordinal, Subs(inputs)) ==>
        AnsweredInWindow(ServedLog(c, q, p, inputs))
  }

  predicate Rejecting(c: Setup) {
    c.scenario.profile == DeadCarrier && c.scenario.params.mode == Some(RejectBind)
  }

  /** Some run's gate refuses the submit at tick `t`: more submits can share a second than it admits. */
  predicate CanRefuse(c: Setup, t: nat) {
    CapOf(c).Some? && CapOf(c).value < t
  }

  /** The carrier drops the link at tick `t` unless the gate refuses the submit. */
  predicate DropsAt(c: Setup, t: nat) {
    && InForceAt(c, t) == FlakyCarrier == c.scenario.profile
    && c.scenario.params.disconnectInterval.Some?
    && c.scenario.params.disconnectInterval.value != 0 && t % c.scenario.params.disconnectInterval.value == 0
  }

  /** Where the schedule base of bind `ordinal` can come from. */
  predicate IsOrigin(c: Setup, ordinal: nat, o: Origin) {
    && 1 <= ordinal < TWO_64
    && if c.seed.Some? then o == Derived(c.seed.value, c.nameHash, ordinal) else o.Chaos?
  }

  /**
    No entry takes the link, or the response, away by tick `t` from a bind with this coin: none of scope
    all, none of scope random its coin picks, none of scope oldest if it is the first bind.
  */
  predicate LinkLasts(c: Setup, coin: nat -> bool, first: bool, t: nat) {
    forall d :: d in c.disconnects && Cuts(d, coin, Asked(first, first)) ==>
      FirstTick(d) > t || (FirstTick(d) == t && d.what.when.AfterResponse?)
  }

  /** Bind `ordinal`, with its base from `o`, keeps its link. */
  predicate Lasts(c: Setup, coins: Coins, ordinal: nat, o: Origin, t: nat) {
    IsOrigin(c, ordinal, o) && LinkLasts(c, CoinOn(coins, o), ordinal == 1, t)
  }

  /** The submit at tick `t` can be served 0 ms under slow-carrier, on a link that no periodic cut has taken away. */
  predicate ZeroAt(c: Setup, t: nat) {
    && t >= 1 && InForceAt(c, t) == SlowCarrier
    && (c.scenario.profile == SlowCarrier ==> CanRefuse(c, t))
    && forall u :: 1 <= u < t && DropsAt(c, u) ==> CanRefuse(c, u)
  }

  /** Some run answers the submit at tick `t` under slow-carrier after 0 ms: all in terms of the configuration and the coin. */
  ghost predicate ExposedAt(c: Setup, coins: Coins, t: nat) {
    !Rejecting(c) && ZeroAt(c, t) && exists ordinal: nat, o: Origin :: Lasts(c, coins, ordinal, o, t)
  }

  lemma {:induction false} RefusalsNeedCalls(c: Setup, zero: int, xs: seq<Sub>, i: nat)
    requires i < |xs| && RefusedAt(c, zero, xs, i)
    ensures CanRefuse(c, i + 1)
  {
    CountsAtMost(Window(zero, 0), Times(xs)[..i]);
  }

  lemma {:induction false} DisconnectsIff<S>(c: Setup, e: Engine, src: Source<S>, b: Bind<S>, t: nat, now: int)
    requires Ready(e) && Carries(c, InForceAt(c, t), e)
    ensures Decide(e, src, b, t, now).0.outcome.Disconnect? <==> DropsAt(c, t) && !Refuses(b.gate, now)
  {
  }

  lemma {:induction false} SlowAnswers<S>(e: Engine, src: Source<S>, b: Bind<S>, t: nat, now: int)
    requires Ready(e) && e.profile == SlowCarrier
    ensures var d := Decide(e, src, b, t, now).0; d.outcome.Success? || d.outcome.Failure?
  {
  }

  /** A bind still open has outlived every entry and every drop its ticks reached. */
  lemma {:induction false} OpenOutlives<S>(c: Setup, v: Env<S>, start: Live<S>, zero: int, xs: seq<Sub>)
    requires BoundTo(c, v, start, zero) && LiveRun(v, start, xs).open
    ensures
      var l := LiveRun(v, start, xs);
      && l.clock == |xs| && CursorBehind(v.disconnects, l.dcursor, |xs|) && ByTick(v.disconnects)
      && Spared(c.disconnects, AskedOf(xs), v.coin)
  {
    CutsFollowSchedule(v, start, xs, c.transitions, c.disconnects);
    assert AskedOf(xs)[..|xs|] == AskedOf(xs);
    CutOnTimeSorted(c.disconnects, AskedOf(xs), v.coin);
    DisconnectsOnTime(c.disconnects, AskedOf(xs), v.coin);
    SortKeeps(c.disconnects);
  }

  /** No record of an open bind is a disconnect. */
  lemma {:induction false} OpenNeverDropped<S>(v: Env<S>, start: Live<S>, xs: seq<Sub>, i: nat)
    requires ValidEnv(v) && ValidLive(v, start) && Unused(start) && LiveRun(v, start, xs).open && i < |xs|
    ensures i < |LiveRun(v, start, xs).log| && !LiveRun(v, start, xs).log[i].verdict.outcome.Disconnect?
  {
    LogGrows(v, start, xs);
    AnswersFollowVerdicts(v, start, xs);
    assert AnsweredByVerdict(v, LiveRun(v, start, xs), i);
  }

  /** A record is a disconnect exactly when its tick drops and the gate admitted it. */
  lemma {:induction false} RecordDropIff<S>(c: Setup, v: Env<S>, start: Live<S>, zero: int, xs: seq<Sub>, i: nat)
    requires BoundTo(c, v, start, zero) && i < |xs| && i < |LiveRun(v, start, xs).log|
    ensures LiveRun(v, start, xs).log[i].verdict.outcome.Disconnect? <==> DropsAt(c, i + 1) && !RefusedAt(c, zero, xs, i)
  {
    RecordReads(c, v, start, zero, xs, i);
    var e := v.engines[LiveRun(v, start, xs).log[i].profile];
    DisconnectsIff(c, e, v.src, LiveRun(v, start, xs[..i]).bind, i + 1, xs[i].now);
  }

  lemma {:induction false} OpenUndropped<S>(c: Setup, v: Env<S>, start: Live<S>, zero: int, xs: seq<Sub>, u: nat)
    requires BoundTo(c, v, start, zero) && LiveRun(v, start, xs).open && 1 <= u <= |xs| && DropsAt(c, u)
    ensures CanRefuse(c, u)
  {
    OpenNeverDropped(v, start, xs, u - 1);
    RecordDropIff(c, v, start, zero, xs, u - 1);
    RefusalsNeedCalls(c, zero, xs, u - 1);
  }

  /** An answer out of its window is one at a tick that can be served so, on a link that lasts. */
  lemma {:induction false} OutOfWindowZero<S>(c: Setup, v: Env<S>, start: Live<S>, zero: int, xs: seq<Sub>, i: nat)
    requires LatencyBounded(c) && BoundTo(c, v, start, zero) && i < |LiveRun(v, start, xs).log|
    requires var r := LiveRun(v, start, xs).log[i]; !InWindow(r.profile, r.verdict.latencyMs)
    ensures ZeroAt(c, i + 1)
  {
    RecordFits(c, v, start, zero, xs, i);
    RecordFrom(v, start, xs, i);
    forall u | 1 <= u < i + 1 && DropsAt(c, u) ensures CanRefuse(c, u) {
      OpenUndropped(c, v, start, zero, xs[..i], u);
    }
    if c.scenario.profile == SlowCarrier {
      RefusalsNeedCalls(c, zero, xs, i);
    }
  }

  /** An entry that targets the first bind, or any other bind whatever the registry says, cuts it on the answers it gets. */
  lemma {:induction false} SureCuts(d: Entry<Cut>, coin: nat -> bool, first: bool, a: Asked)
    requires Targets(d, coin, first) && (first ==> a == Asked(true, true))
    ensures Cuts(d, coin, a) && (d.what.when.BeforeResponse? ==> Withholds(d, coin, a))
  {
  }

  predicate FirstTold(first: bool, asked: seq<Asked>) {
    first ==> forall i :: 0 <= i < |asked| ==> asked[i] == Asked(true, true)
  }

  /** Such an entry was not reached while `asked` spared the bind, and does not withhold at the next tick. */
  lemma {:induction false} NotYet(ds: seq<Entry<Cut>>, d: Entry<Cut>, asked: seq<Asked>, coin: nat -> bool, first: bool, a: Asked)
    requires d in ds && Targets(d, coin, first) && Spared(ds, asked, coin)
    requires FirstTold(first, asked) && (first ==> a == Asked(true, true))
    requires !exists e :: e in ds && FirstTick(e) == |asked| + 1 && Withholds(e, coin, a)
    ensures FirstTick(d) > |asked| + 1 || (FirstTick(d) == |asked| + 1 && d.what.when.AfterResponse?)
  {
    SureCuts(d, coin, first, a);
    forall i | 0 <= i < |asked| ensures Cuts(d, coin, asked[i]) {
      SureCuts(d, coin, first, asked[i]);
    }
  }

  lemma {:induction false} LastsUnlessCut(c: Setup, coin: nat -> bool, first: bool, asked: seq<Asked>, a: Asked)
    requires Spared(c.disconnects, asked, coin) && FirstTold(first, asked) && (first ==> a == Asked(true, true))
    requires !exists e :: e in c.disconnects && FirstTick(e) == |asked| + 1 && Withholds(e, coin, a)
    ensures LinkLasts(c, coin, first, |asked| + 1)
  {
    forall d | d in c.disconnects && Targets(d, coin, first)
      ensures FirstTick(d) > |asked| + 1 || (FirstTick(d) == |asked| + 1 && d.what.when.AfterResponse?) {
      NotYet(c.disconnects, d, asked, coin, first, a);
    }
  }

  lemma {:induction false} AnsweredUnpeeked<S>(v: Env<S>, l: Live<S>, x: Sub)
    requires ValidEnv(v) && ValidLive(v, l) && Committed(v, l, x).log[l.clock].answered
    ensures !Peek(v.disconnects, l.dcursor, l.clock + 1, v.coin, x.registry.peek)
  {
  }

  /** An answered submit met no entry that withheld its response. */
  lemma {:induction false} NoneWithheld<S>(c: Setup, v: Env<S>, l: Live<S>, x: Sub)
    requires ValidEnv(v) && ValidLive(v, l) && v.disconnects == SortedByTick(c.disconnects)
    requires CursorBehind(v.disconnects, l.dcursor, l.clock) && Committed(v, l, x).log[l.clock].answered
    ensures !exists e :: e in c.disconnects && FirstTick(e) == l.clock + 1 && Withholds(e, v.coin, x.registry)
  {
    SameEntries(c.disconnects);
    PeekExact(v.disconnects, l.dcursor, l.clock + 1, v.coin, x.registry);
    AnsweredUnpeeked(v, l, x);
  }

  lemma {:induction false} FirstToldSoFar(first: bool, xs: seq<Sub>, i: nat)
    requires FirstTold(first, AskedOf(xs)) && i < |xs|
    ensures FirstTold(first, AskedOf(xs[..i])) && (first ==> xs[i].registry == Asked(true, true))
  {
    assert AskedOf(xs)[i] == xs[i].registry;
    forall j | 0 <= j < i ensures AskedOf(xs[..i])[j] == AskedOf(xs)[j] {
    }
  }

  lemma {:induction false} AnsweredOutlives<S>(c: Setup, v: Env<S>, start: Live<S>, zero: int, xs: seq<Sub>, i: nat, first: bool)
    requires BoundTo(c, v, start, zero) && i < |LiveRun(v, start, xs).log| && LiveRun(v, start, xs).log[i].answered
    requires FirstTold(first, AskedOf(xs))
    ensures LinkLasts(c, v.coin, first, i + 1)
  {
    RecordFrom(v, start, xs, i);
    OpenOutlives(c, v, start, zero, xs[..i]);
    NoneWithheld(c, v, LiveRun(v, start, xs[..i]), xs[i]);
    FirstToldSoFar(first, xs, i);
    LastsUnlessCut(c, v.coin, first, AskedOf(xs[..i]), xs[i].registry);
  }

  /** An answer out of its window exposes its tick. */
  lemma {:induction false} OutOfWindowExposes<S>(c: Setup, q: Party<S>, p: Process<S>, inputs: seq<Input>, i: nat)
    requires Buildable(c.scenario, p.walk) && LatencyBounded(c) && !Rejecting(c) && RealBind(q.ordinal, Subs(inputs))
    requires i < |BindRun(c, q, p, inputs).live.log|
    requires var r := BindRun(c, q, p, inputs).live.log[i]; r.answered && !InWindow(r.profile, r.verdict.latencyMs)
    ensures ExposedAt(c, q.coins, i + 1)
  {
    var v, start, xs := EnvFor(c, q, p), StartFor(c, q, p), Subs(inputs);
    BindsTo(c, q, p);
    RunIsLive(c, q, p, inputs);
    OutOfWindowZero(c, v, start, p.zero, xs, i);
    AnsweredOutlives(c, v, start, p.zero, xs, i, q.ordinal == 1);
    assert Lasts(c, q.coins, q.ordinal, OriginFor(c, q, p), i + 1);
  }

  // ----- a run that reaches an exposed tick: every submit in one instant, the registry always answering the same -----

  function StillSub(first: bool): Sub {
    Sub([], 0, Asked(first, first))
  }

  function Still(first: bool, n: nat): (xs: seq<Sub>)
    ensures |xs| == n && forall i :: 0 <= i < n ==> xs[i] == StillSub(first)
  {
    seq(n, _ => StillSub(first))
  }

  lemma {:induction false} CountsAll(first: bool, n: nat, k: nat)
    ensures After(Window(0, k), Times(Still(first, n))) == Window(0, k + n)
    decreases n
  {
    if n > 0 {
      CountsAll(first, n - 1, k + 1);
      assert Times(Still(first, n))[1..] == Times(Still(first, n - 1));
    }
  }

  /** In the instant run the gate refuses exactly the ticks it can refuse. */
  lemma {:induction false} InstantRefusals(c: Setup, first: bool, n: nat)
    ensures Refuses(GateAfter(c, -SECOND, Times(Still(first, n))), 0) <==> CanRefuse(c, n + 1)
  {
    if n > 0 {
      CountsAll(first, n - 1, 1);
      assert Times(Still(first, n))[1..] == Times(Still(first, n - 1));
    }
  }

  /** A bind whose instant run lasts until tick `t`. */
  predicate Instant<S>(c: Setup, v: Env<S>, start: Live<S>, first: bool, t: nat) {
    BoundTo(c, v, start, -SECOND) && LinkLasts(c, v.coin, first, t) && ZeroAt(c, t)
  }

  function StillLive<S>(v: Env<S>, start: Live<S>, first: bool, n: nat): Live<S>
    requires ValidEnv(v) && ValidLive(v, start)
  {
    LiveRun(v, start, Still(first, n))
  }

  /** No entry that targets the bind on these answers cuts it before tick `t`, or at its peek. */
  lemma {:induction false} NoneCuts(ds: seq<Entry<Cut>>, c: nat, n: nat, coin: nat -> bool, first: bool, t: nat)
    requires ByTick(ds) && CursorBehind(ds, c, n) && n < t
    requires forall d :: d in ds && Targets(d, coin, first) ==> FirstTick(d) > t || (FirstTick(d) == t && d.what.when.AfterResponse?)
    ensures !Peek(ds, c, n + 1, coin, first)
    ensures n + 1 < t ==> !Hit(ds, c, Advance(ds, c, n + 1), coin, first)
  {
    PeekExact(ds, c, n + 1, coin, Asked(first, first));
    HitExact(ds, c, n + 1, coin, Asked(first, first));
  }

  /** The instant run's own peek and consumption at tick n + 1. */
  lemma {:induction false} StillPeek<S>(c: Setup, v: Env<S>, start: Live<S>, first: bool, n: nat, t: nat)
    requires Instant(c, v, start, first, t) && n < t && StillLive(v, start, first, n).open
    ensures
      var l := StillLive(v, start, first, n);
      && l.clock == n && !Peek(v.disconnects, l.dcursor, n + 1, v.coin, first)
      && (n + 1 < t ==> !Hit(v.disconnects, l.dcursor, Advance(v.disconnects, l.dcursor, n + 1), v.coin, first))
  {
    OpenOutlives(c, v, start, -SECOND, Still(first, n));
    SameEntries(c.disconnects);
    NoneCuts(v.disconnects, StillLive(v, start, first, n).dcursor, n, v.coin, first, t);
  }

  lemma {:induction false} NextInForce<S>(v: Env<S>, l: Live<S>, x: Sub, ts: seq<Entry<Profile>>, initial: Profile)
    requires ValidEnv(v) && ValidLive(v, l) && v.transitions == SortedByTick(ts)
    requires (l.profile, l.tcursor) == ProfileAt(ts, initial, l.clock)
    ensures Committed(v, l, x).log[l.clock].profile == ProfileAt(ts, initial, l.clock + 1).0
  {
    SwitchInForce(v, l, ts, initial);
  }

  lemma {:induction false} CursorInForce<S>(v: Env<S>, start: Live<S>, xs: seq<Sub>, ts: seq<Entry<Profile>>, ds: seq<Entry<Cut>>)
    requires ValidEnv(v) && ValidLive(v, start) && Configured(v, ts, ds) && Unused(start)
    ensures var l := LiveRun(v, start, xs); (l.profile, l.tcursor) == ProfileAt(ts, start.profile, l.clock)
  {
    LogFollowsTransitions(v, start, xs, ts, ds);
  }

  lemma {:induction false} StillProfile<S>(c: Setup, v: Env<S>, start: Live<S>, first: bool, n: nat)
    requires BoundTo(c, v, start, -SECOND) && StillLive(v, start, first, n).clock == n
    ensures Committed(v, StillLive(v, start, first, n), StillSub(first)).log[n].profile == InForceAt(c, n + 1)
  {
    CursorInForce(v, start, Still(first, n), c.transitions, c.disconnects);
    NextInForce(v, StillLive(v, start, first, n), StillSub(first), c.transitions, c.scenario.profile);
  }

  lemma {:induction false} StillGate<S>(c: Setup, v: Env<S>, start: Live<S>, first: bool, n: nat)
    requires BoundTo(c, v, start, -SECOND) && StillLive(v, start, first, n).clock == n
    ensures Refuses(StillLive(v, start, first, n).bind.gate, 0) <==> CanRefuse(c, n + 1)
  {
    GateFollowsClock(c, v, start, -SECOND, Still(first, n));
    assert Times(Still(first, n))[..n] == Times(Still(first, n));
    InstantRefusals(c, first, n);
  }

  lemma {:induction false} StillDecision<S>(c: Setup, v: Env<S>, start: Live<S>, first: bool, n: nat)
    requires BoundTo(c, v, start, -SECOND) && StillLive(v, start, first, n).clock == n
    ensures
      var r := Committed(v, StillLive(v, start, first, n), StillSub(first)).log[n];
      && r.profile == InForceAt(c, n + 1)
      && (r.verdict.outcome.Disconnect? <==> DropsAt(c, n + 1) && !CanRefuse(c, n + 1))
      && (r.profile == SlowCarrier ==> r.verdict.outcome.Success? || r.verdict.outcome.Failure?)
  {
    var l := StillLive(v, start, first, n);
    StillProfile(c, v, start, first, n);
    StillGate(c, v, start, first, n);
    CommittedReads(v, l, StillSub(first));
    var e := v.engines[InForceAt(c, n + 1)];
    DisconnectsIff(c, e, v.src, l.bind, n + 1, 0);
    if e.profile == SlowCarrier {
      SlowAnswers(e, v.src, l.bind, n + 1, 0);
    }
  }

  lemma {:induction false} StillStep<S>(v: Env<S>, l: Live<S>, first: bool)
    requires ValidEnv(v) && ValidLive(v, l) && l.open
    requires !Peek(v.disconnects, l.dcursor, l.clock + 1, v.coin, first)
    requires !Hit(v.disconnects, l.dcursor, Advance(v.disconnects, l.dcursor, l.clock + 1), v.coin, first)
    requires !Committed(v, l, StillSub(first)).log[l.clock].verdict.outcome.Disconnect?
    ensures Submitted(v, l, StillSub(first)).open && Submitted(v, l, StillSub(first)).clock == l.clock + 1
  {
  }

  lemma {:induction false} StillUnfolds<S>(v: Env<S>, start: Live<S>, first: bool, n: nat)
    requires ValidEnv(v) && ValidLive(v, start)
    ensures StillLive(v, start, first, n + 1) == Submitted(v, StillLive(v, start, first, n), StillSub(first))
  {
    assert Still(first, n + 1)[..n] == Still(first, n);
  }

  /** If the instant run is open after n submits of fewer than t, it is open after one more. */
  lemma {:induction false} StillNext<S>(c: Setup, v: Env<S>, start: Live<S>, first: bool, n: nat, t: nat)
    requires Instant(c, v, start, first, t) && n + 1 < t
    requires StillLive(v, start, first, n).open && StillLive(v, start, first, n).clock == n
    ensures StillLive(v, start, first, n + 1).open && StillLive(v, start, first, n + 1).clock == n + 1
  {
    StillPeek(c, v, start, first, n, t);
    StillDecision(c, v, start, first, n);
    assert DropsAt(c, n + 1) ==> CanRefuse(c, n + 1);
    StillStep(v, StillLive(v, start, first, n), first);
    StillUnfolds(v, start, first, n);
  }

  lemma {:induction false} StillOpen<S>(c: Setup, v: Env<S>, start: Live<S>, first: bool, n: nat, t: nat)
    requires Instant(c, v, start, first, t) && n < t
    ensures StillLive(v, start, first, n).open && StillLive(v, start, first, n).clock == n
    decreases n
  {
    if n > 0 {
      StillOpen(c, v, start, first, n - 1, t);
      StillNext(c, v, start, first, n - 1, t);
    }
  }

  lemma {:induction false} StillAnswers<S>(v: Env<S>, l: Live<S>, first: bool)
    requires ValidEnv(v) && ValidLive(v, l) && l.open
    requires !Peek(v.disconnects, l.dcursor, l.clock + 1, v.coin, first)
    requires var d := Committed(v, l, StillSub(first)).log[l.clock].verdict; d.outcome.Success? || d.outcome.Failure?
    ensures
      var r := Submitted(v, l, StillSub(first));
      r.clock == l.clock + 1 && r.log[l.clock] == Committed(v, l, StillSub(first)).log[l.clock] && r.log[l.clock].answered
  {
    LogStep(v, l, StillSub(first));
  }

  /** The instant run answers an exposed tick. */
  lemma {:induction false} ExposedIsAnswered<S>(c: Setup, v: Env<S>, start: Live<S>, first: bool, t: nat)
    requires Instant(c, v, start, first, t)
    ensures StillLive(v, start, first, t).clock == t && StillLive(v, start, first, t).log[t - 1].answered
    ensures StillLive(v, start, first, t).log[t - 1].profile == SlowCarrier
  {
    StillOpen(c, v, start, first, t - 1, t);
    StillPeek(c, v, start, first, t - 1, t);
    StillDecision(c, v, start, first, t - 1);
    StillAnswers(v, StillLive(v, start, first, t - 1), first);
    StillUnfolds(v, start, first, t - 1);
  }

  /** And it serves 0 ms there, out of its window. */
  lemma {:induction false} ExposedIsServed<S>(c: Setup, v: Env<S>, start: Live<S>, first: bool, t: nat)
    requires LatencyBounded(c) && Instant(c, v, start, first, t)
    ensures !AnsweredInWindow(StillLive(v, start, first, t).log) && ServesZero(StillLive(v, start, first, t).log)
  {
    var n := t - 1;
    ExposedIsAnswered(c, v, start, first, t);
    RecordFits(c, v, start, -SECOND, Still(first, t), n);
    assert Times(Still(first, t))[..n] == Times(Still(first, n));
    InstantRefusals(c, first, n);
  }

  /** A submit of the log was answered at once under slow-carrier. */
  predicate ServesZero(log: seq<Record>) {
    exists i :: 0 <= i < |log| && log[i].answered && log[i].profile == SlowCarrier && log[i].verdict.latencyMs == 0
  }

  function Handled(xs: seq<Sub>): seq<Input> {
    if xs == [] then [] else Handled(xs[..|xs| - 1]) + [Submit(xs[|xs| - 1])]
  }

  lemma {:induction false} HandledSubs(xs: seq<Sub>)
    ensures Subs(Handled(xs)) == xs
  {
    if xs != [] {
      HandledSubs(xs[..|xs| - 1]);
      assert Handled(xs)[..|Handled(xs)| - 1] == Handled(xs[..|xs| - 1]);
    }
  }

  /** The log of a client that is not turned away is that of its submits. */
  lemma {:induction false} ServedIsRun<S>(c: Setup, q: Party<S>, p: Process<S>, inputs: seq<Input>)
    requires Buildable(c.scenario, p.walk) && !Rejecting(c)
    ensures ServedLog(c, q, p, inputs) == LiveRun(EnvFor(c, q, p), StartFor(c, q, p), Subs(inputs)).log
  {
    RunIsLive(c, q, p, inputs);
  }

  /** A bind that lasts until tick `t` and a process in which it does. */
  lemma {:induction false} LastingBind<S>(c: Setup, walk: seq<Code>, src: Source<S>, s: S, coins: Coins, t: nat)
    returns (q: Party<S>, p: Process<S>)
    requires Buildable(c.scenario, walk) && ExposedAt(c, coins, t)
    ensures q.src == src && q.coins == coins && p.walk == walk && p.zero == -SECOND && 1 <= q.ordinal < TWO_64
    ensures LinkLasts(c, EnvFor(c, q, p).coin, q.ordinal == 1, t)
  {
    var ordinal: nat, o: Origin :| Lasts(c, coins, ordinal, o, t);
    q, p := Party(src, coins, ordinal, false), Process(walk, -SECOND, (s, if o.Chaos? then o.base else 0));
    assert OriginFor(c, q, p) == o;
  }

  /** An exposed tick has a bind, a process and inputs that serve it 0 ms. */
  lemma {:induction false} ExposedServesZero<S>(c: Setup, walk: seq<Code>, src: Source<S>, s: S, coins: Coins, t: nat)
    returns (q: Party<S>, p: Process<S>, inputs: seq<Input>)
    requires Buildable(c.scenario, walk) && LatencyBounded(c) && ExposedAt(c, coins, t)
    ensures q.src == src && q.coins == coins && Buildable(c.scenario, p.walk)
    ensures RealClock(p.zero, Times(Subs(inputs))) && RealBind(q.ordinal, Subs(inputs))
    ensures ServesZero(ServedLog(c, q, p, inputs)) && !AnsweredInWindow(ServedLog(c, q, p, inputs))
  {
    q, p := LastingBind(c, walk, src, s, coins, t);
    inputs := Handled(Still(q.ordinal == 1, t));
    HandledSubs(Still(q.ordinal == 1, t));
    BindsTo(c, q, p);
    ServedIsRun(c, q, p, inputs);
    ExposedIsServed(c, EnvFor(c, q, p), StartFor(c, q, p), q.ordinal == 1, t);
  }

  lemma {:induction false} UnexposedInWindow<S>(c: Setup, q: Party<S>, p: Process<S>, inputs: seq<Input>)
    requires LatencyBounded(c) && Buildable(c.scenario, p.walk) && RealBind(q.ordinal, Subs(inputs))
    requires forall t: nat :: !ExposedAt(c, q.coins, t)
    ensures AnsweredInWindow(ServedLog(c, q, p, inputs))
  {
    var log := ServedLog(c, q, p, inputs);
    forall i | 0 <= i < |log| && log[i].answered ensures InWindow(log[i].profile, log[i].verdict.latencyMs) {
      if !InWindow(log[i].profile, log[i].verdict.latencyMs) {
        OutOfWindowExposes(c, q, p, inputs, i);
      }
    }
  }

  /**
    Every answer of every run of an accepted configuration is served in the window of its profile if and
    only if no tick is exposed: no tick that some run reaches and answers under slow-carrier entered by a
    transition, or under an initial slow-carrier with more submits before it than the cap.
  */
  lemma {:induction false} AlwaysInWindowIff<S(!new)>(c: Setup, walk: seq<Code>, src: Source<S>, s: S, coins: Coins)
    requires ListsMix(walk, c.scenario.params) && SetupAccepted(c, walk) && c.scenario.latency.distribution != Normal
    ensures AlwaysInWindow(c, src, coins) <==> forall t: nat :: !ExposedAt(c, coins, t)
  {
    if forall t: nat :: !ExposedAt(c, coins, t) {
      forall q: Party<S>, p: Process<S>, inputs: seq<Input> |
        && q.src == src && q.coins == coins && Buildable(c.scenario, p.walk)
        && RealClock(p.zero, Times(Subs(inputs))) && RealBind(q.ordinal, Subs(inputs))
        ensures AnsweredInWindow(ServedLog(c, q, p, inputs)) {
        UnexposedInWindow(c, q, p, inputs);
      }
    } else {
      var t: nat :| ExposedAt(c, coins, t);
      var q, p, inputs := ExposedServesZero(c, walk, src, s, coins, t);
      assert !AnsweredInWindow(ServedLog(c, q, p, inputs));
    }
  }

  // ----- one configuration of each kind -----

  const SLOW_LATENCY := NO_LATENCY.(distribution := Uniform, minMs := Some(2000), maxMs := Some(4000))
  const BRIEF_LATENCY := NO_LATENCY.(distribution := Fixed, ms := Some(10))

  const CAPPED_SLOW := Setup(None, 0, Some(1), Bare(SlowCarrier).(latency := SLOW_LATENCY), [], [], [], None)
  const SLOWED := Setup(Some(7), 0, None, Bare(Healthy).(latency := BRIEF_LATENCY), [Entry(1, SlowCarrier)], [], [], None)
  const REJECTING :=
    Setup(Some(7), 0, None, Bare(DeadCarrier).(params := NO_PARAMS.(mode := Some(RejectBind)), latency := BRIEF_LATENCY),
          [Entry(1, SlowCarrier)], [], [], None)

  lemma {:induction false} NoTransitions(p: Profile, t: nat)
    requires t >= 1
    ensures ProfileAt([], p, t).0 == p
  {
    TransitionsInForce([], p, t);
  }

  /** Without disconnect entries the second bind always lasts. */
  lemma {:induction false} NothingCuts(c: Setup, coins: Coins, t: nat)
    requires c.disconnects == []
    ensures exists ordinal: nat, o: Origin :: Lasts(c, coins, ordinal, o, t)
  {
    var o := if c.seed.None? then Chaos(0) else Derived(c.seed.value, c.nameHash, 2);
    assert Lasts(c, coins, 2, o, t);
  }

  lemma {:induction false} CappedSlowExposed(coins: Coins)
    ensures SetupAccepted(CAPPED_SLOW, []) && ExposedAt(CAPPED_SLOW, coins, 2) && !ExposedAt(CAPPED_SLOW, coins, 1)
  {
    NoTransitions(SlowCarrier, 2);
    NoTransitions(SlowCarrier, 1);
    NothingCuts(CAPPED_SLOW, coins, 2);
    assert KnobsFit(SLOW_LATENCY) && InBounds(SLOW_LATENCY, SLOW_CARRIER_MIN_MS, SLOW_CARRIER_MAX_MS);
  }

  /** An unseeded slow-carrier with a limit of one submit a second: accepted, and its second submit in a second is answered at once. */
  lemma {:induction false} RefusedSlowServesZero<S>(src: Source<S>, s: S, coins: Coins)
    returns (q: Party<S>, p: Process<S>, inputs: seq<Input>)
    ensures SetupAccepted(CAPPED_SLOW, []) && Buildable(CAPPED_SLOW.scenario, p.walk) && q.src == src && q.coins == coins
    ensures ServesZero(ServedLog(CAPPED_SLOW, q, p, inputs))
  {
    CappedSlowExposed(coins);
    q, p, inputs := ExposedServesZero(CAPPED_SLOW, [], src, s, coins, 2);
  }

  lemma {:induction false} SlowedExposed(coins: Coins)
    ensures SetupAccepted(SLOWED, []) && ExposedAt(SLOWED, coins, 1)
  {
    var es := [Entry(1, SlowCarrier)];
    TransitionsInForce(es, Healthy, 1);
    assert es[0].at == 1;
    NothingCuts(SLOWED, coins, 1);
    assert KnobsFit(BRIEF_LATENCY) && InBounds(BRIEF_LATENCY, 0, LATENCY_MS_MAX);
  }

  /** A healthy carrier that becomes slow at its first tick: accepted, and answered at once there. */
  lemma {:induction false} EnteredSlowServesZero<S>(src: Source<S>, s: S, coins: Coins)
    returns (q: Party<S>, p: Process<S>, inputs: seq<Input>)
    ensures SetupAccepted(SLOWED, []) && Buildable(SLOWED.scenario, p.walk) && q.src == src && q.coins == coins
    ensures ServesZero(ServedLog(SLOWED, q, p, inputs))
  {
    SlowedExposed(coins);
    q, p, inputs := ExposedServesZero(SLOWED, [], src, s, coins, 1);
  }

  /** A transition into slow-carrier overtaken at its own tick is never in force: accepted, and no tick is exposed. */
  lemma {:induction false} OvertakenSlowHarmless(coins: Coins)
    ensures
      var c := Setup(Some(7), 0, None, Bare(Healthy).(latency := BRIEF_LATENCY), [Entry(5, SlowCarrier), Entry(5, Healthy)], [], [], None);
      SetupAccepted(c, []) && forall t: nat :: !ExposedAt(c, coins, t)
  {
    var es := [Entry(5, SlowCarrier), Entry(5, Healthy)];
    forall t: nat | t >= 1 ensures ProfileAt(es, Healthy, t).0 != SlowCarrier {
      TransitionsInForce(es, Healthy, t);
      assert es[1].at == es[0].at;
    }
    assert KnobsFit(BRIEF_LATENCY) && InBounds(BRIEF_LATENCY, 0, LATENCY_MS_MAX);
  }

  /**
    A dead carrier that rejects binds, with a transition into slow-carrier in force at its first tick:
    accepted, and yet no tick is exposed and every answer is in its window, for nobody is ever bound.
  */
  lemma {:induction false} RejectingSlowHarmless<S(!new)>(src: Source<S>, s: S, coins: Coins)
    ensures SetupAccepted(REJECTING, []) && InForceAt(REJECTING, 1) == SlowCarrier
    ensures (forall t: nat :: !ExposedAt(REJECTING, coins, t)) && AlwaysInWindow(REJECTING, src, coins)
  {
    var es := [Entry(1, SlowCarrier)];
    TransitionsInForce(es, DeadCarrier, 1);
    assert es[0].at == 1;
    assert KnobsFit(BRIEF_LATENCY) && InBounds(BRIEF_LATENCY, 0, LATENCY_MS_MAX);
    AlwaysInWindowIff(REJECTING, [], src, s, coins);
  }
}
